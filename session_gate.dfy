/**
 * The edge middleware (middleware.ts): every matched page request either
 * passes, or is redirected to `/login` unless its `Authentication` cookie is
 * confirmed by the backend's `/auth/verify`. The backend's answer is an input.
 */
module SessionGate {
  import opened Wrappers

  datatype Decision = Next | RedirectToLogin

  /** The verification request: its URL and its `Cookie` header. */
  datatype VerifyCall = VerifyCall(url: string, cookie: string)

  datatype GateResult = GateResult(decision: Decision, verify: Option<VerifyCall>)

  /** Path prefixes the matcher's negative lookahead excludes (after the leading `/`). */
  predicate Excluded(rest: string) {
    "api" <= rest
    || "_next/static" <= rest
    || "_next/image" <= rest
    // The unescaped `.` in `favicon.ico` matches any one character.
    || (|rest| >= 11 && rest[..7] == "favicon" && rest[8..11] == "ico")
  }

  /** `matcher: ['/((?!api|_next/static|_next/image|favicon.ico).*)']`, anchored at both ends. */
  predicate MatcherApplies(path: string) {
    path != [] && path[0] == '/' && !Excluded(path[1..])
  }

  /**
   * One request through the middleware. `verifyOk` says whether the backend
   * answered the verification call with a success status; it is read only
   * when that call is made.
   */
  function Gate(apiBase: string, path: string, token: Option<string>, verifyOk: bool): (r: GateResult)
    // No verification call is made for unmatched paths, login pages or a missing token.
    ensures r.verify.Some? <==>
      MatcherApplies(path) && !("/login" <= path) && token.Some? && token.value != ""
    ensures r.verify.Some? ==>
      r.verify.value == VerifyCall(apiBase + "/auth/verify", "Authentication=" + token.value)
    // A matched, non-login page is served only with a token the backend confirmed.
    ensures r.decision == Next <==>
      !MatcherApplies(path) || "/login" <= path || (r.verify.Some? && verifyOk)
  {
    if !MatcherApplies(path) then GateResult(Next, None)
    else if "/login" <= path then GateResult(Next, None)
    else if token.None? || token.value == "" then GateResult(RedirectToLogin, None)
    else
      var call := VerifyCall(apiBase + "/auth/verify", "Authentication=" + token.value);
      GateResult(if verifyOk then Next else RedirectToLogin, Some(call))
  }

  /** The dashboard is reachable without a login only through the unmatched paths and `/login...`. */
  lemma DashboardNeedsVerifiedToken(apiBase: string, path: string, token: Option<string>, verifyOk: bool)
    requires "/dashboard" <= path
    ensures Gate(apiBase, path, token, verifyOk).decision == Next <==>
      token.Some? && token.value != "" && verifyOk
  {
    assert path[0] == '/' && path[1] == 'd';
    assert path[..6] != "/login" by { assert path[1] != "/login"[1]; }
    assert !Excluded(path[1..]) by {
      assert path[1..][0] == 'd';
    }
  }

  /** `/apiary` is outside the matcher too: the lookahead tests a prefix, not a path segment. */
  lemma ApiPrefixNotSegment()
    ensures !MatcherApplies("/apiary")
    ensures !MatcherApplies("/favicon_ico")
    ensures MatcherApplies("/dashboard")
  {
    assert "/apiary"[1..] == "apiary";
    assert "apiary"[..3] == "api";
    var f := "/favicon_ico"[1..];
    assert f == "favicon_ico";
    assert f[..7] == "favicon" && f[8..11] == "ico";
    var d := "/dashboard"[1..];
    assert d == "dashboard";
    assert d[0] == 'd';
    assert d[..7] != "favicon" by { assert d[..7][0] == 'd'; }
  }
}
