/**
 * `createApiHandler` (src/lib/apiUtils.ts): a Next.js route handler that
 * forwards the browser's request to the backend API with the browser's
 * cookies, and relays the backend's answer and `Set-Cookie` headers back.
 * The backend call itself is an input (`Upstream`).
 */
module ApiProxy {
  import opened Wrappers
  import Seqs
  import Text

  datatype Header = Header(name: string, value: string)

  /** What `createApiHandler(path, method, includeBody, responseProcessor)` fixes for one route. */
  datatype Route = Route(path: string, verb: string, includeBody: bool, processor: Option<string -> string>)

  /**
   * The parts of the inbound request the handler reads: the `cookie` and
   * `content-type` headers, the JSON body (None when `request.json()` rejects)
   * and the multipart form fields.
   */
  datatype Inbound = Inbound(
    cookie: Option<string>,
    contentType: Option<string>,
    json: Option<string>,
    form: seq<(string, string)>)

  datatype Body = NoBody | FormBody(fields: seq<(string, string)>) | JsonBody(json: string)

  datatype AxiosConfig = AxiosConfig(
    verb: string,
    url: string,
    withCredentials: bool,
    headers: seq<Header>,
    data: Body)

  /** The backend call's outcome: a response, or an error carrying an optional response status and body. */
  datatype Upstream =
    | Response(data: string, setCookie: Option<seq<string>>)
    | Failure(status: Option<int>, errorData: Option<string>, message: string)

  datatype ResponseBody = Data(data: string) | ErrorBody(error: string, details: string, status: int)

  const JsonContentType := Header("content-type", "application/json")

  // ---- Path parameters ----

  /** `pat` occurs in `s` starting at index `j`. */
  predicate OccursAt(s: string, pat: string, j: nat) {
    j + |pat| <= |s| && s[j..j + |pat|] == pat
  }

  /** The first index at or after `from` where `pat` occurs in `s`. */
  function IndexFrom(s: string, pat: string, from: nat): (r: Option<nat>)
    ensures r.Some? ==> from <= r.value && OccursAt(s, pat, r.value)
    ensures r.Some? ==> forall j: nat :: from <= j < r.value ==> !OccursAt(s, pat, j)
    ensures r.None? ==> forall j: nat :: from <= j ==> !OccursAt(s, pat, j)
    decreases |s| - from
  {
    if from + |pat| > |s| then None
    else if OccursAt(s, pat, from) then Some(from)
    else IndexFrom(s, pat, from + 1)
  }

  /**
   * `s.replace(pat, rep)` with a string pattern: the FIRST occurrence of `pat` is
   * replaced, and everything after it, later occurrences included, is kept.
   */
  function ReplaceFirst(s: string, pat: string, rep: string): (r: string)
    ensures IndexFrom(s, pat, 0).None? ==> r == s
    ensures IndexFrom(s, pat, 0).Some? ==>
      var i := IndexFrom(s, pat, 0).value;
      r == s[..i] + rep + s[i + |pat|..]
  {
    match IndexFrom(s, pat, 0)
    case None => s
    case Some(i) => s[..i] + rep + s[i + |pat|..]
  }

  /** The path after replacing `:key` by its value for each parameter, in `Object.entries` order. */
  function Substitute(path: string, params: seq<(string, string)>): string
    decreases |params|
  {
    if params == [] then path
    else
      var last := params[|params| - 1];
      ReplaceFirst(Substitute(path, params[..|params| - 1]), ":" + last.0, last.1)
  }

  /** The `forEach` loop that rewrites `finalPath` one parameter at a time. */
  method SubstitutePath(path: string, params: seq<(string, string)>) returns (finalPath: string)
    ensures finalPath == Substitute(path, params)
  {
    finalPath := path;
    for i := 0 to |params|
      invariant finalPath == Substitute(path, params[..i])
    {
      finalPath := ReplaceFirst(finalPath, ":" + params[i].0, params[i].1);
      assert params[..i + 1][..i] == params[..i];
    }
    assert params[..|params|] == params;
  }

  /** After a colon-free prefix, the first `:key` is the one right after the prefix. */
  lemma FirstPlaceholder(pre: string, key: string, rest: string)
    requires ':' !in pre
    ensures IndexFrom(pre + ":" + key + rest, ":" + key, 0) == Some(|pre|)
  {
    var s := pre + ":" + key + rest;
    assert s[|pre|..|pre| + |key| + 1] == ":" + key;
    forall j: nat | j < |pre|
      ensures !OccursAt(s, ":" + key, j)
    {
      assert s[j] == pre[j] != ':';
      assert j + |key| + 1 <= |s| ==> s[j..j + |key| + 1][0] == s[j];
    }
    assert OccursAt(s, ":" + key, |pre|);
  }

  /** Replacing `:key` after a colon-free prefix puts the value exactly there. */
  lemma ReplaceAfterPrefix(pre: string, key: string, rest: string, value: string)
    requires ':' !in pre
    ensures ReplaceFirst(pre + ":" + key + rest, ":" + key, value) == pre + value + rest
  {
    var s := pre + ":" + key + rest;
    FirstPlaceholder(pre, key, rest);
    assert s[..|pre|] == pre;
    assert s[|pre| + |":" + key|..] == rest;
  }

  /**
   * Only the first `:key` is replaced: a second occurrence of the same token
   * further along the template stays literal.
   */
  lemma RepeatedTokenKept(pre: string, key: string, mid: string, value: string)
    requires ':' !in pre
    ensures Substitute(pre + ":" + key + mid + ":" + key, [(key, value)]) == pre + value + mid + ":" + key
  {
    assert [(key, value)][..0] == [];
    assert pre + ":" + key + mid + ":" + key == pre + ":" + key + (mid + ":" + key);
    ReplaceAfterPrefix(pre, key, mid + ":" + key, value);
  }

  lemma ColonFree3(a: string, b: string, c: string)
    requires ':' !in a && ':' !in b && ':' !in c
    ensures ':' !in a + b + c
  {
    forall i | 0 <= i < |a + b + c| ensures (a + b + c)[i] != ':' {
      if i < |a| { assert (a + b + c)[i] == a[i]; }
      else if i < |a| + |b| { assert (a + b + c)[i] == b[i - |a|]; }
      else { assert (a + b + c)[i] == c[i - |a| - |b|]; }
    }
  }

  /** A two-parameter template gets both values, in parameter order. */
  lemma SubstituteTwoParams(a: string, k1: string, b: string, k2: string, c: string, v1: string, v2: string)
    requires ':' !in a && ':' !in b && ':' !in v1
    ensures Substitute(a + ":" + k1 + b + ":" + k2 + c, [(k1, v1), (k2, v2)]) == a + v1 + b + v2 + c
  {
    var p := [(k1, v1), (k2, v2)];
    var s0 := a + ":" + k1 + b + ":" + k2 + c;
    var s1 := (a + v1 + b) + ":" + k2 + c;
    SubstituteFirstOfTwo(a, k1, b, k2, c, v1, v2);
    assert p[..1] == [(k1, v1)];
    assert Substitute(s0, p) == ReplaceFirst(s1, ":" + k2, v2);
    ColonFree3(a, v1, b);
    ReplaceAfterPrefix(a + v1 + b, k2, c, v2);
  }

  lemma SubstituteFirstOfTwo(a: string, k1: string, b: string, k2: string, c: string, v1: string, v2: string)
    requires ':' !in a
    ensures Substitute(a + ":" + k1 + b + ":" + k2 + c, [(k1, v1)]) == (a + v1 + b) + ":" + k2 + c
  {
    var s0 := a + ":" + k1 + b + ":" + k2 + c;
    assert [(k1, v1)][..0] == [];
    assert s0 == a + ":" + k1 + (b + ":" + k2 + c);
    ReplaceAfterPrefix(a, k1, b + ":" + k2 + c, v1);
  }

  /** A placeholder with no matching parameter stays literal in the forwarded path. */
  lemma UnmatchedTokenKept(path: string, key: string, value: string)
    requires forall j: nat :: !OccursAt(path, ":" + key, j)
    ensures Substitute(path, [(key, value)]) == path
  {
    assert [(key, value)][..0] == [];
  }

  // ---- The outbound request ----

  /** `cookieHeader ? { Cookie: cookieHeader } : {}`: an absent or empty cookie header sets nothing. */
  function CookieHeaders(cookie: Option<string>): (h: seq<Header>)
    ensures h == [] <==> cookie.None? || cookie.value == ""
    ensures h != [] ==> h == [Header("Cookie", cookie.value)]
  {
    if cookie.Some? && cookie.value != "" then [Header("Cookie", cookie.value)] else []
  }

  predicate IsMultipart(req: Inbound) {
    Text.Contains(req.contentType.GetOr(""), "multipart/form-data")
  }

  /** Builds the axios configuration step by step, as the handler does. */
  method BuildConfig(route: Route, apiBase: string, params: seq<(string, string)>, req: Inbound)
    returns (config: AxiosConfig)
    ensures config.verb == route.verb && config.withCredentials
    ensures config.url == apiBase + Substitute(route.path, params)
    ensures config.data != NoBody <==> route.includeBody && route.verb != "GET"
    ensures config.data.FormBody? <==> route.includeBody && route.verb != "GET" && IsMultipart(req)
    ensures config.data.FormBody? ==>
      config.data.fields == req.form
      && config.headers == CookieHeaders(req.cookie) + [Header("Content-Type", "multipart/form-data")]
    ensures config.data.JsonBody? ==> config.data.json == req.json.GetOr("{}")
    ensures !config.data.FormBody? ==> config.headers == CookieHeaders(req.cookie)
  {
    var headers := CookieHeaders(req.cookie);
    var finalPath := SubstitutePath(route.path, params);
    config := AxiosConfig(route.verb, apiBase + finalPath, true, headers, NoBody);
    if route.includeBody && route.verb != "GET" {
      if IsMultipart(req) {
        config := config.(data := FormBody(req.form));
        config := config.(headers := config.headers + [Header("Content-Type", "multipart/form-data")]);
      } else {
        var parsed := if req.json.Some? then req.json.value else "{}";
        config := config.(data := JsonBody(parsed));
      }
    }
  }

  // ---- The response ----

  /** The `Set-Cookie` values among `headers`, in order. */
  function SetCookieValues(headers: seq<Header>): seq<string> {
    Seqs.Map(Seqs.Filter(headers, (h: Header) => h.name == "Set-Cookie"), (h: Header) => h.value)
  }

  function CookieHeaderList(cookies: seq<string>): seq<Header> {
    Seqs.Map(cookies, (c: string) => Header("Set-Cookie", c))
  }

  /** Relaying cookies after the JSON content type yields exactly those cookies, in order and with repeats. */
  lemma RelayedCookies(cookies: seq<string>)
    ensures SetCookieValues([JsonContentType] + CookieHeaderList(cookies)) == cookies
  {
    var isCookie := (h: Header) => h.name == "Set-Cookie";
    Seqs.FilterConcat([JsonContentType], CookieHeaderList(cookies), isCookie);
    Seqs.FilterAll(CookieHeaderList(cookies), isCookie);
    assert Seqs.Filter([JsonContentType], isCookie) == [];
  }

  /** The error text: fixed for a login POST, otherwise naming the method and the route template. */
  function ErrorMessage(verb: string, path: string): (m: string)
    ensures m == "Invalid credentials" <==> verb == "POST" && Text.Contains(path, "login")
    ensures m != "Invalid credentials" ==> m == verb + " request to " + path + " failed"
  {
    if verb == "POST" && Text.Contains(path, "login") then "Invalid credentials"
    else
      var m := verb + " request to " + path + " failed";
      assert m[|m| - 1] == 'd' != 's' == "Invalid credentials"[18];
      m
  }

  /** The error status: the upstream status, with a missing or zero status becoming 500. */
  function ErrorStatus(status: Option<int>): (s: int)
    ensures s != 0
    ensures status.Some? && status.value != 0 ==> s == status.value
    ensures status.None? || status.value == 0 ==> s == 500
  {
    if status.Some? && status.value != 0 then status.value else 500
  }

  /**
   * The error details: the upstream body when it is non-empty, else the
   * error's own message, else a fixed fallback text, so never empty.
   */
  function ErrorDetails(errorData: Option<string>, message: string): (d: string)
    ensures d != ""
    ensures errorData.Some? && errorData.value != "" ==> d == errorData.value
    ensures (errorData.None? || errorData.value == "") && message != "" ==> d == message
  {
    if errorData.Some? && errorData.value != "" then errorData.value
    else if message != "" then message
    else "No additional details available"
  }

  function Processed(route: Route, data: string): string {
    if route.processor.Some? then route.processor.value(data) else data
  }

  class NextResponse {
    var status: int
    var body: ResponseBody
    var headers: seq<Header>

    /** `NextResponse.json(body, { status })`. */
    constructor Json(body: ResponseBody, status: int)
      ensures this.body == body && this.status == status && headers == [JsonContentType]
    {
      this.body := body;
      this.status := status;
      headers := [JsonContentType];
    }

    /** `headers.append(name, value)`. */
    method Append(name: string, value: string)
      modifies this
      ensures headers == old(headers) + [Header(name, value)]
      ensures body == old(body) && status == old(status)
    {
      headers := headers + [Header(name, value)];
    }
  }

  /**
   * One run of the handler: the configuration sent upstream and the response
   * given to the browser for the upstream outcome.
   */
  method Handle(route: Route, apiBase: string, params: seq<(string, string)>, req: Inbound, upstream: Upstream)
    returns (config: AxiosConfig, res: NextResponse)
    ensures fresh(res)
    ensures config.url == apiBase + Substitute(route.path, params)
    ensures upstream.Response? ==>
      res.status == 200
      && res.body == Data(Processed(route, upstream.data))
      && SetCookieValues(res.headers) == upstream.setCookie.GetOr([])
    ensures upstream.Failure? ==>
      var status := ErrorStatus(upstream.status);
      res.status == status
      && res.body == ErrorBody(ErrorMessage(route.verb, route.path), ErrorDetails(upstream.errorData, upstream.message), status)
      && res.headers == [JsonContentType]
  {
    config := BuildConfig(route, apiBase, params, req);
    if upstream.Response? {
      res := new NextResponse.Json(Data(Processed(route, upstream.data)), 200);
      var cookies := if upstream.setCookie.Some? then upstream.setCookie.value else [];
      for i := 0 to |cookies|
        invariant res.headers == [JsonContentType] + CookieHeaderList(cookies[..i])
        invariant res.status == 200 && res.body == Data(Processed(route, upstream.data))
      {
        res.Append("Set-Cookie", cookies[i]);
        assert CookieHeaderList(cookies[..i + 1]) == CookieHeaderList(cookies[..i]) + [Header("Set-Cookie", cookies[i])];
      }
      assert cookies[..|cookies|] == cookies;
      RelayedCookies(cookies);
    } else {
      var code := ErrorStatus(upstream.status);
      res := new NextResponse.Json(ErrorBody(ErrorMessage(route.verb, route.path), ErrorDetails(upstream.errorData, upstream.message), code), code);
    }
  }
}
