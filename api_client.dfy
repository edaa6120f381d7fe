/**
 * The browser-side axios instance (src/lib/api.ts) and its response
 * interceptor: a 401 answer triggers `POST /auth/refresh` and, if that
 * succeeds, a retry of the original request; if the refresh fails, the
 * browser is sent to `/login` and the original error is rejected.
 *
 * The network is an input: `net` lists, in order, the answers the backend
 * gives to the HTTP exchanges the client makes. Each exchange consumes one
 * answer; when the list runs out the call never settles.
 */
module ApiClient {

  datatype Request = Request(verb: string, path: string)

  /** The backend's answer to one exchange: a status, or no response at all (network error). */
  datatype Outcome = Answer(status: int) | NoResponse

  datatype Reply = Resolved(status: int) | Rejected(outcome: Outcome) | Unsettled

  /**
   * The result of one call: how its promise settles, every request sent in
   * order (refreshes and retries included), whether `window.location.href` was
   * set to `/login`, and the unused network answers.
   */
  datatype Run = Run(reply: Reply, sent: seq<Request>, toLogin: bool, rest: seq<Outcome>)

  const RefreshRequest := Request("POST", "/auth/refresh")

  /** axios resolves exactly the 2xx statuses. */
  predicate Succeeded(o: Outcome) {
    o.Answer? && 200 <= o.status < 300
  }

  /** The answer is a 401: the session has expired. */
  predicate Unauthorized(o: Outcome) {
    o == Answer(401)
  }

  /** A request through the instance, interceptor included; refreshes and retries go through it too. */
  function Send(req: Request, net: seq<Outcome>): (r: Run)
    // Each call consumes at least one answer when there is one (see SendAccounting).
    ensures |r.rest| <= |net|
    ensures net != [] ==> |r.rest| < |net|
    // Only a 2xx answer resolves; a rejection carries a non-2xx outcome.
    ensures r.reply.Resolved? ==> Succeeded(Answer(r.reply.status))
    ensures r.reply.Rejected? ==> !Succeeded(r.reply.outcome)
    ensures r.reply.Unsettled? ==> r.rest == []
    decreases |net|
  {
    if net == [] then Run(Unsettled, [], false, [])
    else
      var first := net[0];
      if Succeeded(first) then Run(Resolved(first.status), [req], false, net[1..])
      else if !Unauthorized(first) then Run(Rejected(first), [req], false, net[1..])
      else
        var refresh := Send(RefreshRequest, net[1..]);
        match refresh.reply
        case Resolved(_) =>
          var retry := Send(req, refresh.rest);
          Run(retry.reply, [req] + refresh.sent + retry.sent, refresh.toLogin || retry.toLogin, retry.rest)
        case Unsettled =>
          Run(Unsettled, [req] + refresh.sent, refresh.toLogin, refresh.rest)
        case Rejected(_) =>
          Run(Rejected(first), [req] + refresh.sent, true, refresh.rest)
  }

  /**
   * Every request sent consumes exactly one answer, from the front of `net`,
   * and the first request sent is the call's own.
   */
  lemma {:induction false} SendAccounting(req: Request, net: seq<Outcome>)
    ensures var r := Send(req, net);
      r.rest == net[|net| - |r.rest|..] && |r.sent| == |net| - |r.rest| && (net != [] ==> r.sent[0] == req)
    decreases |net|
  {
    if net != [] && !Succeeded(net[0]) && Unauthorized(net[0]) {
      var refresh := Send(RefreshRequest, net[1..]);
      SendAccounting(RefreshRequest, net[1..]);
      if refresh.reply.Resolved? {
        SendAccounting(req, refresh.rest);
      }
    }
  }

  /** A 2xx answer passes through the interceptor untouched. */
  lemma SuccessPassesThrough(req: Request, status: int, more: seq<Outcome>)
    requires 200 <= status < 300
    ensures Send(req, [Answer(status)] + more) == Run(Resolved(status), [req], false, more)
  {
    assert ([Answer(status)] + more)[1..] == more;
  }

  /** Any other failure except 401 is rejected at once, without a refresh. */
  lemma OtherFailureRejected(req: Request, o: Outcome, more: seq<Outcome>)
    requires !Succeeded(o) && !Unauthorized(o)
    ensures Send(req, [o] + more) == Run(Rejected(o), [req], false, more)
  {
    assert ([o] + more)[1..] == more;
  }

  /**
   * 401, then a successful refresh: the original request is sent again through
   * the interceptor, and whatever that retry produces (reply, further requests,
   * navigation) is the caller's result.
   */
  lemma {:induction false} RefreshThenRetry(req: Request, o: Outcome, more: seq<Outcome>)
    requires Succeeded(o)
    ensures var r := Send(req, more);
      Send(req, [Answer(401), o] + more) == Run(r.reply, [req, RefreshRequest] + r.sent, r.toLogin, r.rest)
  {
    var net := [Answer(401), o] + more;
    assert net[1..] == [o] + more;
    SuccessPassesThrough(RefreshRequest, o.status, more);
  }

  /**
   * A retry after a successful refresh that fails with anything but 401 rejects
   * the caller with the retry's own error, and the browser stays where it is.
   */
  lemma {:induction false} RetryFailureRejected(req: Request, o: Outcome, bad: Outcome, more: seq<Outcome>)
    requires Succeeded(o) && !Succeeded(bad) && !Unauthorized(bad)
    ensures Send(req, [Answer(401), o, bad] + more) == Run(Rejected(bad), [req, RefreshRequest, req], false, more)
  {
    assert [Answer(401), o, bad] + more == [Answer(401), o] + ([bad] + more);
    RefreshThenRetry(req, o, [bad] + more);
    OtherFailureRejected(req, bad, more);
  }

  /** 401, then a failed refresh: the browser goes to `/login` and the original 401 is rejected. */
  lemma {:induction false} RefreshFailureGoesToLogin(req: Request, o: Outcome, more: seq<Outcome>)
    requires !Succeeded(o) && !Unauthorized(o)
    ensures Send(req, [Answer(401), o] + more) == Run(Rejected(Answer(401)), [req, RefreshRequest], true, more)
  {
    var net := [Answer(401), o] + more;
    assert net[1..] == [o] + more;
    OtherFailureRejected(RefreshRequest, o, more);
  }

  /**
   * There is no retry limit: a request that keeps getting 401 after successful
   * refreshes is refreshed and retried again each time.
   */
  lemma {:induction false} RetriesAreUnbounded(req: Request, status: int)
    requires 200 <= status < 300
    ensures Send(req, [Answer(401), Answer(200), Answer(401), Answer(200), Answer(status)])
         == Run(Resolved(status), [req, RefreshRequest, req, RefreshRequest, req], false, [])
  {
    var inner := [Answer(401), Answer(200), Answer(status)];
    assert [Answer(401), Answer(200), Answer(401), Answer(200), Answer(status)] == [Answer(401), Answer(200)] + inner;
    RefreshThenRetry(req, Answer(200), inner);
    assert inner == [Answer(401), Answer(200)] + [Answer(status)];
    RefreshThenRetry(req, Answer(200), [Answer(status)]);
    assert [Answer(status)] == [Answer(status)] + [];
    SuccessPassesThrough(req, status, []);
  }

  /** The four exported helpers of src/lib/api.ts. */
  datatype Helper = Login | Refresh | Logout | VerifyToken

  function HelperRequest(h: Helper): (r: Request)
    ensures r.verb == (if h == VerifyToken then "GET" else "POST")
    ensures h == Refresh <==> r == RefreshRequest
  {
    match h
    case Login => Request("POST", "/auth/login")
    case Refresh => RefreshRequest
    case Logout => Request("POST", "/auth/logout")
    case VerifyToken => Request("GET", "/auth/verify")
  }

  /** The browser's location, the one thing the interceptor changes. */
  class BrowserLocation {
    var href: string

    constructor (href: string)
      ensures this.href == href
    {
      this.href := href;
    }

    /** Runs one call; a failed refresh during it sets `href` to `/login`. */
    method Dispatch(req: Request, net: seq<Outcome>) returns (reply: Reply)
      modifies this
      ensures reply == Send(req, net).reply
      ensures href == if Send(req, net).toLogin then "/login" else old(href)
    {
      var run := Send(req, net);
      reply := run.reply;
      if run.toLogin {
        href := "/login";
      }
    }
  }
}
