/**
 * The HTTP client hook every view uses: default headers carrying the
 * application token, a response interceptor that turns 401 and 403 answers
 * into a session expiry dispatched once per client instance, and the cache
 * key of GET queries. Each call of the hook builds a fresh client and flag.
 */
module ApiClient {
  import opened Common

  /** The default headers: the token as a bearer credential and as the API key, and JSON both ways. */
  function DefaultHeaders(token: string): seq<(string, string)> {
    [("Authorization", "Bearer " + token), ("X-API-KEY", token), ("Content-Type", "application/json"), ("accept", "application/json")]
  }

  /** The value of the first header with this name, if any. */
  function Header(headers: seq<(string, string)>, name: string): (r: Option<string>)
    ensures r.Some? ==> (name, r.value) in headers
    ensures r.None? ==> forall v :: (name, v) !in headers
  {
    if headers == [] then None
    else if headers[0].0 == name then Some(headers[0].1)
    else Header(headers[1..], name)
  }

  /**
   * Every request names the token twice: the Authorization header is
   * "Bearer " followed by exactly the X-API-KEY value, and that value is
   * the token.
   */
  lemma HeadersCarryToken(token: string)
    ensures var h := DefaultHeaders(token);
      && Header(h, "X-API-KEY") == Some(token)
      && Header(h, "Authorization").Some?
      && var auth := Header(h, "Authorization").value;
      && |auth| == 7 + |token| && auth[..7] == "Bearer " && auth[7..] == token
      && Header(h, "accept") == Some("application/json")
  {
    var h := DefaultHeaders(token);
    assert h[1..][1..][1..][0] == ("accept", "application/json");
  }

  /** The error axios hands the interceptor: the server's status when a response arrived. */
  datatype HttpError = HttpError(responseStatus: Option<int>, message: string)

  /** What a request gave before the interceptor. */
  datatype Received<T> = Answered(data: T) | Errored(error: HttpError)

  /** What the caller's promise settles to. */
  datatype Settled<T> = Resolved(data: T) | Rejected(reason: Rejection)
  datatype Rejection = NewError(message: string) | Passed(error: HttpError)

  /** A response with status 401 or 403. */
  predicate AuthFailure(e: HttpError) {
    e.responseStatus.Some? && (e.responseStatus.value == 401 || e.responseStatus.value == 403)
  }

  /** The promise the caller sees for one request. */
  function Settle<T>(r: Received<T>): (s: Settled<T>)
    ensures r.Answered? ==> s == Resolved(r.data)
    ensures r.Errored? && AuthFailure(r.error) ==> s == Rejected(NewError("Session Expired"))
    ensures r.Errored? && !AuthFailure(r.error) ==> s == Rejected(Passed(r.error))
  {
    match r
    case Answered(data) => Resolved(data)
    case Errored(e) => if AuthFailure(e) then Rejected(NewError("Session Expired")) else Rejected(Passed(e))
  }

  /** The `setToken` payloads dispatched while these results pass the interceptor, given whether the session had already expired. */
  function Dispatches<T>(expired: bool, rs: seq<Received<T>>): seq<string>
    decreases |rs|
  {
    if rs == [] then []
    else if rs[0].Errored? && AuthFailure(rs[0].error) then
      (if expired then [] else [""]) + Dispatches(true, rs[1..])
    else Dispatches(expired, rs[1..])
  }

  predicate AnyAuthFailure<T>(rs: seq<Received<T>>) {
    exists i :: 0 <= i < |rs| && rs[i].Errored? && AuthFailure(rs[i].error)
  }

  /**
   * Whatever comes back, the token is cleared at most once per client: once
   * if the session was not yet expired and some answer is a 401 or 403,
   * never otherwise, and what is dispatched is always the empty token.
   */
  lemma {:induction false} DispatchedAtMostOnce<T>(expired: bool, rs: seq<Received<T>>)
    ensures |Dispatches(expired, rs)| <= 1
    ensures |Dispatches(expired, rs)| == 1 <==> !expired && AnyAuthFailure(rs)
    ensures forall t :: t in Dispatches(expired, rs) ==> t == ""
    decreases |rs|
  {
    if rs != [] {
      var tail := rs[1..];
      if rs[0].Errored? && AuthFailure(rs[0].error) {
        DispatchedAtMostOnce(true, tail);
        assert Dispatches(true, tail) == [] by {
          assert |Dispatches(true, tail)| != 1;
        }
      } else {
        DispatchedAtMostOnce(expired, tail);
        assert AnyAuthFailure(rs) <==> AnyAuthFailure(tail) by {
          if AnyAuthFailure(rs) {
            var i :| 0 <= i < |rs| && rs[i].Errored? && AuthFailure(rs[i].error);
            assert tail[i - 1] == rs[i];
          }
          if AnyAuthFailure(tail) {
            var i :| 0 <= i < |tail| && tail[i].Errored? && AuthFailure(tail[i].error);
            assert rs[i + 1] == tail[i];
          }
        }
      }
    }
  }

  /** The cache key of a GET query: `[key ?? url]`; only a missing key falls back, an empty one does not. */
  function QueryKey(url: string, key: Option<string>): (r: seq<string>)
    ensures |r| == 1
    ensures key.Some? ==> r[0] == key.value
    ensures key.None? ==> r[0] == url
  {
    [key.GetOr(url)]
  }

  /** The client instance and the one-shot expiry flag it closes over. */
  class Client {
    var isSessionExpired: bool
    /** The `setToken` actions dispatched to the store, oldest first. */
    var dispatched: seq<string>

    constructor ()
      ensures !isSessionExpired && dispatched == []
    {
      isSessionExpired := false;
      dispatched := [];
    }

    /**
     * One result passes the interceptor. Successes pass through, 401 and
     * 403 become "Session Expired" and clear the token on the first one
     * only, and every other error is rejected unchanged.
     */
    method Intercept<T>(r: Received<T>) returns (s: Settled<T>)
      modifies this
      ensures s == Settle(r)
      ensures isSessionExpired == (old(isSessionExpired) || (r.Errored? && AuthFailure(r.error)))
      ensures dispatched == old(dispatched) + Dispatches(old(isSessionExpired), [r])
    {
      match r
      case Answered(data) =>
        s := Resolved(data);
      case Errored(e) =>
        if AuthFailure(e) {
          if !isSessionExpired {
            isSessionExpired := true;
            dispatched := dispatched + [""];
          }
          s := Rejected(NewError("Session Expired"));
        } else {
          s := Rejected(Passed(e));
        }
    }
  }

  /** Passing results one by one through a client dispatches what `Dispatches` says for all of them. */
  lemma {:induction false} DispatchesSplit<T>(expired: bool, r: Received<T>, rest: seq<Received<T>>)
    ensures Dispatches(expired, [r] + rest) ==
      Dispatches(expired, [r]) + Dispatches(expired || (r.Errored? && AuthFailure(r.error)), rest)
  {
    assert ([r] + rest)[1..] == rest;
    assert [r][1..] == [];
  }
}
