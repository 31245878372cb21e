/**
 * The `api` instance of `src/utils/api.js`: the same bearer-token request
 * step as the shared instance, and a response step that logs the session
 * out on 401 without notifying. `Send` is one `api.<verb>(...)` call going
 * through both steps; `Dispatch` is its effect as a function of the state.
 */
module ApiClient {
  import opened Js
  import opened Http
  import opened Config
  import opened Browser

  /** The instance's default headers. */
  const DefaultHeaders: map<string, string> := map["Content-Type" := "application/json"]

  /** Request step: sets `Authorization` from the stored token, in place. */
  method RequestInterceptor(b: Browser, config: RequestConfig) returns (out: RequestConfig)
    modifies config
    ensures out == config && config.call == old(config.call)
    ensures config.headers == AuthorizedHeaders(old(config.headers), b.storage)
  {
    if HasToken(b.storage) {
      config.headers := config.headers["Authorization" := "Bearer " + b.storage[TokenKey]];
    }
    out := config;
  }

  /** Fulfilled responses pass through untouched. */
  method ResponseFulfilled(response: Value) returns (r: Value)
    ensures r == response
  {
    r := response;
  }

  /** Rejection step: on 401 removes the token and redirects; no notification; rejects unchanged. */
  method ResponseRejected(b: Browser, error: HttpError) returns (rejected: HttpError)
    modifies b`storage, b`location
    ensures rejected == error
    ensures b.storage == if Is401(error) then old(b.storage) - {TokenKey} else old(b.storage)
    ensures b.location == if Is401(error) then LoginPath else old(b.location)
  {
    if Is401(error) {
      b.storage := b.storage - {TokenKey};
      b.location := LoginPath;
    }
    rejected := error;
  }

  /** The request that leaves the client for `call` when `storage` is the stored state. */
  function Outgoing(call: Call, storage: map<string, string>): Request {
    Request(call, AuthorizedHeaders(DefaultHeaders, storage))
  }

  /** The effect of one exchange through both steps. */
  function Dispatch(n: NetState, x: Exchange): NetState {
    var sent := n.requests + [Outgoing(x.call, n.storage)];
    if x.reply.Failed? && Is401(x.reply.error)
    then NetState(n.storage - {TokenKey}, LoginPath, sent)
    else NetState(n.storage, n.location, sent)
  }

  /** The effect of a sequence of exchanges, one after the other. */
  function Run(n: NetState, xs: seq<Exchange>): (r: NetState)
    ensures |r.requests| == |n.requests| + |xs| && r.requests[..|n.requests|] == n.requests
    decreases |xs|
  {
    if xs == [] then n else Run(Dispatch(n, xs[0]), xs[1..])
  }

  /** One `api` call: the request step, the request itself, then the response step. */
  method Send(b: Browser, x: Exchange) returns (result: Reply)
    modifies b`storage, b`location, b`requests
    ensures b.Net() == Dispatch(old(b.Net()), x)
    ensures result == x.reply
  {
    var config := new RequestConfig(x.call, DefaultHeaders);
    config := RequestInterceptor(b, config);
    b.requests := b.requests + [Request(config.call, config.headers)];
    match x.reply
    case Ok(data) =>
      var d := ResponseFulfilled(data);
      result := Ok(d);
    case Failed(error) =>
      var e := ResponseRejected(b, error);
      result := Failed(e);
  }

  /** An exchange appends exactly its request, which carries the bearer header iff a token was stored. */
  lemma DispatchSendsOne(n: NetState, x: Exchange)
    ensures |Dispatch(n, x).requests| == |n.requests| + 1
    ensures Dispatch(n, x).requests[..|n.requests|] == n.requests
    ensures Dispatch(n, x).requests[|n.requests|].call == x.call
    ensures var h := Dispatch(n, x).requests[|n.requests|].headers;
      ("Authorization" in h <==> HasToken(n.storage))
      && (HasToken(n.storage) ==> h["Authorization"] == "Bearer " + n.storage[TokenKey])
      && "Content-Type" in h && h["Content-Type"] == "application/json"
  {
  }

  /** On 401 the token is gone and the location is the login page; otherwise neither changes. */
  lemma DispatchSession(n: NetState, x: Exchange)
    ensures x.reply.Failed? && Is401(x.reply.error) ==>
      !HasToken(Dispatch(n, x).storage) && Dispatch(n, x).location == LoginPath
      && Dispatch(n, x).storage == n.storage - {TokenKey}
    ensures !(x.reply.Failed? && Is401(x.reply.error)) ==>
      Dispatch(n, x).storage == n.storage && Dispatch(n, x).location == n.location
  {
  }

  /** The client never stores a token: running exchanges only ever keeps or removes it. */
  lemma {:induction false} RunNeverStoresToken(n: NetState, xs: seq<Exchange>)
    requires !HasToken(n.storage)
    ensures !HasToken(Run(n, xs).storage)
    decreases |xs|
  {
    if xs != [] {
      RunNeverStoresToken(Dispatch(n, xs[0]), xs[1..]);
    }
  }

  /** A run extended by one exchange is that exchange dispatched after the run. */
  lemma {:induction false} RunSnoc(n: NetState, xs: seq<Exchange>, x: Exchange)
    ensures Run(n, xs + [x]) == Dispatch(Run(n, xs), x)
    decreases |xs|
  {
    if xs == [] {
      assert xs + [x] == [x];
    } else {
      assert (xs + [x])[1..] == xs[1..] + [x];
      RunSnoc(Dispatch(n, xs[0]), xs[1..], x);
    }
  }

  /** The requests a run of exchanges sends, in order. */
  function RunRequests(n: NetState, xs: seq<Exchange>): seq<Request>
    decreases |xs|
  {
    if xs == [] then [] else [Outgoing(xs[0].call, n.storage)] + RunRequests(Dispatch(n, xs[0]), xs[1..])
  }

  /** A run appends exactly its own requests to the log, one per exchange, in order. */
  lemma {:induction false} RunAppends(n: NetState, xs: seq<Exchange>)
    ensures Run(n, xs).requests == n.requests + RunRequests(n, xs)
    ensures |RunRequests(n, xs)| == |xs|
    ensures forall k :: 0 <= k < |xs| ==> RunRequests(n, xs)[k].call == xs[k].call
    decreases |xs|
  {
    if xs != [] {
      var m := Dispatch(n, xs[0]);
      RunAppends(m, xs[1..]);
      var tail := RunRequests(m, xs[1..]);
      assert RunRequests(n, xs) == [Outgoing(xs[0].call, n.storage)] + tail;
      forall k | 0 < k < |xs|
        ensures RunRequests(n, xs)[k].call == xs[k].call
      {
        assert RunRequests(n, xs)[k] == tail[k - 1];
        assert xs[1..][k - 1] == xs[k];
      }
    }
  }

  /** Without a stored token, no request of a run carries `Authorization`. */
  lemma {:induction false} NoBearerWithoutToken(n: NetState, xs: seq<Exchange>)
    requires !HasToken(n.storage)
    ensures forall r :: r in RunRequests(n, xs) ==> "Authorization" !in r.headers
    decreases |xs|
  {
    if xs != [] {
      NoBearerWithoutToken(Dispatch(n, xs[0]), xs[1..]);
    }
  }

  /**
   * Once some exchange is answered 401, every later request of the run goes
   * out without an `Authorization` header.
   */
  lemma {:induction false} NoBearerAfter401(n: NetState, xs: seq<Exchange>, i: nat)
    requires i < |xs| && xs[i].reply.Failed? && Is401(xs[i].reply.error)
    ensures |RunRequests(n, xs)| == |xs|
    ensures forall k :: i < k < |xs| ==> "Authorization" !in RunRequests(n, xs)[k].headers
    decreases |xs|
  {
    RunAppends(n, xs);
    var m := Dispatch(n, xs[0]);
    var tail := RunRequests(m, xs[1..]);
    RunAppends(m, xs[1..]);
    assert RunRequests(n, xs) == [Outgoing(xs[0].call, n.storage)] + tail;
    if i == 0 {
      NoBearerWithoutToken(m, xs[1..]);
      forall k | 0 < k < |xs|
        ensures "Authorization" !in RunRequests(n, xs)[k].headers
      {
        assert RunRequests(n, xs)[k] == tail[k - 1];
        assert tail[k - 1] in tail;
      }
    } else {
      NoBearerAfter401(m, xs[1..], i - 1);
      forall k | i < k < |xs|
        ensures "Authorization" !in RunRequests(n, xs)[k].headers
      {
        assert RunRequests(n, xs)[k] == tail[k - 1];
      }
    }
  }
}
