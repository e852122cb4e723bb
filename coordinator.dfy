/** The refresh coordinator as a state machine on values: the shared flag and queue,
    the leader waiting on the refresh call, and a log of every observable effect.
    Each event of the interceptor is a function from the old state to the new one. */
module Coordinator {
  import opened Http
  import opened Interceptor

  /** Identifies the caller whose request failed. */
  type CallerId = nat

  /** A caller waiting for a refresh, with the configuration of its failed request. */
  datatype Waiter = Waiter(caller: CallerId, request: Request)

  /** How a caller's promise is settled. */
  datatype Settlement =
    | Resolved(config: Request)   // resolved with a request configuration, not re-sent
    | Replayed(config: Request)   // resolved by re-sending this configuration
    | Rejected(reason: Failure)

  datatype Settled = Settled(caller: CallerId, how: Settlement)

  datatype State = State(
    isRefreshing: bool,                  // the module-level flag
    failedQueue: seq<Waiter>,            // the module-level queue
    leader: Option<Waiter>,              // the caller whose promise waits on the refresh call
    defaultAuthorization: Option<string>, // the client's default Authorization header
    refreshCalls: seq<string>,           // tokens sent to the refresh endpoint
    savedTokens: seq<string>,            // tokens written to the token store
    tokenUpdates: seq<string>,           // arguments of the refreshTokenUpdated callback
    signOuts: nat,                       // calls of the signOut callback
    settled: seq<Settled>)               // settlements, in order

  const Initial: State := State(false, [], None, None, [], [], [], 0, [])

  /** The flag is set exactly while a leader waits, and the queue is empty when idle. */
  ghost predicate Inv(s: State)
  {
    (s.isRefreshing <==> s.leader.Some?) && (!s.isRefreshing ==> s.failedQueue == [])
  }

  /** A template literal of the token: a missing token prints as "null". */
  function TokenText(token: Option<string>): string
  {
    match token
    case Some(t) => t
    case None => "null"
  }

  /** One queued caller settled by processQueue: rejected when there is an error,
      otherwise resolved with the token, after which it re-sends its request with it. */
  function Settle(w: Waiter, error: Option<Failure>, token: Option<string>): (r: Settled)
    ensures r.caller == w.caller
    ensures error.Some? ==> r.how.Rejected? && r.how.reason == error.value
    ensures error.None? ==> r.how.Replayed? && r.how.config.url == w.request.url &&
                            AuthorizationHeader in r.how.config.headers &&
                            r.how.config.headers[AuthorizationHeader] == Bearer(TokenText(token))
  {
    match error
    case Some(err) => Settled(w.caller, Rejected(err))
    case None => Settled(w.caller, Replayed(Stamp(w.request, TokenText(token))))
  }

  /** The settlements processQueue makes for a queue, front to back. */
  function Drain(q: seq<Waiter>, error: Option<Failure>, token: Option<string>): (r: seq<Settled>)
    ensures |r| == |q|
    decreases |q|
  {
    if q == [] then [] else [Settle(q[0], error, token)] + Drain(q[1..], error, token)
  }

  /** Every queued caller is settled once, in queue order, all with the same outcome. */
  lemma {:induction false} DrainSettlesInOrder(q: seq<Waiter>, error: Option<Failure>, token: Option<string>)
    ensures |Drain(q, error, token)| == |q|
    ensures forall i :: 0 <= i < |q| ==> Drain(q, error, token)[i] == Settle(q[i], error, token)
    ensures forall i :: 0 <= i < |q| ==> Drain(q, error, token)[i].caller == q[i].caller
    ensures error.Some? ==> forall i :: 0 <= i < |q| ==> Drain(q, error, token)[i].how == Rejected(error.value)
    ensures error.None? ==>
      forall i :: 0 <= i < |q| ==> Drain(q, error, token)[i].how == Replayed(Stamp(q[i].request, TokenText(token)))
    decreases |q|
  {
    if q != [] {
      DrainSettlesInOrder(q[1..], error, token);
      assert forall i :: 1 <= i < |q| ==> Drain(q, error, token)[i] == Drain(q[1..], error, token)[i - 1];
    }
  }

  lemma {:induction false} DrainAppend(a: seq<Waiter>, b: seq<Waiter>, error: Option<Failure>, token: Option<string>)
    ensures Drain(a + b, error, token) == Drain(a, error, token) + Drain(b, error, token)
    decreases |a|
  {
    if a == [] {
      assert a + b == b;
    } else {
      assert (a + b)[1..] == a[1..] + b;
      DrainAppend(a[1..], b, error, token);
    }
  }

  /** processQueue: settle every waiter, then empty the queue. */
  function ProcessQueue(s: State, error: Option<Failure>, token: Option<string>): (r: State)
    ensures r.failedQueue == []
    // one new settlement per queued caller, in queue order, after the earlier ones
    ensures |r.settled| == |s.settled| + |s.failedQueue| && r.settled[..|s.settled|] == s.settled
    ensures forall i :: 0 <= i < |s.failedQueue| ==> r.settled[|s.settled| + i] == Settle(s.failedQueue[i], error, token)
    // nothing but the queue and the settlements changes
    ensures r.(failedQueue := s.failedQueue, settled := s.settled) == s
  {
    DrainSettlesInOrder(s.failedQueue, error, token);
    var r := s.(failedQueue := [], settled := s.settled + Drain(s.failedQueue, error, token));
    assert forall i :: 0 <= i < |s.failedQueue| ==> r.settled[|s.settled| + i] == Drain(s.failedQueue, error, token)[i];
    r
  }

  /** The interceptor's reaction to one failing request, given the token the store returned. */
  function OnResponseError(s: State, caller: CallerId, e: ResponseError, stored: Option<string>): (r: State)
    // only an auth failure with a stored token reaches the flag, the queue and the refresh endpoint
    ensures !(IsAuthFailure(e) && HasToken(stored)) ==>
      r.isRefreshing == s.isRefreshing && r.failedQueue == s.failedQueue &&
      r.leader == s.leader && r.refreshCalls == s.refreshCalls
    // such a caller is settled at once: with the original error when no token is stored,
    // otherwise with the mapped rejection; every 401 among them signs out
    ensures !(IsAuthFailure(e) && HasToken(stored)) ==>
      r.settled == s.settled + [Settled(caller, Rejected(if IsAuthFailure(e) then Raw(e) else Rejection(e)))] &&
      r.signOuts == s.signOuts + (if IsUnauthorized(e) then 1 else 0)
    // a caller arriving while a refresh is in flight waits at the end of the queue
    ensures IsAuthFailure(e) && HasToken(stored) && s.isRefreshing ==>
      r.isRefreshing && r.failedQueue == s.failedQueue + [Waiter(caller, e.config)] &&
      r.leader == s.leader && r.refreshCalls == s.refreshCalls &&
      r.settled == s.settled && r.signOuts == s.signOuts
    // a caller finding no refresh in flight becomes the leader and calls the endpoint with the stored token
    ensures IsAuthFailure(e) && HasToken(stored) && !s.isRefreshing ==>
      r.isRefreshing && r.leader == Some(Waiter(caller, e.config)) &&
      r.refreshCalls == s.refreshCalls + [stored.value] && r.failedQueue == s.failedQueue &&
      r.settled == s.settled && r.signOuts == s.signOuts
    // the store, the default header and the update callback are not touched
    ensures r.savedTokens == s.savedTokens && r.tokenUpdates == s.tokenUpdates &&
            r.defaultAuthorization == s.defaultAuthorization
  {
    match Classify(e, stored)
    case Refresh(token) =>
      if s.isRefreshing then
        s.(failedQueue := s.failedQueue + [Waiter(caller, e.config)])
      else
        s.(isRefreshing := true, leader := Some(Waiter(caller, e.config)), refreshCalls := s.refreshCalls + [token])
    case SignOutAndReject =>
      s.(signOuts := s.signOuts + 1, settled := s.settled + [Settled(caller, Rejected(Raw(e)))])
    case Reject(signOut, reason) =>
      s.(signOuts := s.signOuts + (if signOut then 1 else 0), settled := s.settled + [Settled(caller, Rejected(reason))])
  }

  /** The interceptor's run for an auth failure when reading the token store rejects: nothing
      catches the rejection, so the caller is rejected with the storage error, with no sign-out,
      and the flag, the queue, the leader and the refresh endpoint are not touched. */
  function OnStoreReadFailure(s: State, caller: CallerId): (r: State)
    ensures r.settled == s.settled + [Settled(caller, Rejected(StorageFailure))]
    ensures r.signOuts == s.signOuts && r.refreshCalls == s.refreshCalls
    ensures r.(settled := s.settled) == s
  {
    s.(settled := s.settled + [Settled(caller, Rejected(StorageFailure))])
  }

  /** The refresh call returned `token` and the store saved it. */
  function RefreshSucceeded(s: State, token: string): (r: State)
    ensures s.leader.None? ==> r == s
    ensures s.leader.Some? ==>
      r.savedTokens == s.savedTokens + [token] &&
      r.defaultAuthorization == Some(Bearer(token)) &&
      r.tokenUpdates == s.tokenUpdates + [token] &&
      r.refreshCalls == s.refreshCalls && r.signOuts == s.signOuts &&
      !r.isRefreshing && r.leader.None? && r.failedQueue == []
    // every waiter, in queue order, re-sends its request with the new token; the leader comes last
    // and is resolved with its own re-stamped configuration
    ensures s.leader.Some? ==>
      r.settled == s.settled + Drain(s.failedQueue, None, Some(token)) +
                   [Settled(s.leader.value.caller, Resolved(Stamp(s.leader.value.request, token)))]
  {
    match s.leader
    case None => s
    case Some(l) =>
      var saved := s.(savedTokens := s.savedTokens + [token],
                      defaultAuthorization := Some(Bearer(token)),
                      tokenUpdates := s.tokenUpdates + [token]);
      var drained := ProcessQueue(saved, None, Some(token));
      drained.(settled := drained.settled + [Settled(l.caller, Resolved(Stamp(l.request, token)))],
               isRefreshing := false, leader := None)
  }

  /** The intended success step: the leader, like every waiter, re-sends its request with the
      new token instead of being resolved with its configuration. Everything else is as in
      `RefreshSucceeded`. */
  function RefreshSucceededReplayingLeader(s: State, token: string): (r: State)
    ensures s.leader.None? ==> r == s
    ensures s.leader.Some? ==>
      r.savedTokens == s.savedTokens + [token] &&
      r.defaultAuthorization == Some(Bearer(token)) &&
      r.tokenUpdates == s.tokenUpdates + [token] &&
      r.refreshCalls == s.refreshCalls && r.signOuts == s.signOuts &&
      !r.isRefreshing && r.leader.None? && r.failedQueue == []
    ensures s.leader.Some? ==>
      r.settled == s.settled + Drain(s.failedQueue, None, Some(token)) +
                   [Settled(s.leader.value.caller, Replayed(Stamp(s.leader.value.request, token)))]
  {
    match s.leader
    case None => s
    case Some(l) =>
      var written := RefreshSucceeded(s, token);
      written.(settled := s.settled + Drain(s.failedQueue, None, Some(token)) +
                          [Settled(l.caller, Replayed(Stamp(l.request, token)))])
  }

  /** The leader's catch block runs with `err`: the refresh call failed (after its own pass
      through the interceptor), or saving the new token failed. */
  function RefreshFailed(s: State, err: Failure): (r: State)
    ensures s.leader.None? ==> r == s
    // one sign-out for the whole cycle, whatever the number of waiters
    ensures s.leader.Some? ==>
      r.signOuts == s.signOuts + 1 &&
      r.savedTokens == s.savedTokens && r.tokenUpdates == s.tokenUpdates &&
      r.defaultAuthorization == s.defaultAuthorization && r.refreshCalls == s.refreshCalls &&
      !r.isRefreshing && r.leader.None? && r.failedQueue == []
    // every waiter, in queue order, and then the leader is rejected with the same error
    ensures s.leader.Some? ==>
      r.settled == s.settled + Drain(s.failedQueue, Some(err), None) + [Settled(s.leader.value.caller, Rejected(err))]
  {
    match s.leader
    case None => s
    case Some(l) =>
      var drained := ProcessQueue(s, Some(err), None);
      drained.(signOuts := drained.signOuts + 1,
               settled := drained.settled + [Settled(l.caller, Rejected(err))],
               isRefreshing := false, leader := None)
  }
}
