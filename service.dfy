/** The client module as it runs: the shared flag and queue, the client's default
    header and response handlers, and the effects of the callbacks, held in one object
    whose methods are the interceptor's steps. Each method is proved against the
    matching function of `Coordinator`. */
module Service {
  import opened Http
  import opened Interceptor
  import opened Coordinator

  /** What registering the interceptor returns: calling it ejects handler `id`. */
  datatype Handle = Handle(id: nat)

  class Api {
    var isRefreshing: bool
    var failedQueue: seq<Waiter>
    var leader: Option<Waiter>
    var defaultAuthorization: Option<string>
    var responseHandlers: seq<bool>
    // effects observed outside the module
    var refreshCalls: seq<string>
    var savedTokens: seq<string>
    var tokenUpdates: seq<string>
    var signOuts: nat
    var settled: seq<Settled>

    ghost function Snapshot(): State
      reads this
    {
      State(isRefreshing, failedQueue, leader, defaultAuthorization,
            refreshCalls, savedTokens, tokenUpdates, signOuts, settled)
    }

    ghost predicate Valid()
      reads this
    {
      Inv(Snapshot())
    }

    constructor ()
      ensures Valid() && Snapshot() == Initial && responseHandlers == []
    {
      isRefreshing, failedQueue, leader, defaultAuthorization := false, [], None, None;
      responseHandlers := [];
      refreshCalls, savedTokens, tokenUpdates, signOuts, settled := [], [], [], 0, [];
    }

    /** Settles every queued caller, front to back, then empties the queue. */
    method ProcessQueue(error: Option<Failure>, token: Option<string>)
      modifies this
      ensures failedQueue == []
      ensures settled == old(settled) + Drain(old(failedQueue), error, token)
      ensures Snapshot() == Coordinator.ProcessQueue(old(Snapshot()), error, token)
      ensures responseHandlers == old(responseHandlers)
    {
      var q := failedQueue;
      var done := settled;
      var i := 0;
      while i < |q|
        invariant i <= |q|
        invariant unchanged(this)
        invariant done == settled + Drain(q[..i], error, token)
      {
        var request := q[i];
        if error.Some? {
          done := done + [Settled(request.caller, Rejected(error.value))];
        } else {
          done := done + [Settled(request.caller, Replayed(Stamp(request.request, TokenText(token))))];
        }
        assert q[..i + 1] == q[..i] + [q[i]];
        DrainAppend(q[..i], [q[i]], error, token);
        i := i + 1;
      }
      assert q[..i] == q;
      settled := done;
      failedQueue := [];
    }

    /** The interceptor's body for one failing request; `storedToken` is what reading the
        token store returned. */
    method OnResponseError(caller: CallerId, e: ResponseError, storedToken: Option<string>)
      requires Valid()
      modifies this
      ensures Valid()
      ensures Snapshot() == Coordinator.OnResponseError(old(Snapshot()), caller, e, storedToken)
      ensures responseHandlers == old(responseHandlers)
    {
      if e.response.Some? && e.response.value.status == 401 {
        var message := MessageOf(e);
        if message == Some(TokenExpired) || message == Some(TokenInvalid) {
          if !HasToken(storedToken) {
            signOuts := signOuts + 1;
            settled := settled + [Settled(caller, Rejected(Raw(e)))];
            return;
          }
          var originalRequest := e.config;
          if isRefreshing {
            failedQueue := failedQueue + [Waiter(caller, originalRequest)];
            return;
          }
          isRefreshing := true;
          leader := Some(Waiter(caller, originalRequest));
          refreshCalls := refreshCalls + [storedToken.value];
          return;
        }
        signOuts := signOuts + 1;
      }
      settled := settled + [Settled(caller, Rejected(Rejection(e)))];
    }

    /** The interceptor's body for an auth failure whose read of the token store rejected:
        the rejection propagates to the caller and nothing else happens. */
    method OnStoreReadFailure(caller: CallerId)
      requires Valid()
      modifies this
      ensures Valid()
      ensures Snapshot() == Coordinator.OnStoreReadFailure(old(Snapshot()), caller)
      ensures responseHandlers == old(responseHandlers)
    {
      settled := settled + [Settled(caller, Rejected(StorageFailure))];
    }

    /** The refresh call returned `token` and saving it to the store succeeded. */
    method RefreshSucceeded(token: string)
      requires Valid() && isRefreshing
      modifies this
      ensures Valid()
      ensures Snapshot() == Coordinator.RefreshSucceeded(old(Snapshot()), token)
      ensures responseHandlers == old(responseHandlers)
    {
      var originalRequest := leader.value;
      savedTokens := savedTokens + [token];
      defaultAuthorization := Some(Bearer(token));
      var restamped := Stamp(originalRequest.request, token);
      tokenUpdates := tokenUpdates + [token];
      ProcessQueue(None, Some(token));
      settled := settled + [Settled(originalRequest.caller, Resolved(restamped))];
      isRefreshing := false;
      leader := None;
    }

    /** The leader's catch block runs with `err`: the refresh call failed (after its own pass
        through the interceptor), or saving the new token failed. */
    method RefreshFailed(err: Failure)
      requires Valid() && isRefreshing
      modifies this
      ensures Valid()
      ensures Snapshot() == Coordinator.RefreshFailed(old(Snapshot()), err)
      ensures responseHandlers == old(responseHandlers)
    {
      var originalRequest := leader.value;
      ProcessQueue(Some(err), None);
      signOuts := signOuts + 1;
      settled := settled + [Settled(originalRequest.caller, Rejected(err))];
      isRefreshing := false;
      leader := None;
    }

    /** Adds the interceptor as a response handler and returns the handle that ejects it. */
    method RegisterInterceptTokenManager() returns (unsubscribe: Handle)
      modifies this
      ensures responseHandlers == old(responseHandlers) + [true]
      ensures unsubscribe.id == |old(responseHandlers)|
      ensures Snapshot() == old(Snapshot())
    {
      unsubscribe := Handle(|responseHandlers|);
      responseHandlers := responseHandlers + [true];
    }

    /** Calls the closure returned by registration: ejects that handler, any number of times. */
    method Unsubscribe(h: Handle)
      modifies this
      ensures responseHandlers == Ejected(old(responseHandlers), h.id)
      ensures Snapshot() == old(Snapshot())
    {
      if h.id < |responseHandlers| && responseHandlers[h.id] {
        responseHandlers := responseHandlers[h.id := false];
      }
    }
  }

  /** A 401 response whose body names an expired access token. */
  function Expired(config: Request): (e: ResponseError)
    ensures IsAuthFailure(e) && e.config == config
  {
    ResponseError(Some(Response(401, Some(Body(Some(TokenExpired))))), config)
  }

  /** Three requests fail with an expired token while the store holds "old", and the refresh
      endpoint answers "new": one refresh call with "old", "new" is saved, sent to the update
      callback and becomes the default header, the two waiters re-send their requests with
      `Bearer new` in arrival order, and the first caller is resolved with its re-stamped
      configuration. */
  method ThreeFailuresOneRefresh(r1: Request, r2: Request, r3: Request)
    returns (refreshCalls: seq<string>, saved: seq<string>, updates: seq<string>,
             header: Option<string>, outcomes: seq<Settled>, signOuts: nat)
    ensures refreshCalls == ["old"] && saved == ["new"] && updates == ["new"]
    ensures header == Some("Bearer new") && signOuts == 0
    ensures outcomes == [Settled(2, Replayed(Stamp(r2, "new"))), Settled(3, Replayed(Stamp(r3, "new"))),
                         Settled(1, Resolved(Stamp(r1, "new")))]
  {
    var api := new Api();
    api.OnResponseError(1, Expired(r1), Some("old"));
    api.OnResponseError(2, Expired(r2), Some("old"));
    api.OnResponseError(3, Expired(r3), Some("old"));
    ghost var waiting := [Waiter(2, r2), Waiter(3, r3)];
    assert api.failedQueue == waiting;
    assert waiting[1..][1..] == [];
    assert Drain(waiting, None, Some("new")) == [Settled(2, Replayed(Stamp(r2, "new"))), Settled(3, Replayed(Stamp(r3, "new")))];
    api.RefreshSucceeded("new");
    assert Bearer("new") == "Bearer new";
    refreshCalls, saved, updates := api.refreshCalls, api.savedTokens, api.tokenUpdates;
    header, outcomes, signOuts := api.defaultAuthorization, api.settled, api.signOuts;
  }

  /** The same three failures when the refresh endpoint answers 500 with a message: the refresh
      request's own error passes through the interceptor first (no sign-out, an AppError with the
      server's message), then the leader's catch block makes the one sign-out and rejects both
      waiters, in arrival order, and the first caller with that same AppError. */
  method ThreeFailuresRefreshRejected(r1: Request, r2: Request, r3: Request, refreshRequest: Request)
    returns (refreshCalls: seq<string>, outcomes: seq<Settled>, signOuts: nat, updates: seq<string>)
    ensures refreshCalls == ["old"] && signOuts == 1 && updates == []
    ensures var err := AppError(Some("internal"));
      outcomes == [Settled(4, Rejected(err)), Settled(2, Rejected(err)), Settled(3, Rejected(err)),
                   Settled(1, Rejected(err))]
  {
    var api := new Api();
    api.OnResponseError(1, Expired(r1), Some("old"));
    api.OnResponseError(2, Expired(r2), Some("old"));
    api.OnResponseError(3, Expired(r3), Some("old"));
    var refreshError := ResponseError(Some(Response(500, Some(Body(Some("internal"))))), refreshRequest);
    api.OnResponseError(4, refreshError, Some("old"));
    ghost var err := AppError(Some("internal"));
    assert Rejection(refreshError) == err;
    ghost var waiting := [Waiter(2, r2), Waiter(3, r3)];
    assert api.failedQueue == waiting;
    assert waiting[1..][1..] == [];
    assert Drain(waiting, Some(err), None) == [Settled(2, Rejected(err)), Settled(3, Rejected(err))];
    api.RefreshFailed(Rejection(refreshError));
    refreshCalls, outcomes, signOuts, updates := api.refreshCalls, api.settled, api.signOuts, api.tokenUpdates;
  }

  /** The same three failures when the refresh call succeeds but saving its token fails: the
      catch block alone runs, with one sign-out, and all three callers are rejected with the
      storage failure; nothing is sent to the update callback. */
  method ThreeFailuresSaveFails(r1: Request, r2: Request, r3: Request)
    returns (refreshCalls: seq<string>, outcomes: seq<Settled>, signOuts: nat, updates: seq<string>)
    ensures refreshCalls == ["old"] && signOuts == 1 && updates == []
    ensures outcomes == [Settled(2, Rejected(StorageFailure)), Settled(3, Rejected(StorageFailure)),
                         Settled(1, Rejected(StorageFailure))]
  {
    var api := new Api();
    api.OnResponseError(1, Expired(r1), Some("old"));
    api.OnResponseError(2, Expired(r2), Some("old"));
    api.OnResponseError(3, Expired(r3), Some("old"));
    ghost var waiting := [Waiter(2, r2), Waiter(3, r3)];
    assert api.failedQueue == waiting;
    assert waiting[1..][1..] == [];
    assert Drain(waiting, Some(StorageFailure), None) ==
           [Settled(2, Rejected(StorageFailure)), Settled(3, Rejected(StorageFailure))];
    api.RefreshFailed(StorageFailure);
    refreshCalls, outcomes, signOuts, updates := api.refreshCalls, api.settled, api.signOuts, api.tokenUpdates;
  }

  /** With nothing in the store, an expired token signs out at once, rejects with the original
      error and calls no refresh endpoint. */
  method ExpiredWithoutStoredToken(r1: Request)
    returns (refreshCalls: seq<string>, outcomes: seq<Settled>, signOuts: nat, refreshing: bool)
    ensures refreshCalls == [] && signOuts == 1 && !refreshing
    ensures outcomes == [Settled(1, Rejected(Raw(Expired(r1))))]
  {
    var api := new Api();
    api.OnResponseError(1, Expired(r1), None);
    refreshCalls, outcomes, signOuts, refreshing := api.refreshCalls, api.settled, api.signOuts, api.isRefreshing;
  }

  /** When the token store cannot be read, an expired token rejects the caller with the storage
      error: no sign-out, no refresh call, and the flag stays clear. */
  method ExpiredStoreUnreadable()
    returns (refreshCalls: seq<string>, outcomes: seq<Settled>, signOuts: nat, refreshing: bool)
    ensures refreshCalls == [] && signOuts == 0 && !refreshing
    ensures outcomes == [Settled(1, Rejected(StorageFailure))]
  {
    var api := new Api();
    api.OnStoreReadFailure(1);
    refreshCalls, outcomes, signOuts, refreshing := api.refreshCalls, api.settled, api.signOuts, api.isRefreshing;
  }

  /** Ejecting the interceptor twice leaves the handlers as ejecting it once does. */
  method UnsubscribeTwice() returns (once: seq<bool>, twice: seq<bool>)
    ensures once == twice == [false]
  {
    var api := new Api();
    var h := api.RegisterInterceptTokenManager();
    api.Unsubscribe(h);
    once := api.responseHandlers;
    api.Unsubscribe(h);
    twice := api.responseHandlers;
  }
}
