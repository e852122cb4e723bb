/** Runs of the coordinator over sequences of events, and what holds of every run:
    the invariant, conservation of callers, one refresh call per cycle, and how a
    batch of concurrent auth failures shares a single refresh. */
module Protocol {
  import opened Http
  import opened Interceptor
  import opened Coordinator

  /** An event seen by the coordinator. The runtime is single-threaded, so each
      event's effects happen without interleaving. */
  datatype Event =
    | ErrorResponse(caller: CallerId, error: ResponseError, storedToken: Option<string>)
    | StoreReadFailed(caller: CallerId)   // an auth failure whose read of the token store rejected
    | RefreshResolved(token: string)
    | RefreshRejected(failure: Failure)

  /** A refresh outcome reaches the leader's pending promise; with no leader there is no
      such promise and the event changes nothing. */
  function Step(s: State, ev: Event): State
  {
    match ev
    case ErrorResponse(c, e, t) => OnResponseError(s, c, e, t)
    case StoreReadFailed(c) => OnStoreReadFailure(s, c)
    case RefreshResolved(t) => RefreshSucceeded(s, t)
    case RefreshRejected(f) => RefreshFailed(s, f)
  }

  /** A refresh outcome, as opposed to one run of the interceptor. */
  predicate IsOutcome(ev: Event)
  {
    ev.RefreshResolved? || ev.RefreshRejected?
  }

  function Run(s: State, evs: seq<Event>): State
    decreases |evs|
  {
    if evs == [] then s else Run(Step(s, evs[0]), evs[1..])
  }

  lemma {:induction false} RunAppend(s: State, a: seq<Event>, b: seq<Event>)
    ensures Run(s, a + b) == Run(Run(s, a), b)
    decreases |a|
  {
    if a == [] {
      assert a + b == b;
    } else {
      assert (a + b)[1..] == a[1..] + b;
      RunAppend(Step(s, a[0]), a[1..], b);
    }
  }

  lemma RunOne(s: State, ev: Event)
    ensures Run(s, [ev]) == Step(s, ev)
  {
    assert [ev][1..] == [];
  }

  // ---------------------------------------------------------------------------
  // The invariant: the flag is set exactly while a leader waits, and the queue is
  // empty whenever the coordinator is idle.

  lemma StepKeepsInv(s: State, ev: Event)
    requires Inv(s)
    ensures Inv(Step(s, ev))
  {
  }

  lemma {:induction false} RunKeepsInv(s: State, evs: seq<Event>)
    requires Inv(s)
    ensures Inv(Run(s, evs))
    decreases |evs|
  {
    if evs != [] {
      StepKeepsInv(s, evs[0]);
      RunKeepsInv(Step(s, evs[0]), evs[1..]);
    }
  }

  /** From the initial state, every reachable idle state has an empty queue. */
  lemma IdleQueueEmpty(evs: seq<Event>)
    ensures !Run(Initial, evs).isRefreshing ==> Run(Initial, evs).failedQueue == []
    ensures Run(Initial, evs).isRefreshing <==> Run(Initial, evs).leader.Some?
  {
    RunKeepsInv(Initial, evs);
  }

  // ---------------------------------------------------------------------------
  // At most one refresh in flight: a refresh call is made only by a caller that
  // found the coordinator idle, so calls never outnumber outcomes by more than one.

  function InFlight(s: State): nat
  {
    if s.isRefreshing then 1 else 0
  }

  /** The number of refresh outcomes among the events that reach a waiting leader; an outcome
      with no leader has no promise to settle and is not counted. */
  function DeliveredOutcomes(s: State, evs: seq<Event>): nat
    decreases |evs|
  {
    if evs == [] then 0
    else Delivered(s, evs[0]) + DeliveredOutcomes(Step(s, evs[0]), evs[1..])
  }

  function Delivered(s: State, ev: Event): nat
  {
    if IsOutcome(ev) && s.leader.Some? then 1 else 0
  }

  lemma StepRefreshCalls(s: State, ev: Event)
    requires Inv(s)
    ensures |Step(s, ev).refreshCalls| + InFlight(s) ==
            |s.refreshCalls| + Delivered(s, ev) + InFlight(Step(s, ev))
    ensures !IsOutcome(ev) && s.isRefreshing ==> Step(s, ev).refreshCalls == s.refreshCalls
  {
  }

  /** Over any run, every refresh call is matched by exactly one outcome reaching its leader,
      except the one still in flight at the end. */
  lemma {:induction false} OneRefreshPerCycle(s: State, evs: seq<Event>)
    requires Inv(s)
    ensures |Run(s, evs).refreshCalls| + InFlight(s) == |s.refreshCalls| + DeliveredOutcomes(s, evs) + InFlight(Run(s, evs))
    decreases |evs|
  {
    if evs != [] {
      StepRefreshCalls(s, evs[0]);
      StepKeepsInv(s, evs[0]);
      OneRefreshPerCycle(Step(s, evs[0]), evs[1..]);
    }
  }

  /** While a refresh is in flight and no outcome arrives, no further refresh call is made,
      the flag stays set, the leader stays the same and the queue only grows at its end. */
  lemma {:induction false} NoSecondRefreshWhileInFlight(s: State, evs: seq<Event>)
    requires Inv(s) && s.isRefreshing
    requires forall i :: 0 <= i < |evs| ==> !IsOutcome(evs[i])
    ensures Run(s, evs).refreshCalls == s.refreshCalls && Run(s, evs).isRefreshing
    ensures Run(s, evs).leader == s.leader && s.failedQueue <= Run(s, evs).failedQueue
    decreases |evs|
  {
    if evs != [] {
      StepRefreshCalls(s, evs[0]);
      StepKeepsInv(s, evs[0]);
      var s1 := Step(s, evs[0]);
      assert s1.leader == s.leader && s.failedQueue <= s1.failedQueue;
      NoSecondRefreshWhileInFlight(s1, evs[1..]);
    }
  }

  // ---------------------------------------------------------------------------
  // Conservation: every caller that arrives is settled or waiting, and none is
  // settled twice.

  function Callers(ss: seq<Settled>): seq<CallerId>
    decreases |ss|
  {
    if ss == [] then [] else [ss[0].caller] + Callers(ss[1..])
  }

  function WaiterCallers(q: seq<Waiter>): seq<CallerId>
    decreases |q|
  {
    if q == [] then [] else [q[0].caller] + WaiterCallers(q[1..])
  }

  /** The callers still waiting: the leader and the queue. */
  function Pending(s: State): seq<CallerId>
  {
    (match s.leader case Some(l) => [l.caller] case None => []) + WaiterCallers(s.failedQueue)
  }

  /** The callers of the failing requests among the events, in order. */
  function Arrivals(evs: seq<Event>): seq<CallerId>
    decreases |evs|
  {
    if evs == [] then []
    else ArrivalOf(evs[0]) + Arrivals(evs[1..])
  }

  lemma {:induction false} CallersAppend(a: seq<Settled>, b: seq<Settled>)
    ensures Callers(a + b) == Callers(a) + Callers(b)
    decreases |a|
  {
    if a == [] {
      assert a + b == b;
    } else {
      assert (a + b)[1..] == a[1..] + b;
      CallersAppend(a[1..], b);
    }
  }

  lemma {:induction false} WaiterCallersAppend(a: seq<Waiter>, b: seq<Waiter>)
    ensures WaiterCallers(a + b) == WaiterCallers(a) + WaiterCallers(b)
    decreases |a|
  {
    if a == [] {
      assert a + b == b;
    } else {
      assert (a + b)[1..] == a[1..] + b;
      WaiterCallersAppend(a[1..], b);
    }
  }

  /** processQueue settles exactly the callers of the queue. */
  lemma {:induction false} DrainCallers(q: seq<Waiter>, error: Option<Failure>, token: Option<string>)
    ensures Callers(Drain(q, error, token)) == WaiterCallers(q)
    decreases |q|
  {
    if q != [] {
      DrainCallers(q[1..], error, token);
    }
  }

  /** All callers the coordinator has seen, settled or waiting, as a multiset. */
  function Seen(s: State): multiset<CallerId>
  {
    multiset(Callers(s.settled)) + multiset(Pending(s))
  }

  /** The caller of a failing request, if the event is one. */
  function ArrivalOf(ev: Event): seq<CallerId>
  {
    if IsOutcome(ev) then [] else [ev.caller]
  }

  lemma SeenQueued(s: State, w: Waiter)
    ensures Seen(s.(failedQueue := s.failedQueue + [w])) == Seen(s) + multiset{w.caller}
  {
    WaiterCallersAppend(s.failedQueue, [w]);
    assert WaiterCallers([w]) == [w.caller];
  }

  lemma SeenLeader(s: State, w: Waiter)
    requires s.leader.None?
    ensures Seen(s.(isRefreshing := true, leader := Some(w))) == Seen(s) + multiset{w.caller}
  {
    assert Pending(s.(isRefreshing := true, leader := Some(w))) == [w.caller] + Pending(s);
  }

  lemma SeenSettled(s: State, r: State, x: Settled)
    requires r.leader == s.leader && r.failedQueue == s.failedQueue && r.settled == s.settled + [x]
    ensures Seen(r) == Seen(s) + multiset{x.caller}
  {
    CallersAppend(s.settled, [x]);
    assert Callers([x]) == [x.caller];
    assert Pending(r) == Pending(s);
  }

  lemma ErrorResponseConserves(s: State, c: CallerId, e: ResponseError, t: Option<string>)
    requires Inv(s)
    ensures Seen(OnResponseError(s, c, e, t)) == Seen(s) + multiset{c}
  {
    var r := OnResponseError(s, c, e, t);
    var w := Waiter(c, e.config);
    if IsAuthFailure(e) && HasToken(t) && s.isRefreshing {
      assert r == s.(failedQueue := s.failedQueue + [w]);
      SeenQueued(s, w);
    } else if IsAuthFailure(e) && HasToken(t) {
      assert r == s.(isRefreshing := true, leader := Some(w), refreshCalls := r.refreshCalls);
      SeenLeader(s.(refreshCalls := r.refreshCalls), w);
    } else {
      SeenSettled(s, r, r.settled[|r.settled| - 1]);
    }
  }

  lemma DrainConserves(s: State, l: Waiter, last: Settlement, error: Option<Failure>, token: Option<string>)
    requires s.leader == Some(l)
    ensures multiset(Callers(s.settled + Drain(s.failedQueue, error, token) + [Settled(l.caller, last)])) == Seen(s)
  {
    var d := Drain(s.failedQueue, error, token);
    CallersAppend(s.settled + d, [Settled(l.caller, last)]);
    CallersAppend(s.settled, d);
    DrainCallers(s.failedQueue, error, token);
    assert Pending(s) == [l.caller] + WaiterCallers(s.failedQueue);
  }

  lemma StepConserves(s: State, ev: Event)
    requires Inv(s)
    ensures Seen(Step(s, ev)) == Seen(s) + multiset(ArrivalOf(ev))
  {
    match ev
    case ErrorResponse(c, e, t) =>
      ErrorResponseConserves(s, c, e, t);
    case StoreReadFailed(c) =>
      SeenSettled(s, Step(s, ev), Settled(c, Rejected(StorageFailure)));
    case RefreshResolved(t) =>
      if s.leader.Some? {
        var l := s.leader.value;
        DrainConserves(s, l, Resolved(Stamp(l.request, t)), None, Some(t));
        assert Pending(Step(s, ev)) == [];
      }
    case RefreshRejected(f) =>
      if s.leader.Some? {
        var l := s.leader.value;
        DrainConserves(s, l, Rejected(f), Some(f), None);
        assert Pending(Step(s, ev)) == [];
      }
  }

  /** Nothing is lost or duplicated: what is settled or waiting after a run is what was
      settled or waiting before plus the callers that arrived. */
  lemma {:induction false} RunConserves(s: State, evs: seq<Event>)
    requires Inv(s)
    ensures Seen(Run(s, evs)) == Seen(s) + multiset(Arrivals(evs))
    decreases |evs|
  {
    if evs != [] {
      StepConserves(s, evs[0]);
      StepKeepsInv(s, evs[0]);
      RunConserves(Step(s, evs[0]), evs[1..]);
    }
  }

  /** With distinct callers, none is settled twice and every arrival is settled or still
      waiting; once the coordinator is idle, every arrival has been settled. */
  lemma SettledExactlyOnce(s: State, evs: seq<Event>)
    requires Inv(s)
    requires forall c :: (Seen(s) + multiset(Arrivals(evs)))[c] <= 1
    ensures forall c :: multiset(Callers(Run(s, evs).settled))[c] <= 1
    ensures forall c :: c in Arrivals(evs) ==> c in Callers(Run(s, evs).settled) || c in Pending(Run(s, evs))
    ensures !Run(s, evs).isRefreshing ==> forall c :: c in Arrivals(evs) ==> c in Callers(Run(s, evs).settled)
  {
    var r := Run(s, evs);
    RunConserves(s, evs);
    RunKeepsInv(s, evs);
    forall c ensures multiset(Callers(r.settled))[c] <= 1 {
      assert multiset(Callers(r.settled))[c] <= Seen(r)[c];
    }
    forall c | c in Arrivals(evs) ensures c in Callers(r.settled) || c in Pending(r) {
      assert c in multiset(Arrivals(evs));
      assert c in Seen(r);
    }
    if !r.isRefreshing {
      assert Pending(r) == [];
    }
  }

  // ---------------------------------------------------------------------------
  // A batch of requests failing with an expiry marker shares one refresh.

  ghost predicate AuthFailuresWithToken(evs: seq<Event>)
  {
    forall i :: 0 <= i < |evs| ==>
      evs[i].ErrorResponse? && IsAuthFailure(evs[i].error) && HasToken(evs[i].storedToken)
  }

  /** The waiters the failing requests among the events would become, in order. */
  function AsWaiters(evs: seq<Event>): (q: seq<Waiter>)
    decreases |evs|
  {
    if evs == [] then []
    else (if evs[0].ErrorResponse? then [Waiter(evs[0].caller, evs[0].error.config)] else []) + AsWaiters(evs[1..])
  }

  lemma {:induction false} AsWaitersAt(evs: seq<Event>)
    requires forall i :: 0 <= i < |evs| ==> evs[i].ErrorResponse?
    ensures |AsWaiters(evs)| == |evs|
    ensures forall i :: 0 <= i < |evs| ==> AsWaiters(evs)[i] == Waiter(evs[i].caller, evs[i].error.config)
    decreases |evs|
  {
    if evs != [] {
      AsWaitersAt(evs[1..]);
      assert forall i :: 1 <= i < |evs| ==> AsWaiters(evs)[i] == AsWaiters(evs[1..])[i - 1];
    }
  }

  /** Callers failing while a refresh is in flight only join the end of the queue, in order. */
  lemma {:induction false} LateArrivalsQueue(s: State, evs: seq<Event>)
    requires s.isRefreshing && AuthFailuresWithToken(evs)
    ensures Run(s, evs) == s.(failedQueue := s.failedQueue + AsWaiters(evs))
    decreases |evs|
  {
    if evs != [] {
      var w := Waiter(evs[0].caller, evs[0].error.config);
      var s1 := Step(s, evs[0]);
      assert s1 == s.(failedQueue := s.failedQueue + [w]);
      assert AuthFailuresWithToken(evs[1..]) by {
        forall i | 0 <= i < |evs| - 1 ensures evs[1..][i] == evs[i + 1] { }
      }
      LateArrivalsQueue(s1, evs[1..]);
      assert AsWaiters(evs) == [w] + AsWaiters(evs[1..]);
      assert s.failedQueue + [w] + AsWaiters(evs[1..]) == s.failedQueue + AsWaiters(evs);
    }
  }

  /** Any number of requests failing together from idle make exactly one refresh call, with
      the first caller's stored token; the first is the leader and the rest wait in order. */
  lemma ConcurrentFailuresOneRefresh(s: State, evs: seq<Event>)
    requires Inv(s) && !s.isRefreshing && |evs| > 0 && AuthFailuresWithToken(evs)
    ensures Run(s, evs) ==
      s.(isRefreshing := true,
         leader := Some(Waiter(evs[0].caller, evs[0].error.config)),
         refreshCalls := s.refreshCalls + [evs[0].storedToken.value],
         failedQueue := AsWaiters(evs[1..]))
  {
    var s1 := Step(s, evs[0]);
    assert AuthFailuresWithToken(evs[1..]) by {
      forall i | 0 <= i < |evs| - 1 ensures evs[1..][i] == evs[i + 1] { }
    }
    LateArrivalsQueue(s1, evs[1..]);
  }

  /** processQueue after such a batch settles the callers after the first, in arrival order. */
  lemma BatchDrain(evs: seq<Event>, error: Option<Failure>, token: Option<string>)
    requires |evs| > 0 && forall i :: 0 <= i < |evs| ==> evs[i].ErrorResponse?
    ensures |Drain(AsWaiters(evs[1..]), error, token)| == |evs| - 1
    ensures forall i :: 1 <= i < |evs| ==>
      Drain(AsWaiters(evs[1..]), error, token)[i - 1] == Settle(Waiter(evs[i].caller, evs[i].error.config), error, token)
  {
    var q := AsWaiters(evs[1..]);
    AsWaitersAt(evs[1..]);
    DrainSettlesInOrder(q, error, token);
    forall i | 1 <= i < |evs|
      ensures Drain(q, error, token)[i - 1] == Settle(Waiter(evs[i].caller, evs[i].error.config), error, token)
    {
      assert evs[1..][i - 1] == evs[i];
    }
  }

  /** A successful refresh after such a batch: one refresh call, one token update, one save;
      every waiter re-sends its request with `Bearer <token>` in arrival order and the leader
      is resolved with its own re-stamped configuration; no sign-out. */
  lemma ConcurrentFailuresShareToken(s: State, evs: seq<Event>, token: string)
    requires Inv(s) && !s.isRefreshing && |evs| > 0 && AuthFailuresWithToken(evs)
    ensures var r := Run(s, evs + [RefreshResolved(token)]);
      r.refreshCalls == s.refreshCalls + [evs[0].storedToken.value] &&
      r.tokenUpdates == s.tokenUpdates + [token] && r.savedTokens == s.savedTokens + [token] &&
      r.defaultAuthorization == Some(Bearer(token)) && r.signOuts == s.signOuts &&
      !r.isRefreshing && r.failedQueue == [] &&
      |r.settled| == |s.settled| + |evs| && r.settled[..|s.settled|] == s.settled &&
      (forall i :: 1 <= i < |evs| ==>
         r.settled[|s.settled| + i - 1] == Settled(evs[i].caller, Replayed(Stamp(evs[i].error.config, token)))) &&
      r.settled[|s.settled| + |evs| - 1] == Settled(evs[0].caller, Resolved(Stamp(evs[0].error.config, token)))
  {
    ConcurrentFailuresOneRefresh(s, evs);
    RunAppend(s, evs, [RefreshResolved(token)]);
    var m := Run(s, evs);
    RunOne(m, RefreshResolved(token));
    var r := Run(s, evs + [RefreshResolved(token)]);
    assert r == RefreshSucceeded(m, token);
    BatchDrain(evs, None, Some(token));
    var d := Drain(AsWaiters(evs[1..]), None, Some(token));
    assert r.settled == s.settled + d + [Settled(evs[0].caller, Resolved(Stamp(evs[0].error.config, token)))];
    forall i | 1 <= i < |evs|
      ensures r.settled[|s.settled| + i - 1] == Settled(evs[i].caller, Replayed(Stamp(evs[i].error.config, token)))
    {
      assert r.settled[|s.settled| + i - 1] == d[i - 1];
    }
  }

  /** A failed refresh after such a batch: one refresh call, exactly one sign-out, and every
      caller, waiters in arrival order then the leader, is rejected with the same error. */
  lemma ConcurrentFailuresShareError(s: State, evs: seq<Event>, err: Failure)
    requires Inv(s) && !s.isRefreshing && |evs| > 0 && AuthFailuresWithToken(evs)
    ensures var r := Run(s, evs + [RefreshRejected(err)]);
      r.refreshCalls == s.refreshCalls + [evs[0].storedToken.value] &&
      r.signOuts == s.signOuts + 1 && r.tokenUpdates == s.tokenUpdates && r.savedTokens == s.savedTokens &&
      !r.isRefreshing && r.failedQueue == [] &&
      |r.settled| == |s.settled| + |evs| && r.settled[..|s.settled|] == s.settled &&
      (forall i :: 1 <= i < |evs| ==> r.settled[|s.settled| + i - 1] == Settled(evs[i].caller, Rejected(err))) &&
      r.settled[|s.settled| + |evs| - 1] == Settled(evs[0].caller, Rejected(err))
  {
    ConcurrentFailuresOneRefresh(s, evs);
    RunAppend(s, evs, [RefreshRejected(err)]);
    var m := Run(s, evs);
    RunOne(m, RefreshRejected(err));
    var r := Run(s, evs + [RefreshRejected(err)]);
    assert r == RefreshFailed(m, err);
    BatchDrain(evs, Some(err), None);
    var d := Drain(AsWaiters(evs[1..]), Some(err), None);
    assert r.settled == s.settled + d + [Settled(evs[0].caller, Rejected(err))];
    forall i | 1 <= i < |evs|
      ensures r.settled[|s.settled| + i - 1] == Settled(evs[i].caller, Rejected(err))
    {
      assert r.settled[|s.settled| + i - 1] == d[i - 1];
    }
  }

  /** The refresh endpoint failing without a 401 after such a batch, as the code runs it: the
      refresh request's error first passes through the interceptor, which rejects it with the
      mapped error and does not sign out; the leader's catch block then signs out once and
      rejects every waiter, in arrival order, and the leader with that same mapped error. */
  lemma ConcurrentFailuresEndpointRejects(s: State, evs: seq<Event>, refreshCaller: CallerId,
                                           e: ResponseError, stored: Option<string>)
    requires Inv(s) && !s.isRefreshing && |evs| > 0 && AuthFailuresWithToken(evs)
    requires !IsUnauthorized(e)
    ensures var r := Run(s, evs + [ErrorResponse(refreshCaller, e, stored), RefreshRejected(Rejection(e))]);
      r.refreshCalls == s.refreshCalls + [evs[0].storedToken.value] &&
      r.signOuts == s.signOuts + 1 && r.tokenUpdates == s.tokenUpdates && r.savedTokens == s.savedTokens &&
      !r.isRefreshing && r.failedQueue == [] &&
      |r.settled| == |s.settled| + |evs| + 1 && r.settled[..|s.settled|] == s.settled &&
      r.settled[|s.settled|] == Settled(refreshCaller, Rejected(Rejection(e))) &&
      (forall i :: 1 <= i < |evs| ==> r.settled[|s.settled| + i] == Settled(evs[i].caller, Rejected(Rejection(e)))) &&
      r.settled[|s.settled| + |evs|] == Settled(evs[0].caller, Rejected(Rejection(e)))
  {
    var tail := [ErrorResponse(refreshCaller, e, stored), RefreshRejected(Rejection(e))];
    ConcurrentFailuresOneRefresh(s, evs);
    RunAppend(s, evs, tail);
    var m := Run(s, evs);
    var m1 := Step(m, tail[0]);
    assert m1 == m.(settled := m.settled + [Settled(refreshCaller, Rejected(Rejection(e)))]);
    var r := Step(m1, tail[1]);
    assert tail[1..][1..] == [];
    assert Run(m, tail) == Run(m1, tail[1..]) == Run(r, []) == r;
    BatchDrain(evs, Some(Rejection(e)), None);
    var d := Drain(AsWaiters(evs[1..]), Some(Rejection(e)), None);
    assert r.settled == s.settled + [Settled(refreshCaller, Rejected(Rejection(e)))] + d +
                        [Settled(evs[0].caller, Rejected(Rejection(e)))];
    forall i | 1 <= i < |evs|
      ensures r.settled[|s.settled| + i] == Settled(evs[i].caller, Rejected(Rejection(e)))
    {
      assert r.settled[|s.settled| + i] == d[i - 1];
    }
  }

  /** As the code is written, the leader of a successful refresh gets its re-stamped
      configuration back, not the response of re-sending it; the intended step re-sends it
      like every waiter. The two differ in exactly that one settlement. */
  lemma LeaderResolvedNotReplayed(s: State, token: string)
    requires s.leader.Some?
    ensures var written := RefreshSucceeded(s, token);
            var intended := RefreshSucceededReplayingLeader(s, token);
      |written.settled| == |intended.settled| == |s.settled| + |s.failedQueue| + 1 &&
      written.settled[|written.settled| - 1].how.Resolved? &&
      intended.settled[|intended.settled| - 1].how.Replayed? &&
      written.settled[..|written.settled| - 1] == intended.settled[..|intended.settled| - 1] &&
      written.(settled := intended.settled) == intended
  {
    var written := RefreshSucceeded(s, token);
    var intended := RefreshSucceededReplayingLeader(s, token);
    var prefix := s.settled + Drain(s.failedQueue, None, Some(token));
    assert written.settled[..|written.settled| - 1] == prefix;
    assert intended.settled[..|intended.settled| - 1] == prefix;
  }

  /** With the intended success step, every caller of such a batch, the leader included,
      re-sends its own request with `Bearer <token>`: waiters in arrival order, then the leader. */
  lemma ConcurrentFailuresAllReplay(s: State, evs: seq<Event>, token: string)
    requires Inv(s) && !s.isRefreshing && |evs| > 0 && AuthFailuresWithToken(evs)
    ensures var r := RefreshSucceededReplayingLeader(Run(s, evs), token);
      r.refreshCalls == s.refreshCalls + [evs[0].storedToken.value] &&
      r.tokenUpdates == s.tokenUpdates + [token] && r.savedTokens == s.savedTokens + [token] &&
      r.signOuts == s.signOuts && !r.isRefreshing && r.failedQueue == [] &&
      |r.settled| == |s.settled| + |evs| && r.settled[..|s.settled|] == s.settled &&
      (forall i :: 1 <= i < |evs| ==>
         r.settled[|s.settled| + i - 1] == Settled(evs[i].caller, Replayed(Stamp(evs[i].error.config, token)))) &&
      r.settled[|s.settled| + |evs| - 1] == Settled(evs[0].caller, Replayed(Stamp(evs[0].error.config, token)))
  {
    ConcurrentFailuresOneRefresh(s, evs);
    var m := Run(s, evs);
    var r := RefreshSucceededReplayingLeader(m, token);
    BatchDrain(evs, None, Some(token));
    var d := Drain(AsWaiters(evs[1..]), None, Some(token));
    assert r.settled == s.settled + d + [Settled(evs[0].caller, Replayed(Stamp(evs[0].error.config, token)))];
    forall i | 1 <= i < |evs|
      ensures r.settled[|s.settled| + i - 1] == Settled(evs[i].caller, Replayed(Stamp(evs[i].error.config, token)))
    {
      assert r.settled[|s.settled| + i - 1] == d[i - 1];
    }
  }

  // ---------------------------------------------------------------------------
  // The refresh request is sent through the same client, so its own failure passes
  // through the interceptor before it reaches the leader's catch block.

  /** A 401 from the refresh endpoint that the interceptor settles at once signs out twice for
      one failed refresh: once in the interceptor, once in the leader's catch block. That is a 401
      without an expiry marker, or one with a marker when the store is empty by then. */
  lemma RefreshEndpointUnauthorizedSignsOutTwice(s: State, refreshCaller: CallerId, e: ResponseError, stored: Option<string>)
    requires Inv(s) && s.isRefreshing && IsUnauthorized(e) && !(IsAuthFailure(e) && HasToken(stored))
    ensures var reason := if IsAuthFailure(e) then Raw(e) else Rejection(e);
            var r := Run(s, [ErrorResponse(refreshCaller, e, stored), RefreshRejected(reason)]);
      r.signOuts == s.signOuts + 2 && !r.isRefreshing && r.failedQueue == [] &&
      |r.settled| == |s.settled| + |s.failedQueue| + 2 &&
      r.settled[|s.settled|] == Settled(refreshCaller, Rejected(reason)) &&
      (forall i :: 0 <= i < |s.failedQueue| ==>
         r.settled[|s.settled| + 1 + i] == Settled(s.failedQueue[i].caller, Rejected(reason))) &&
      r.settled[|r.settled| - 1] == Settled(s.leader.value.caller, Rejected(reason))
  {
    var reason := if IsAuthFailure(e) then Raw(e) else Rejection(e);
    var evs := [ErrorResponse(refreshCaller, e, stored), RefreshRejected(reason)];
    var s1 := Step(s, evs[0]);
    var s2 := Step(s1, evs[1]);
    assert s1.signOuts == s.signOuts + 1 && s1.leader == s.leader && s1.failedQueue == s.failedQueue;
    assert s1.settled == s.settled + [Settled(refreshCaller, Rejected(reason))];
    assert s2.signOuts == s1.signOuts + 1;
    DrainSettlesInOrder(s.failedQueue, Some(reason), None);
    assert s2.settled == s1.settled + Drain(s.failedQueue, Some(reason), None) +
                         [Settled(s.leader.value.caller, Rejected(reason))];
    assert evs[1..][1..] == [];
    assert Run(s, evs) == Run(s1, evs[1..]) == Run(s2, []) == s2;
  }

  /** A 401 with an expiry marker from the refresh endpoint, while a token is stored, puts the
      refresh request itself in the queue. Whatever failures follow, the flag stays set, the
      leader is unchanged, no refresh call is made and the refresh request stays queued. */
  lemma RefreshEndpointExpiredQueuesItself(s: State, refreshCaller: CallerId, e: ResponseError,
                                           stored: Option<string>, later: seq<Event>)
    requires Inv(s) && s.isRefreshing && IsAuthFailure(e) && HasToken(stored)
    requires forall i :: 0 <= i < |later| ==> !IsOutcome(later[i])
    ensures var r := Run(s, [ErrorResponse(refreshCaller, e, stored)] + later);
      r.isRefreshing && r.leader == s.leader && r.refreshCalls == s.refreshCalls &&
      s.failedQueue + [Waiter(refreshCaller, e.config)] <= r.failedQueue
  {
    var ev := ErrorResponse(refreshCaller, e, stored);
    var s1 := Step(s, ev);
    assert s1 == s.(failedQueue := s.failedQueue + [Waiter(refreshCaller, e.config)]);
    StepKeepsInv(s, ev);
    assert ([ev] + later)[1..] == later;
    assert Run(s, [ev] + later) == Run(s1, later);
    NoSecondRefreshWhileInFlight(s1, later);
  }

  /** The refresh endpoint answering an expiry-marked 401 when the token store cannot be read:
      the interceptor rejects the refresh request with the storage error and does not sign out,
      and the leader's catch block then runs with that error as a bare outcome: one sign-out,
      and every waiter and then the leader rejected with the storage error. */
  lemma RefreshEndpointStoreReadFails(s: State, refreshCaller: CallerId)
    requires Inv(s) && s.isRefreshing
    ensures var r := Run(s, [StoreReadFailed(refreshCaller), RefreshRejected(StorageFailure)]);
      r.signOuts == s.signOuts + 1 && r.refreshCalls == s.refreshCalls &&
      !r.isRefreshing && r.failedQueue == [] &&
      |r.settled| == |s.settled| + |s.failedQueue| + 2 &&
      r.settled[|s.settled|] == Settled(refreshCaller, Rejected(StorageFailure)) &&
      (forall i :: 0 <= i < |s.failedQueue| ==>
         r.settled[|s.settled| + 1 + i] == Settled(s.failedQueue[i].caller, Rejected(StorageFailure))) &&
      r.settled[|r.settled| - 1] == Settled(s.leader.value.caller, Rejected(StorageFailure))
  {
    var evs := [StoreReadFailed(refreshCaller), RefreshRejected(StorageFailure)];
    var s1 := Step(s, evs[0]);
    var s2 := Step(s1, evs[1]);
    assert s1 == s.(settled := s.settled + [Settled(refreshCaller, Rejected(StorageFailure))]);
    DrainSettlesInOrder(s.failedQueue, Some(StorageFailure), None);
    assert s2.settled == s1.settled + Drain(s.failedQueue, Some(StorageFailure), None) +
                         [Settled(s.leader.value.caller, Rejected(StorageFailure))];
    assert evs[1..][1..] == [];
    assert Run(s, evs) == Run(s1, evs[1..]) == Run(s2, []) == s2;
  }
}
