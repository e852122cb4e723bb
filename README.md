# Single-flight token refresh in the app's API client

This project models the core of `src/services/api.ts`. That is the response-error
interceptor the app installs on its axios instance, together with the queue and flag it
shares across requests. When a request fails because its access token has expired, the
interceptor does four things:

- it checks that a token is stored;
- it lets exactly one failing caller (the *leader*) call `/sessions/refresh-token`;
- it parks every other failing caller in `failedQueue` until that call finishes;
- it settles all of them with the outcome (`processQueue`).

Every other error is mapped to an `AppError` or passed on as it was. A 401 without an
expiry marker also calls `signOut` on the way.

The runtime is single-threaded, so the asynchrony is modelled as a sequence of atomic
events:

- `ErrorResponse(caller, error, storedToken)`: one run of the interceptor. It happens at
  the point where reading the token store (line 52) has returned `storedToken`. From that
  point to the issue of the refresh call, the code runs without suspension.
- `StoreReadFailed(caller)`: one run of the interceptor for an auth failure in which
  reading the token store (line 52) rejected. Nothing in the interceptor catches that
  rejection, so the caller is rejected with the storage error. There is no `signOut`, and
  the flag, the queue and the refresh endpoint are not touched.
- `RefreshResolved(token)`: the refresh call returned `token` and saving it to the store
  succeeded. Callers whose requests fail while the save is pending are earlier
  `ErrorResponse` events, because the flag is still set at that time.
- `RefreshRejected(failure)`: the leader's `catch` block runs with `failure`. A refresh call
  that fails is two events: first an `ErrorResponse` for the refresh request itself, because
  `api.post` (line 76) goes through the same interceptor, and then `RefreshRejected` with
  what the interceptor rejected it with. A `RefreshRejected` on its own is the case where
  the refresh call succeeded but saving its token failed (line 78).

Modules, one file each:

- `Http` (`http.dfy`): request configurations, error responses, rejections, and the
  `Bearer <token>` stamp.
- `Interceptor` (`interceptor.dfy`): the pure parts of the interceptor. These are the
  classification of an error (`Classify`), the `AppError`-or-raw mapping (`Rejection`) and
  what ejecting a handler does (`Ejected`).
- `Coordinator` (`coordinator.dfy`): the coordinator as a state machine on values. The
  fields are the flag, the queue, the leader, the default header and a log of every
  observable effect: refresh calls, token saves, `refreshTokenUpdated` calls, `signOut`
  calls and each caller's settlement. There is one function per event, and `Drain`
  describes `processQueue`.
- `Protocol` (`protocol.dfy`): runs over event sequences and the properties of every run.
  These are: the idle queue is empty, no caller is lost or settled twice, there is at most
  one refresh per cycle, and a batch of concurrent failures shares one refresh.
- `Service` (`service.dfy`): the class `Api`, which holds the module state as fields and
  has one method per step. Each method's new state is proved to equal the matching
  `Coordinator` function of the old state. The file ends with client methods for the
  three-request scenarios and for ejecting twice.

A caller's settlement is one of three values:

- `Resolved(config)`: the promise is resolved with a request configuration. This is what
  the leader gets: line 86 resolves it with its re-stamped configuration and does not
  re-send the request.
- `Replayed(config)`: the promise is resolved by re-sending `config` (`axios(originalRequest)`
  at line 66, with `Authorization: Bearer <token>`). This is what a queued caller gets. The
  replay goes through the global `axios`, not through `api`, so the interceptor does not
  see it again.
- `Rejected(reason)`: the promise is rejected.

## Where the code differs from the intended protocol

The model follows the code. The protocol the client is meant to implement differs from the
code in these places:

- **The leader is not replayed.** The intended protocol re-sends every caller's request
  after a successful refresh. The code resolves the leader's promise with its request
  configuration (line 86), so the leader's caller receives a configuration, not a response.
  `Coordinator.RefreshSucceeded` and `Protocol.ConcurrentFailuresShareToken` state exactly
  this (`Resolved`, not `Replayed`). The intended step is `Coordinator.RefreshSucceededReplayingLeader`,
  which re-sends the leader's request like every waiter's. `Protocol.LeaderResolvedNotReplayed`
  proves that the two steps differ only in the leader's settlement.
  `Protocol.ConcurrentFailuresAllReplay` proves that with the intended step every caller of a
  batch, the leader included, re-sends its request with `Bearer <token>`.
- **The refresh request is intercepted too.** It is sent with `api.post` (line 76), so its
  own failure passes through the same interceptor before it reaches the leader's `catch`
  block. The event model expresses this as an `ErrorResponse` for the refresh request,
  followed by `RefreshRejected` with the interceptor's rejection. Two consequences follow.
  - A 401 from the refresh endpoint that the interceptor settles at once calls `signOut`
    twice for one failed refresh: once in the interceptor and once in the leader's `catch`
    block. So "exactly once" does not hold for it. This happens on two paths: a 401
    without an expiry marker (lines 98 and 89), and an expiry-marked 401 when the store is
    empty by then (lines 55 and 89). See `Protocol.RefreshEndpointUnauthorizedSignsOutTwice`.
  - A 401 carrying `token.expired` or `token.invalid` from the refresh endpoint, while a
    token is stored, puts the refresh request itself at the end of `failedQueue`.
    `Protocol.RefreshEndpointExpiredQueuesItself` proves that after this, whatever failing
    requests follow, the flag stays set, the leader is the same, no refresh call is made
    and the refresh request stays in the queue. That no outcome event can follow is argued
    from the code, not proved: the only code that produces an outcome is the leader's
    continuation after line 76. That continuation waits on the refresh request's promise,
    which is now in the queue, and only an outcome drains the queue. So nothing settles,
    and the flag stays set for the rest of the session.
  - When the refresh request does not pass through the interceptor, as intended, its
    failure reaches the leader's `catch` block unchanged. That is a bare `RefreshRejected`,
    and `Protocol.ConcurrentFailuresShareError` states the intended result: one `signOut`,
    and every caller rejected with the same error. For a failure that is not a 401, the
    code as written gives the same result, with the refresh request settled first. See
    `Protocol.ConcurrentFailuresEndpointRejects`.
- **The stored token is checked by every caller.** The intended protocol checks for a
  stored refresh token once, at the leader. The code checks it for every auth failure,
  before it looks at the flag (lines 52-57). An empty string counts as no token, because
  `!oldToken` treats it that way. The token sent to the endpoint is the leader's stored
  access token; there is no separate refresh token.
- **A failed read of the store is neither "absent" nor handled.** The intended protocol
  treats a store that cannot be read like an empty one: sign out and reject. In the code,
  the rejection of `storageAuhtTokenGet` at line 52 is not caught. The caller is rejected
  with the storage error, `signOut` is not called, and nothing else changes. See
  `Coordinator.OnStoreReadFailure`. When this happens to the refresh request's own
  expiry-marked 401, the storage error then reaches the leader's `catch` block as its
  outcome. See `Protocol.RefreshEndpointStoreReadFails`.

## Model

| member | source | states |
|---|---|---|
| `Interceptor.Classify` | src/services/api.ts:50-106 | The refresh path is taken exactly for a 401 whose `data.message` is `token.expired` or `token.invalid`. It refreshes exactly when a non-empty token is stored, and otherwise signs out and rejects. Every other error signs out exactly when it is a 401 and is rejected with the mapped failure. |
| `Interceptor.Rejection` | src/services/api.ts:102-106 | An error whose response has a body is rejected as `AppError(data.message)`; any other error is rejected unchanged. |
| `Interceptor.Ejected` | src/services/api.ts:109-111 | Ejecting a handle clears that handler's slot, if it exists, and leaves every other handler as it was. |
| `Interceptor.EjectTwice` | src/services/api.ts:109-111 | Calling the unsubscribe closure a second time changes nothing. |
| `Http.Stamp` | src/services/api.ts:80 | Re-stamping a request sets its `Authorization` header to `Bearer <token>` and keeps the URL and every other header. |
| `Coordinator.Settle` | src/services/api.ts:37-41 | One queued caller is settled for itself: rejected with the error when there is one, otherwise replayed with its own URL and `Authorization: Bearer <token>`. |
| `Coordinator.Drain` | src/services/api.ts:36-43 | `processQueue` makes exactly one settlement per queued caller. |
| `Coordinator.DrainSettlesInOrder` | src/services/api.ts:35-45 | The i-th settlement is for the i-th queued caller (FIFO). With an error, every caller is rejected with it; otherwise every caller re-sends its own request with `Bearer <token>`. |
| `Coordinator.ProcessQueue` | src/services/api.ts:35-45 | After `processQueue`, the queue is empty. One settlement is appended per queued caller, in queue order, after the earlier settlements, and each is that caller's `Settle`. Nothing else in the state changes. |
| `Coordinator.OnResponseError` | src/services/api.ts:49-107 | Only an auth failure with a stored token touches the flag, the queue, the leader or the refresh endpoint. Any other error settles its caller at once: with the original error when no token is stored, otherwise with the mapped rejection, plus one `signOut` for every 401. A caller arriving during a refresh is appended to the end of the queue and makes no call. A caller finding no refresh becomes the leader, sets the flag and makes one refresh call with the stored token. The store, the default header and the update callback are untouched. |
| `Coordinator.OnStoreReadFailure` | src/services/api.ts:50-52 | An auth failure whose read of the token store rejects settles its caller with the storage error. There is no `signOut`, and the flag, the queue, the leader and the refresh calls are unchanged. |
| `Coordinator.RefreshSucceeded` | src/services/api.ts:76-93 | The token is saved once and passed to `refreshTokenUpdated` once. The default header becomes `Bearer <token>`. The waiters, in queue order, re-send their requests with the token. Then the leader is resolved with its re-stamped configuration. Afterwards the flag is clear, the queue is empty and no `signOut` has been added. |
| `Coordinator.RefreshSucceededReplayingLeader` | src/services/api.ts:64-66 | The intended success step: as `RefreshSucceeded`, except that the leader, after the waiters, re-sends its request with `Bearer <token>` as the waiters do at lines 64-66. |
| `Coordinator.RefreshFailed` | src/services/api.ts:87-93 | The waiters, in queue order, and then the leader are rejected with the same error. `signOut` is called once for the cycle. Afterwards the flag is clear and the queue is empty. Nothing is saved or broadcast. |
| `Protocol.RunKeepsInv` | src/services/api.ts:32-93 | Every run keeps the invariant: the flag is set exactly while a leader waits, and the queue is empty whenever the flag is clear. |
| `Protocol.IdleQueueEmpty` | src/services/api.ts:44 | From the initial state, the queue is empty in every reachable idle state. |
| `Protocol.OneRefreshPerCycle` | src/services/api.ts:60-93 | Over any run, the refresh calls made equal the refresh outcomes that reached a waiting leader, plus one if a refresh is left in flight at the end and minus one if one was in flight at the start. |
| `Protocol.NoSecondRefreshWhileInFlight` | src/services/api.ts:60-72 | While a refresh is in flight, failing requests of any kind make no further refresh call. The flag stays set, the leader stays the same, and the queue only grows at its end. |
| `Protocol.RunConserves` | src/services/api.ts:35-107 | Over any run, the callers that are settled or waiting afterwards are, as a multiset, those before plus those that arrived. No caller is dropped or duplicated. |
| `Protocol.SettledExactlyOnce` | src/services/api.ts:35-107 | When callers are distinct, none is settled twice, and every arrival is settled or still waiting. Once the coordinator is idle, every arrival has been settled. |
| `Protocol.LateArrivalsQueue` | src/services/api.ts:60-71 | Auth failures arriving while a refresh is in flight only extend the queue, in arrival order. |
| `Protocol.ConcurrentFailuresOneRefresh` | src/services/api.ts:60-76 | Any number of auth failures from idle make exactly one refresh call, with the first caller's stored token. The first caller leads, and the rest wait in arrival order. |
| `Protocol.ConcurrentFailuresShareToken` | src/services/api.ts:60-93 | After such a batch and a successful refresh, there was one refresh call, one save and one update. Every waiter re-sends its request with `Bearer <token>` in arrival order, the leader is resolved with its re-stamped configuration, and there is no `signOut`. |
| `Protocol.ConcurrentFailuresShareError` | src/services/api.ts:60-93 | After such a batch and a failure reaching the leader's `catch` block directly (a failed save, or any failed call once the refresh bypasses the interceptor), there was one refresh call and exactly one `signOut`. Every caller, the waiters in arrival order and then the leader, is rejected with the same error. |
| `Protocol.ConcurrentFailuresEndpointRejects` | src/services/api.ts:76-106 | After such a batch, the refresh endpoint failing without a 401, as the code runs it: the interceptor rejects the refresh request with the mapped error and does not sign out. Then the `catch` block signs out once and rejects the waiters in arrival order, then the leader, with that same error. There was one refresh call, and nothing was saved or broadcast. |
| `Protocol.LeaderResolvedNotReplayed` | src/services/api.ts:86 | The success step as written resolves the leader (`Resolved`). The intended step re-sends it (`Replayed`). The two agree on everything else. |
| `Protocol.ConcurrentFailuresAllReplay` | src/services/api.ts:60-93 | With the intended success step after a batch, every caller, the waiters in arrival order and then the leader, re-sends its own request with `Bearer <token>`. There was one refresh call and one save. |
| `Protocol.RefreshEndpointUnauthorizedSignsOutTwice` | src/services/api.ts:50-98 | A 401 from the refresh endpoint that the interceptor settles at once leads to two `signOut` calls for one failed refresh. That is a 401 without an expiry marker, or an expiry-marked one with an empty store. The refresh request is settled first, then the waiters in queue order, then the leader, all with the same reason. |
| `Protocol.RefreshEndpointStoreReadFails` | src/services/api.ts:50-90 | An expiry-marked 401 from the refresh endpoint while the store cannot be read: the interceptor rejects the refresh request with the storage error and does not sign out. The `catch` block then signs out once and rejects the waiters and then the leader with that error. No further refresh call is made. |
| `Protocol.RefreshEndpointExpiredQueuesItself` | src/services/api.ts:60-76 | An expiry-marked 401 from the refresh endpoint, while a token is stored, queues the refresh request. After any number of further failing requests, the flag is still set, the leader is the same, no refresh call has been made and the refresh request is still in the queue. |
| `Service.Api.constructor` | src/services/api.ts:32-33 | The module starts idle, with an empty queue, no handlers and an empty log. |
| `Service.Api.ProcessQueue` | src/services/api.ts:35-45 | The loop over the queue appends exactly `Drain` of the old queue to the settlements, then empties the queue. Nothing else changes. |
| `Service.Api.OnResponseError` | src/services/api.ts:49-107 | The interceptor body, branch by branch. Its new state is `Coordinator.OnResponseError` of the old state, and it keeps the invariant. |
| `Service.Api.OnStoreReadFailure` | src/services/api.ts:50-52 | The interceptor body when the store read rejects. Its new state is `Coordinator.OnStoreReadFailure` of the old state, and it keeps the invariant. |
| `Service.Api.RefreshSucceeded` | src/services/api.ts:76-93 | The success branch and the `finally` block. The new state is `Coordinator.RefreshSucceeded` of the old state. |
| `Service.Api.RefreshFailed` | src/services/api.ts:87-93 | The `catch` branch and the `finally` block. The new state is `Coordinator.RefreshFailed` of the old state. |
| `Service.Api.RegisterInterceptTokenManager` | src/services/api.ts:47-49 | Registration appends one active response handler and returns a handle naming it. The coordinator state is unchanged. |
| `Service.Api.Unsubscribe` | src/services/api.ts:109-111 | The returned closure ejects its handler, as `Ejected` describes. The coordinator state is unchanged. |
| `Service.ThreeFailuresOneRefresh` | src/services/api.ts:60-93 | Three expired-token failures with "old" stored, then a refresh answering "new". The result is one refresh call with "old". "new" is saved, broadcast and becomes `Bearer new` on the default header. Callers 2 and 3 replay in order with `Bearer new`, caller 1 is resolved with its re-stamped configuration, and there is no `signOut`. |
| `Service.ThreeFailuresRefreshRejected` | src/services/api.ts:76-106 | The same three failures, then the refresh endpoint answers 500 with message "internal". The refresh request's error passes through the interceptor first and is rejected with `AppError("internal")`, with no `signOut`. Then the `catch` block makes one `signOut` and rejects callers 2, 3 and 1 with the same `AppError`. There was one refresh call and no update. |
| `Service.ThreeFailuresSaveFails` | src/services/api.ts:78-93 | The same three failures, then saving the new token fails. There is one `signOut`, no update, and callers 2, 3 and 1 are rejected with the storage failure. |
| `Service.ExpiredWithoutStoredToken` | src/services/api.ts:52-57 | With nothing stored, an expired token signs out once and rejects with the original error. No refresh call is made and the flag stays clear. |
| `Service.ExpiredStoreUnreadable` | src/services/api.ts:50-52 | When the store cannot be read, an expired token rejects the caller with the storage error. There is no `signOut` and no refresh call, and the flag stays clear. |
| `Service.UnsubscribeTwice` | src/services/api.ts:109-111 | Ejecting the registered interceptor twice leaves the handlers as ejecting it once does. |

## Left out

- The React screens, `AuthContext` and the AsyncStorage wrappers are not part of this
  model. Reading the store is the `storedToken` input of an `ErrorResponse` event, and a read that rejects is a `StoreReadFailed` event. Writing
  it is the `savedTokens` log, and a failed write is the `StorageFailure` rejection.
- The axios transport, the refresh endpoint and the replayed requests are not modelled as
  calls. A refresh call is an entry in `refreshCalls`, its outcome is a later event, and a
  replay is the `Replayed(config)` settlement. What a replayed request then returns is not
  modelled.
- Promise scheduling is not modelled. Settling a promise is recorded at the moment the code
  calls `resolve` or `reject`. The microtasks that later run the `.then`/`.catch` chains
  are not separate steps, and they run in the same order.
- The callbacks `signOut` and `refreshTokenUpdated` are counted and logged. Their own
  effects, and the case where one of them throws, are left out.
- The pass-through success handler (`Response => Response`) is not modelled, and neither is
  the order in which several registered response handlers would be chained. An
  `ErrorResponse` or `StoreReadFailed` event is one run of the interceptor and presupposes
  that the interceptor is registered. `Service.Api.responseHandlers` records registration
  and ejection, but the interceptor's steps do not consult it, so the model does not
  capture that an ejected interceptor no longer runs.
- Only the `message` field of an error body is modelled. A falsy body (`null`, `undefined`,
  `""`, `0`) is modelled as no body, so the error is rejected unchanged (line 105). A body whose
  `message` is not a string (a missing `message`, a number, a body that is itself a
  non-empty string) is modelled as `Body(None)`. The message value passed to `AppError` in
  those cases is not modelled. A request configuration is its URL and headers.
- The refresh response is taken to carry a string `token`. `Coordinator.TokenText` also
  covers the `token = null` default of `processQueue` (a waiter would then send
  `Bearer null`). No event of this model reaches that case, because a success event always
  carries a string token. A response without a token is not modelled.
