# A Dafny model of the reverse proxy's state machines

The proxy forwards HTTP requests from clients to the backends of its sites. This project models the parts of it in
which many things happen at once or in which state changes in place, and states and proves what they keep:

- **Limiter.dfy, LimiterRuns.dfy, LimiterOutcomes.dfy**: each site has a number of backend slots and a queue of requests that wait for one.
  Limits change while requests wait, waiters time out or give up, and deleted sites drain. Every method holds one
  mutex, so a run is a sequence of atomic operations, and the theorems are about all runs.
- **Proxy.dfy, ProxyInvariant.dfy, ProxyTheorems.dfy, ProxyOrder.dfy, ProxyOutcome.dfy, ProxyFlow.dfy, ProxyFault.dfy,
  ProxyObject.dfy**: one proxied request is a set of chains of asynchronous operations (setting up, upload, response,
  upgrade, two tunnel directions, error response) that share flags, two counters, buffers and the backend stream. All
  callbacks run on one strand. `Step` gives the effect of one callback, chosen freely among the outstanding operations;
  `ProxyObject.Transaction` is the object with its fields and callbacks, whose `Dispatch` is proved to keep the invariant
  and whose `Drive` carries the theorems about runs over to it. What must not happen (a stream destroyed in use, a stream
  pooled too early, an operation on a missing stream or with a missing buffer, a chain overtaking itself, completion with
  something outstanding) is recorded as a fault at the place where it would happen; the theorems say which faults occur.
  Further theorems are about the order of the operations and that a request header is not sent twice, about what follows
  each operation and what the completion handler is told, and about the bytes that upload and tunnel carry.
- **RateLimiter.dfy, RateLimiterRuns.dfy, RateLimiterCleanup.dfy, RateLimiterRetry.dfy**: a token bucket per client with
  bans, a list in the order of the last checks that must agree with a map, a periodic cleanup and an eviction; how much
  is admitted, that the cleanup cannot be observed, and what the answers promise to a client that waits.
- **ConfigStore.dfy, ServerReload.dfy, ConfigService.dfy, ReloadLimits.dfy**: a configuration change prepares the new
  runtime, writes the database and then commits, so that what is stored and what is served advance together; listeners
  are opened before and retired after, and the backend limiter learns the new limits.
- **ConnectionPool.dfy**: who owns a pooled backend stream, and the deadline of the thread that closes idle ones.
- **ClientIp.dfy**: address ranges as masks and as leading bits, and the walk over a forwarded-for chain.
- **Router.dfy**: which site serves a host name.
- **UrlAuth.dfy**: signed URLs, from signing over parsing to the rewritten target.
- **LogFiles.dfy, LogQueue.dfy**: log rotation and reading the last lines back; the bounded queue of log events and its
  writer.
- **Texts.dfy, Folds.dfy, Options.dfy**: splitting and joining texts, runs of a step over a list, and optional values.

Where the program changes things in place there is a class with the same fields whose methods are proved equal to
specification functions; the theorems are lemmas about those functions, over every input, every reachable state or every
run. Time and tokens are real numbers, integers are unbounded where the program's cannot wrap, and code outside the model
(validation of records, the digest, address parsing, the library's sort) is a function that the members take as a
parameter, with what is assumed of it as a precondition.

Eight properties that one might expect do not hold of the program for all inputs. For each there is a lemma with inputs
or a run that shows it, and the exact condition under which it does hold: live permits within the limit and exact
counts, which `clear` breaks (`ClearCanExceedTheLimit`, `ConservedIff`), the stream and the single client writer during
an upload (`UploadCanFault`, `FaultFreeIff`, `OneClientWriterIff`), the admission bound with short bans
(`ShortBanExceeds`, `BoundIff`), the wait that a banned client is told (`BanAnswerCanBeShort`, `RetryIff`), the pool's
next deadline as the earliest (`DeadlineCanBeLate`, `EarliestIff`), the client of a forwarded-for header with more than
64 entries (`ForgedEntriesDecide`, `AnswerIsRightIff`), signatures whose texts contain `&` (`CutShortIsRefused`,
`SignedIsAcceptedIff`), and log events that are neither written nor counted when the writer fails (`FailureLosesEvents`,
`NothingIsLostIff`).

What is assumed of the surroundings:

- Limiter: a site's limit is at least 1 (src/routing/VirtualHostRouter.cpp:67-70), and allocating a permit fails only in
  the hand-over of a release, which handles it.
- Proxy: the serializer asks for a buffer only while the body has more and is done only when it has no more, a request
  body is complete only when it was read without error, and a callback that throws does so before it starts anything. A
  transaction with a fault has undefined behaviour and takes no further step.
- Rate limiter: clock readings are not negative and do not go back, although the program reads the clock before it takes
  the lock (src/policy/RequestPolicy.cpp:163-164).
- Reload: a database transaction writes everything or nothing, and rows come back ordered by id.
- Logs: a line holds no line break, and renaming a file that exists succeeds.

## Model

| member | source | states |
|---|---|---|
| `ConcurrencyLimiter.Limiter.constructor` | src/proxy/BackendConcurrencyLimiter.cpp:28-48 | a new limiter has no site and no waiter |
| `ConcurrencyLimiter.Limiter.TryComplete` | src/proxy/BackendConcurrencyLimiter.cpp:112-115 | the compare-exchange on a waiter succeeds exactly if it was not completed, and then completes it |
| `ConcurrencyLimiter.Limiter.PromoteWaiters` | src/proxy/BackendConcurrencyLimiter.cpp:109-118 | the promotion loop takes the longest prefix of the queue that fits under the limit, completes exactly those waiters and counts them active |
| `ConcurrencyLimiter.Limiter.Configure` | src/proxy/BackendConcurrencyLimiter.cpp:98-118 | new limits are stored, the site is no longer retired, and waiters that now fit are promoted before anyone else |
| `ConcurrencyLimiter.Limiter.AsyncAcquire` | src/proxy/BackendConcurrencyLimiter.cpp:96-138 | the whole new state and who is granted: after promotion the caller gets a free slot, is refused by a full queue, or waits at the end |
| `ConcurrencyLimiter.Limiter.HandOver` | src/proxy/BackendConcurrencyLimiter.cpp:170-194 | one critical section of release: above the limit the slot disappears, else it goes to the first waiter, else it is given back; a drained retired site is removed |
| `ConcurrencyLimiter.Limiter.Release` | src/proxy/BackendConcurrencyLimiter.cpp:166-222 | with any number of failing permit allocations the hand-over goes on to the next waiter; who is lost, who is granted, and the final state |
| `ConcurrencyLimiter.Limiter.CancelPending` | src/proxy/BackendConcurrencyLimiter.cpp:251-274 | exactly the queued waiter is taken out, the others keep their order, a drained retired site is removed |
| `ConcurrencyLimiter.Limiter.TimeoutPending` | src/proxy/BackendConcurrencyLimiter.cpp:276-305 | as for a cancel, counted as rejected and timed out |
| `ConcurrencyLimiter.Limiter.UpdateLimits` | src/proxy/BackendConcurrencyLimiter.cpp:330-366 | an unknown site is left alone; otherwise new limits and promotion |
| `ConcurrencyLimiter.Limiter.RetainSites` | src/proxy/BackendConcurrencyLimiter.cpp:368-384 | sites outside the list are retired, and removed at once if unused; the others do not change |
| `ConcurrencyLimiter.Limiter.Clear` | src/proxy/BackendConcurrencyLimiter.cpp:386-407 | every waiter is completed and every site forgotten |
| `ConcurrencyLimiter.LastHandOver` | src/proxy/BackendConcurrencyLimiter.cpp:181-193 | the recursive release without further failures is one hand-over |
| `ConcurrencyLimiter.FailedHandOver` | src/proxy/BackendConcurrencyLimiter.cpp:208-222 | a failed allocation is a hand-over followed by another release |
| `ConcurrencyLimiter.PromotionKeepsValid` | src/proxy/BackendConcurrencyLimiter.cpp:107-118 | promotion keeps queues duplicate-free, in arrival order and holding exactly uncompleted waiters |
| `ConcurrencyLimiter.AcquireKeepsValid` | src/proxy/BackendConcurrencyLimiter.cpp:96-138 | an acquire keeps the state valid |
| `ConcurrencyLimiter.ReleaseKeepsValid` | src/proxy/BackendConcurrencyLimiter.cpp:170-194 | a release keeps the state valid |
| `ConcurrencyLimiter.RemoveKeepsValid` | src/proxy/BackendConcurrencyLimiter.cpp:260-271 | a cancel or a timeout keeps the state valid |
| `ConcurrencyLimiter.StepKeepsValid` | src/proxy/BackendConcurrencyLimiter.cpp:97-399 | every operation keeps the state valid |
| `LimiterRuns.StepKeepsInv` | src/proxy/BackendConcurrencyLimiter.cpp:97-399 | every operation keeps the invariant of a run: order of slots, no idle capacity, every call accounted for, settled at most once |
| `LimiterRuns.RunInv` | src/proxy/BackendConcurrencyLimiter.cpp:97-399 | the invariant holds in every state of every run |
| `LimiterRuns.SlotsInArrivalOrder` | src/proxy/BackendConcurrencyLimiter.cpp:105-137 | in every run the waiter ids that get slots of a site are strictly increasing, through grants, promotions, hand-overs, timeouts, cancels and limit changes |
| `LimiterRuns.NoOvertaking` | src/proxy/BackendConcurrencyLimiter.cpp:107-122 | when a request gets a slot every earlier request of its site has been settled |
| `LimiterRuns.NoIdleCapacity` | src/proxy/BackendConcurrencyLimiter.cpp:109-137 | in every reachable state a site with waiters has at least as many active slots as its limit |
| `LimiterRuns.RetiredSitesAreInUse` | src/proxy/BackendConcurrencyLimiter.cpp:174-193 | in every reachable state a retired site still has an active slot or a waiter |
| `LimiterRuns.SettledExactlyOnce` | src/proxy/BackendConcurrencyLimiter.cpp:112-126 | every request is settled exactly once, or still queued at its own site and not settled: the compare-exchange never loses |
| `LimiterRuns.CallsAreAccountedFor` | src/proxy/BackendConcurrencyLimiter.cpp:97-137 | calls = granted + rejected + cancelled + lost hand-overs + queued, over the life of a site in the map |
| `LimiterRuns.StepConserves` | src/proxy/BackendConcurrencyLimiter.cpp:116-190 | every operation except clear keeps active equal to the live permits |
| `LimiterRuns.ActiveCountsPermits` | src/proxy/BackendConcurrencyLimiter.cpp:116-190 | unless clear finds a live permit, active is the number of live permits of the site in every state |
| `LimiterRuns.ConservedIff` | src/proxy/BackendConcurrencyLimiter.cpp:386-400 | the active counts are exact in every state of a run if and only if every clear of the run finds no live permit |
| `LimiterRuns.ClearCanExceedTheLimit` | src/proxy/BackendConcurrencyLimiter.cpp:399 | for every limit n a run (n acquires, clear, one acquire) after which n + 1 permits are live under the limit n |
| `LimiterRuns.ActiveAtMostPermits` | src/proxy/BackendConcurrencyLimiter.cpp:386-400 | with clear, active never exceeds the live permits |
| `LimiterRuns.ClearConservesIffIdle` | src/proxy/BackendConcurrencyLimiter.cpp:386-400 | clear keeps the counts exact if and only if no permit is live |
| `LimiterRuns.GrantingCounts` | src/proxy/BackendConcurrencyLimiter.cpp:116-122 | an acquire or a limit change adds one active slot per waiter served and stays within the limit |
| `LimiterRuns.ReleasingCounts` | src/proxy/BackendConcurrencyLimiter.cpp:174-190 | a release hands its slot to at most one waiter or gives it back |
| `LimiterRuns.StepRespectsLimit` | src/proxy/BackendConcurrencyLimiter.cpp:116-122 | no operation raises active above the limit in force |
| `LimiterRuns.ReleaseMoves` | src/proxy/BackendConcurrencyLimiter.cpp:174-189 | a release brings every waiter of the site one place nearer, by a slot above the limit or by serving the first, or serves it |
| `LimiterRuns.ServedInTurn` | src/proxy/BackendConcurrencyLimiter.cpp:174-193 | in any run, with other sites, acquires, cancels of others, limit raises and retirement in between: a request that is not taken out of the queue, at a site whose limit is not lowered, has its slot after one release for every slot above the limit, every request before it and itself |
| `LimiterRuns.LoweredLimitIsApproached` | src/proxy/BackendConcurrencyLimiter.cpp:342-352 | while the limit stays at or below a bound, an active count above it only falls |
| `LimiterOutcomes.AcquireOutcome` | src/proxy/BackendConcurrencyLimiter.cpp:105-137 | what becomes of a caller, without the branches: a slot only with nobody waiting and within the limit, a refusal only at the limit and by a full queue, a place only as the last of a queue within its bound; exactly one of the three |
| `LimiterOutcomes.ServedWithinLimit` | src/proxy/BackendConcurrencyLimiter.cpp:109-193 | no operation serves a waiter at a site that is above its limit afterwards |
| `LimiterOutcomes.RefusalsSayWhy` | src/proxy/BackendConcurrencyLimiter.cpp:123-305 | who is refused by which operation, and with which reason |
| `LimiterOutcomes.TimeoutsAreCounted` | src/proxy/BackendConcurrencyLimiter.cpp:276-305 | the counter of timeouts goes up exactly when a queued waiter times out |
| `LimiterOutcomes.QueueStep` | src/proxy/BackendConcurrencyLimiter.cpp:120-131 | no operation but an acquire lengthens a queue, and that not beyond the bound of its caller |
| `LimiterOutcomes.QueueStaysWithin` | src/proxy/BackendConcurrencyLimiter.cpp:120-131 | in every run the queue of a site is at most as long as its callers allow |
| `ProxyObject.Transaction.constructor` | src/proxy/ProxyTransaction.hpp:322-344 | a new transaction satisfies the invariant; it waits for its permit and nothing else is outstanding |
| `ProxyObject.Transaction.Dispatch` | src/proxy/ProxyTransaction.hpp:346-1187 | one event on the object, through the handler of the operation that returned, a cancel or an exception: the invariant is kept or an upload used a missing stream; a decided transaction starts nothing and drains by one; a completed one keeps its result and is not called again |
| `ProxyObject.Transaction.Drive` | src/proxy/ProxyTransaction.hpp:346-1187 | the events of any run on the object: it goes through the states of the run, faults only with an upload, completes at most once and only with nothing pending |
| `ProxyInvariant.Starts` | src/proxy/ProxyTransaction.hpp:322-344 | a new transaction satisfies the invariant |
| `ProxyInvariant.Returns` | src/proxy/ProxyTransaction.hpp:257-279 | an operation that returns leaves counters, life cycle and chains consistent |
| `ProxyInvariant.Closes` | src/proxy/ProxyTransaction.hpp:1132-1149 | closing keeps them consistent and leaves no pending operation without a close request |
| `ProxyInvariant.Drains` | src/proxy/ProxyTransaction.hpp:1162-1171 | a decided transaction completes or still has an operation pending |
| `ProxyInvariant.Responds` | src/proxy/ProxyTransaction.hpp:1036-1059 | an error response keeps the invariant, with and without an upload beside it |
| `ProxyInvariant.PermitKeeps` | src/proxy/ProxyTransaction.hpp:357-396 | the permit callback keeps the invariant |
| `ProxyInvariant.ConnectingKeeps` | src/proxy/ProxyTransaction.hpp:413-443 | connecting a new stream keeps the invariant |
| `ProxyInvariant.TimerKeeps` | src/proxy/ProxyTransaction.hpp:445-451 | the connect timeout keeps the invariant |
| `ProxyInvariant.ResolvedKeeps` | src/proxy/ProxyTransaction.hpp:453-470 | the resolver callback keeps the invariant |
| `ProxyInvariant.ConnectNext` | src/proxy/ProxyTransaction.hpp:472-493 | the connect callback of a transaction that goes on keeps the invariant |
| `ProxyInvariant.HandshakeNext` | src/proxy/ProxyTransaction.hpp:495-506 | so does the handshake callback |
| `ProxyInvariant.HeaderNext` | src/proxy/ProxyTransaction.hpp:520-547 | so does the request header callback, retry included |
| `ProxyInvariant.RetryNext` | src/proxy/ProxyTransaction.hpp:524-536 | closing a stale pooled stream and connecting again keeps the invariant |
| `ProxyInvariant.ContinueNext` | src/proxy/ProxyTransaction.hpp:561-571 | so does the callback of the interim response, which starts upload and response side by side |
| `ProxyInvariant.SetupKeeps` | src/proxy/ProxyTransaction.hpp:472-571 | connect, handshake, request header and interim response keep the invariant |
| `ProxyInvariant.HeadReadNext` | src/proxy/ProxyTransaction.hpp:689-706 | the response header callback of a transaction that goes on keeps the invariant |
| `ProxyInvariant.AcceptNext` | src/proxy/ProxyTransaction.hpp:707-738 | accepting a response, also before the end of the upload, keeps the invariant |
| `ProxyInvariant.HeadSentNext` | src/proxy/ProxyTransaction.hpp:740-756 | so does the callback of the written response header |
| `ProxyInvariant.BodyReadNext` | src/proxy/ProxyTransaction.hpp:775-798 | so does the callback of a body part that was read |
| `ProxyInvariant.BodySentNext` | src/proxy/ProxyTransaction.hpp:800-828 | so does the callback of a body part that was written |
| `ProxyInvariant.FinishNormalNext` | src/proxy/ProxyTransaction.hpp:830-850 | the end of a response, with the stream pooled or closed, keeps the invariant |
| `ProxyInvariant.ResponseKeeps` | src/proxy/ProxyTransaction.hpp:689-850 | the response chain keeps the invariant, in every interleaving with an upload |
| `ProxyInvariant.RequestBodyReadKeeps` | src/proxy/ProxyTransaction.hpp:587-631 | the callback of a request body part that was read keeps the invariant or uses the missing stream |
| `ProxyInvariant.RequestBodyWrittenKeeps` | src/proxy/ProxyTransaction.hpp:633-643 | so does the callback of a part that was written |
| `ProxyInvariant.RequestBodyFinishedKeeps` | src/proxy/ProxyTransaction.hpp:661-670 | so does the callback of the last chunk |
| `ProxyInvariant.UploadKeeps` | src/proxy/ProxyTransaction.hpp:587-670 | an upload callback keeps the invariant or uses the missing stream of a transaction with an upload |
| `ProxyInvariant.UpgradeReadNext` | src/proxy/ProxyTransaction.hpp:865-896 | the callback of the upgrade response keeps the invariant |
| `ProxyInvariant.UpgradeNext` | src/proxy/ProxyTransaction.hpp:898-949 | so do the callbacks that tell the client and flush what was read ahead |
| `ProxyInvariant.TunnelBegins` | src/proxy/ProxyTransaction.hpp:951-963 | starting both directions of a tunnel keeps the invariant |
| `ProxyInvariant.UpgradeKeeps` | src/proxy/ProxyTransaction.hpp:865-949 | the upgrade keeps the invariant |
| `ProxyInvariant.OutKeeps` | src/proxy/ProxyTransaction.hpp:965-990 | the direction to the backend keeps the invariant |
| `ProxyInvariant.BackKeeps` | src/proxy/ProxyTransaction.hpp:1002-1025 | the direction to the client keeps the invariant |
| `ProxyInvariant.FailKeeps` | src/proxy/ProxyTransaction.hpp:1072-1081 | a failure before the response header keeps the invariant |
| `ProxyInvariant.EndNext` | src/proxy/ProxyTransaction.hpp:1027-1034 | closing the backend and deciding the end keeps the invariant |
| `ProxyInvariant.Decides` | src/proxy/ProxyTransaction.hpp:1151-1160 | once the end is decided the transaction completes or has an operation pending on a side that is being closed |
| `ProxyInvariant.ErrorWrittenKeeps` | src/proxy/ProxyTransaction.hpp:1061-1070 | the end of an error response keeps the invariant |
| `ProxyInvariant.CancelKeeps` | src/proxy/ProxyTransaction.hpp:346-355 | a cancel keeps the invariant |
| `ProxyInvariant.AbortKeeps` | src/proxy/ProxyTransaction.hpp:1091-1130 | an exception keeps the invariant |
| `ProxyInvariant.StepKeepsInv` | src/proxy/ProxyTransaction.hpp:346-1187 | every step outside the upload keeps the invariant |
| `ProxyInvariant.StepKeeps` | src/proxy/ProxyTransaction.hpp:346-1187 | every step keeps the invariant, or is that one fault |
| `ProxyTheorems.RunGood` | src/proxy/ProxyTransaction.hpp:346-1187 | every state of every run satisfies the invariant, up to that fault |
| `ProxyTheorems.OnlyFault` | src/proxy/ProxyTransaction.hpp:573-670 | in every run no stream is destroyed or pooled in use, none is pooled before the request was sent and the response read (section 9.3 of RFC 9112), no buffer is used before it was allocated, no chain overlaps itself, none completes in use; only the missing stream can occur, and only with an upload |
| `ProxyTheorems.CompletesAtMostOnce` | src/proxy/ProxyTransaction.hpp:1173-1187 | the completion handler is called at most once, and only with both counters at zero and nothing outstanding |
| `ProxyTheorems.CountersAreExact` | src/proxy/ProxyTransaction.hpp:247-279 | the counters are the numbers of outstanding operations, and backend operations have a stream and a permit |
| `ProxyTheorems.NeverStalls` | src/proxy/ProxyTransaction.hpp:346-1187 | a transaction that has not completed always waits for something |
| `ProxyTheorems.KeptAliveOnlyAfterWholeRequest` | src/proxy/ProxyTransaction.hpp:1036-1059 | the client connection is kept only after its whole request was read |
| `ProxyTheorems.BuffersAreDisjoint` | src/proxy/ProxyTransaction.hpp:573-670 | no two outstanding operations use the same transfer buffer |
| `ProxyTheorems.PooledOnlyWhenFinished` | src/proxy/ProxyTransaction.hpp:830-850 | a stream goes to the pool only after the whole request was sent and the whole response read, with nothing outstanding on it |
| `ProxyTheorems.OneOperationPerDirection` | src/proxy/ProxyTransaction.hpp:508-1025 | one writer at the backend and one reader at the client at a time; one writer at the client without an upload |
| `ProxyTheorems.DecidedStep` | src/proxy/ProxyTransaction.hpp:1151-1171 | once the end is decided no callback starts an operation, each counted return lowers the sum by one, and the step that brings it to zero completes |
| `ProxyTheorems.CompletedStep` | src/proxy/ProxyTransaction.hpp:1173-1187 | after completion nothing starts and the result stays |
| `ProxyTheorems.CompletesWhenDrained` | src/proxy/ProxyTransaction.hpp:1151-1171 | from the decision on, completion happens exactly when as many counted operations returned as were pending, in every interleaving |
| `ProxyTheorems.CompletionIsFinal` | src/proxy/ProxyTransaction.hpp:1173-1187 | the result that was handed over never changes |
| `ProxyOrder.MainHandled` | src/proxy/ProxyTransaction.hpp:472-949 | which operation follows which: for every callback of the main chain what it starts is a successor in the protocol, given configuration and outcome; only a first failure on a pooled stream that sent nothing connects again |
| `ProxyOrder.StepOrdered` | src/proxy/ProxyTransaction.hpp:346-1187 | every step of every chain keeps to that order, and to one request header for each connection |
| `ProxyOrder.MainFollowsProtocol` | src/proxy/ProxyTransaction.hpp:346-1187 | in every run and interleaving each operation of the main chain follows the one before it |
| `ProxyOrder.HeaderComesFirst` | src/proxy/ProxyTransaction.hpp:520-687 | in every run a response or an upgrade is read only after the whole request header was written |
| `ProxyOrder.HeaderNotRepeated` | src/proxy/ProxyTransaction.hpp:520-536 | in every run a second request header is started only after a first one failed on a pooled stream without sending anything |
| `ProxyOrder.HeaderAtMostTwice` | src/proxy/ProxyTransaction.hpp:520-536 | and a third never |
| `ProxyOutcome.MainGoesWell` | src/proxy/ProxyTransaction.hpp:472-949 | the protocol of the main chain: what comes next after each operation that succeeds, with the upload beside the response and both directions of a tunnel, and nothing else |
| `ProxyOutcome.AcceptedOutcome` | src/proxy/ProxyTransaction.hpp:707-738 | a final response header: status, length, early end of the upload, and which of the two connections may still be kept |
| `ProxyOutcome.BodyReadNotes` | src/proxy/ProxyTransaction.hpp:775-798 | a body part that was read is in the buffer, and whether more comes is noted |
| `ProxyOutcome.UpgradeNotes` | src/proxy/ProxyTransaction.hpp:865-896 | an accepted upgrade answers 101 and has both buffers |
| `ProxyOutcome.MainFailsAs` | src/proxy/ProxyTransaction.hpp:1036-1081 | an operation before the response header that fails is answered: 504 or 502, 502 for an unexpected upgrade, 503 without memory; whether the client connection survives it |
| `ProxyOutcome.HeaderIsRetried` | src/proxy/ProxyTransaction.hpp:520-536 | a header that failed on a pooled stream without being sent is retried once on a new connection |
| `ProxyOutcome.ResponseEndsAs` | src/proxy/ProxyTransaction.hpp:740-850 | a response that is over ends with its own status; the client connection is kept and the stream pooled exactly if the whole request was sent and each side allows it; a failure ends without another response |
| `ProxyOutcome.PermitOutcome` | src/proxy/ProxyTransaction.hpp:357-443 | the permit: 503, a header on a pooled stream, or a new connection with timer and resolver |
| `ProxyOutcome.ResolvedOutcome` | src/proxy/ProxyTransaction.hpp:453-470 | a resolved name is connected to, a failure answered with 504 or 502 |
| `ProxyOutcome.TimerOutcome` | src/proxy/ProxyTransaction.hpp:445-451 | the timer answers 504 while connecting and does nothing later |
| `ProxyOutcome.ErrorOutcome` | src/proxy/ProxyTransaction.hpp:1061-1070 | a written error response ends the transaction with its status |
| `ProxyOutcome.CancelOutcome` | src/proxy/ProxyTransaction.hpp:346-355 | a cancel ends with the status there is or 499, an exception with it or 500; what the client connection still does is stopped |
| `ProxyOutcome.VerdictStands` | src/proxy/ProxyTransaction.hpp:1151-1187 | in every run the completion handler is told what was decided, unless a cancel or an exception decides anew |
| `ProxyFlow.OutOutcome` | src/proxy/ProxyTransaction.hpp:965-990 | what was read from the client is written to the backend, all of it, and then more is read; a failure ends the tunnel |
| `ProxyFlow.BackOutcome` | src/proxy/ProxyTransaction.hpp:1002-1025 | the same from the backend to the client |
| `ProxyFlow.TunnelConserves` | src/proxy/ProxyTransaction.hpp:951-1025 | in every run, in both directions: the bytes read are the bytes written and those in hand |
| `ProxyFlow.BodyReadOutcome` | src/proxy/ProxyTransaction.hpp:587-631 | a part of the request body is sent on as it is, ends the upload, or is answered with 413, 408 or 400 |
| `ProxyFlow.BodySentOutcome` | src/proxy/ProxyTransaction.hpp:633-643 | a part that was sent is followed by the next or by the end |
| `ProxyFlow.BodyFinishedOutcome` | src/proxy/ProxyTransaction.hpp:645-670 | the last chunk completes the upload |
| `ProxyFlow.BodyConserves` | src/proxy/ProxyTransaction.hpp:587-643 | in every run the bytes of the request body that were read are those sent and those unsent |
| `ProxyFlow.CompleteIsSent` | src/proxy/ProxyTransaction.hpp:587-670 | when the upload is complete, everything that was read has been sent, with the last chunk if it is chunked |
| `ProxyFault.UploadCanFault` | src/proxy/ProxyTransaction.hpp:587-630 | for every configuration with an upload, a run that uses the stream after an error response destroyed it |
| `ProxyFault.UploadCanWriteTwice` | src/proxy/ProxyTransaction.hpp:1036-1059 | and a run with two error responses being written at once |
| `ProxyFault.FaultFreeIff` | src/proxy/ProxyTransaction.hpp:540 | all runs use only a stream that is present if and only if the body is already complete or the request is a WebSocket upgrade |
| `ProxyFault.OneClientWriterIff` | src/proxy/ProxyTransaction.hpp:1036-1081 | all runs write to the client with one operation at a time under exactly the same condition |
| `RateLimiter.Limiter.constructor` | src/policy/RequestPolicy.cpp:142-156 | a new limiter is empty and refills a whole bucket in a window |
| `RateLimiter.Create` | src/policy/RequestPolicy.cpp:142-156 | settings out of range are refused |
| `RateLimiter.Limiter.CheckRequest` | src/policy/RequestPolicy.cpp:158-190 | the whole new state and the answer of a check, cleanup every 1024 checks included |
| `RateLimiter.Limiter.CleanUp` | src/policy/RequestPolicy.cpp:237-248 | the cleanup loop removes exactly the stale entries from map and list |
| `RateLimiter.CheckKeepsListed` | src/policy/RequestPolicy.cpp:165-190 | the list always holds exactly the clients of the map, each once |
| `RateLimiterRuns.TakeLevel` | src/policy/RequestPolicy.cpp:191-218 | what a check admits comes off the level of its client |
| `RateLimiterRuns.CheckLevel` | src/policy/RequestPolicy.cpp:158-218 | the same for the whole limiter, whatever other clients, cleanups and evictions of others do |
| `RateLimiterRuns.AdmissionBound` | src/policy/RequestPolicy.cpp:170-218 | a client that is not evicted is admitted at most max + d * max / window times in any interval of length d, if a ban is 0 or at least the window |
| `RateLimiterRuns.ShortBanExceeds` | src/policy/RequestPolicy.cpp:194-198 | for every shorter ban there is a run that breaks the bound |
| `RateLimiterRuns.BoundIff` | src/policy/RequestPolicy.cpp:194-198 | the bound holds in every run if and only if the ban is 0 or at least the window |
| `RateLimiterRuns.StaleIsNew` | src/policy/RequestPolicy.cpp:237-246 | a stale entry and no entry lead to the same answer and the same new entry |
| `RateLimiterRuns.CheckAdmitsIff` | src/policy/RequestPolicy.cpp:158-218 | a check admits exactly if there is no ban and a whole token, takes exactly that token, and bans for exactly the ban |
| `RateLimiterRuns.CheckLeavesOthers` | src/policy/RequestPolicy.cpp:158-218 | and leaves the tokens of every other client alone, unless it evicts it |
| `RateLimiterCleanup.ShadowsStep` | src/policy/RequestPolicy.cpp:165-190 | a limiter that cleans up and one that does not stay equal up to stale entries |
| `RateLimiterCleanup.CleanupIsInvisible` | src/policy/RequestPolicy.cpp:237-248 | with at most 65536 clients all answers are those of a limiter that never cleans up |
| `RateLimiterCleanup.ListIsInCheckOrder` | src/policy/RequestPolicy.cpp:189-190 | in every run the list is duplicate-free, holds exactly the clients of the map and is in the order of last checks |
| `RateLimiterCleanup.EvictsTheOldest` | src/policy/RequestPolicy.cpp:170-175 | in every run who is evicted is the client checked longest ago, and the map was full |
| `RateLimiterCleanup.MapStaysSmall` | src/policy/RequestPolicy.cpp:170-175 | in every run the map has at most 65536 entries |
| `RateLimiterCleanup.CleanupIsRegular` | src/policy/RequestPolicy.cpp:165-168 | after every 1024th check only its client and clients that are banned or came not long ago have an entry |
| `RateLimiterRetry.WaitSuffices` | src/policy/RequestPolicy.cpp:191-217 | one bucket, with bans of at most a second: a client that waits as long as it was told is admitted |
| `RateLimiterRetry.BanAnswerSufficesIff` | src/policy/RequestPolicy.cpp:228-235 | during a ban the answer is enough if and only if the ban does not last a whole number of seconds and a part of a millisecond |
| `RateLimiterRetry.RetrySucceeds` | src/policy/RequestPolicy.cpp:158-218 | the same over runs: at its next check a client that waited is admitted, whatever other clients, cleanups and evictions did meanwhile |
| `RateLimiterRetry.BanAnswerCanBeShort` | src/policy/RequestPolicy.cpp:228-235 | for every longer ban a run in which a client that waited as long as it was told is refused again |
| `RateLimiterRetry.RetryIff` | src/policy/RequestPolicy.cpp:191-235 | every refused client that waits as long as it was told is admitted at its next check, in every run, if and only if the ban is at most one second |
| `RateLimiterRetry.WaitIsLeast` | src/policy/RequestPolicy.cpp:191-235 | no answer is longer than needed: a client that comes a second or more before its time is refused again |
| `RateLimiterRetry.EarlyIsRefused` | src/policy/RequestPolicy.cpp:158-235 | the same over runs, whatever other clients and the cleanup did meanwhile, unless the client was evicted |
| `ConfigStore.WriteIsDraft` | src/config/ConfigService.cpp:290-342 | every change writes exactly the records of its candidate, ids included |
| `ConfigStore.UpdateIsReplace` | src/database/ConfigRepository.cpp:441-499 | updating the rows of an id is replacing the one record |
| `ConfigStore.InsertIsNumbered` | src/database/ConfigRepository.cpp:686-740 | a restored backup gets the ids that the service predicted |
| `ConfigStore.WriteKeepsValid` | src/database/ConfigRepository.cpp:376-510 | rows stay ordered by distinct ids and automatic ids only grow |
| `ConfigStore.DraftIff` | src/config/ConfigService.cpp:290-342 | which changes can be made at all |
| `ConfigStore.ChangeIsMade` | src/config/ConfigService.cpp:290-342 | what each change makes of the records: what is new, and that every other record is as it was |
| `ConfigStore.RuntimeSitesIff` | src/config/ConfigService.cpp:761-818 | what is published are the normalized forms of the enabled records, of all of them and of no other; nothing if one is invalid |
| `ConfigStore.RuntimeSitesInOrder` | src/config/ConfigService.cpp:761-818 | and in the order of the records |
| `ServerReload.OpenThenSplit` | src/core/ServerCore.cpp:211-277 | opening the missing listeners and splitting off the others makes exactly the difference of the port sets |
| `ServerReload.ServerCore.Start` | src/core/ServerCore.cpp:79-134 | succeeds exactly if the server was not started and every published port can be bound; then it listens on exactly those ports, else it opens nothing and is stopping |
| `ServerReload.ServerCore.OpenListeners` | src/core/ServerCore.cpp:211-234 | a listener per missing port, the existing ones unchanged; fails exactly if a missing port cannot be bound |
| `ServerReload.ServerCore.SplitListeners` | src/core/ServerCore.cpp:236-277 | the listeners of other ports are listed once each and taken out |
| `ServerReload.ServerCore.PrepareReload` | src/core/ServerCore.cpp:136-278 | succeeds exactly if the configuration is acceptable, the server is not stopping and every missing port can be bound; nothing that is in use changes, and a failure stops every listener it started |
| `ServerReload.ServerCore.Drop` | src/core/ServerCore.cpp:151-155 | a prepared reload that is dropped stops every listener it started |
| `ServerReload.ServerCore.Commit` | src/core/ServerCore.cpp:280-314 | the maps have exactly the new ports, common ports keep their listener, each removed listener is retired, and no listener twice over the life of the server; the configuration is published |
| `ServerReload.ServerCore.RetiredOnce` | src/core/ServerCore.cpp:236-306 | what a commit retires was never retired before and serves no port afterwards |
| `ServerReload.ServerCore.ForgetRetired` | src/core/ServerCore.cpp:243-250 | a drained listener is forgotten and no other |
| `ConfigService.ApplyKeeps` | src/config/ConfigService.cpp:290-342 | every change keeps stored and published configuration consistent |
| `ConfigService.AllOrNothing` | src/config/ConfigService.cpp:820-849 | a change leaves both alone or advances both to the same candidate, whatever fails |
| `ConfigService.PublishedIsStored` | src/config/ConfigService.cpp:820-849 | in every run, while the data plane is up, stored, active and published revision agree and published sites and settings are built from the stored ones |
| `ConfigService.StoredSpecIff` | src/config/ConfigService.cpp:761-818 | a configuration can be built exactly if all records and the settings are valid |
| `ConfigService.CandidateIff` | src/config/ConfigService.cpp:820-849 | a change has a candidate exactly if it can be made, and what it makes can be built and served: every site with a protocol, no port for both |
| `ConfigService.PublishedSites` | src/config/ConfigService.cpp:761-849 | in every run, while the data plane is up, a site is published exactly if an enabled record of it is stored |
| `ConfigService.IdsAreNotReused` | src/database/ConfigRepository.cpp:376-385 | an id that is no longer in use is never in use again, in any run |
| `ConfigService.Service.BuildRuntimeSpec` | src/config/ConfigService.cpp:761-818 | the enabled sites, normalized, in order; nothing if any record is invalid |
| `ConfigService.Service.Activate` | src/config/ConfigService.cpp:820-849 | prepare, write, commit: all three or none, and all three exactly if the core can prepare and the database writes |
| `ConfigService.Service.Publish` | src/config/ConfigService.cpp:297-302 | a change succeeds exactly if its candidate is acceptable, the core can prepare it (with a data plane) and the database writes; a failure leaves everything as it was |
| `ConfigService.Service.CreateSite` | src/config/ConfigService.cpp:290-303 | the same condition; the new site has the predicted id |
| `ConfigService.Service.UpdateSite` | src/config/ConfigService.cpp:305-323 | the same condition; an unknown site is refused, a known one replaced |
| `ConfigService.Service.DeleteSite` | src/config/ConfigService.cpp:325-342 | the same condition; an unknown site is refused, a known one is gone |
| `ConfigService.Service.UpdateRuntimeSettings` | src/config/ConfigService.cpp:450-461 | the same condition; new settings are stored and published together |
| `ConfigService.Service.ImportConfiguration` | src/config/ConfigService.cpp:693-701 | the same condition; a backup replaces everything or nothing |
| `ConfigService.Service.ReloadRuntime` | src/config/ConfigService.cpp:841-849 | the stored configuration is published again exactly if there is a data plane that can prepare it; nothing is written |
| `ConfigService.Service.SetReloadHandler` | src/config/ConfigService.cpp:244-250 | from a data plane that serves what is stored, changes go through it: the start of a run |
| `ConfigService.Service.MarkRuntimeUnavailable` | src/config/ConfigService.cpp:252-256 | without a data plane the active revision is 0 |
| `ReloadLimits.CommitLimits` | src/core/ServerCore.cpp:284-294 | the loop over the sites and the call after it, on the limiter itself |
| `ReloadLimits.UpdatedHere` | src/core/ServerCore.cpp:284-292 | a known site has its new limits and is not retired |
| `ReloadLimits.CommittedSites` | src/core/ServerCore.cpp:284-294 | after a commit a site is retired exactly if it is not configured, and then still in use; a configured one has the configured limits |
| `ReloadLimits.CommitDropsOnlyUnused` | src/core/ServerCore.cpp:293-294 | no configured site and none with requests is dropped |
| `ReloadLimits.CommitIsARun` | src/core/ServerCore.cpp:284-294 | a commit keeps everything that every run of the limiter keeps |
| `ConnectionPool.StepKeeps` | src/proxy/BackendConnectionPool.cpp:114-249 | every step keeps the ownership of streams, no empty lists and the witness of the deadline |
| `ConnectionPool.RunInv` | src/proxy/BackendConnectionPool.cpp:114-249 | they hold in every state of every run |
| `ConnectionPool.EachStreamInOnePlace` | src/proxy/BackendConnectionPool.cpp:114-249 | an idle stream is under its own key, once, in no other list and not held by any call |
| `ConnectionPool.DeadlineIsWitnessed` | src/proxy/BackendConnectionPool.cpp:128-171 | no key has an empty list, and a set deadline is that of an idle connection |
| `ConnectionPool.HandedOutInTime` | src/proxy/BackendConnectionPool.cpp:136-141 | a stream is handed out only before its deadline, within the caller's limit and if it is reusable |
| `ConnectionPool.ClosedStaysClosed` | src/proxy/BackendConnectionPool.cpp:142 | a closed stream is never used again |
| `ConnectionPool.SweepClosesExpired` | src/proxy/BackendConnectionPool.cpp:225-240 | a sweep closes exactly the idle streams whose deadline has passed |
| `ConnectionPool.ReleaseOutcome` | src/proxy/BackendConnectionPool.cpp:146-181 | a stream is kept exactly if it is reusable, has time to live, the pool goes on and fewer of its key are idle than allowed; with its own deadline; else it is closed |
| `ConnectionPool.ReleaseThenTake` | src/proxy/BackendConnectionPool.cpp:121-181 | a stream that is kept is the next of its key to be taken, and the lists are as before |
| `ConnectionPool.SettleOutcome` | src/proxy/BackendConnectionPool.cpp:134-142 | a connection that was taken is used exactly if both deadlines allow it |
| `ConnectionPool.ListsStayWithin` | src/proxy/BackendConnectionPool.cpp:163 | in every run at most as many connections of a key are idle as the releases of that key allow |
| `ConnectionPool.EarliestKeptIff` | src/proxy/BackendConnectionPool.cpp:168-171 | a step makes the deadline later than the earliest if and only if it releases a connection while none is set and an idle one expires before it |
| `ConnectionPool.EarliestIff` | src/proxy/BackendConnectionPool.cpp:127-171 | the deadline is the earliest in every state of a run if and only if no step of it does so |
| `ConnectionPool.DeadlineCanBeLate` | src/proxy/BackendConnectionPool.cpp:127-171 | a run that does so |
| `ConnectionPool.Connections.constructor` | src/proxy/BackendConnectionPool.cpp:101-102 | a new pool is empty and has no deadline |
| `ConnectionPool.Connections.TakeIdle` | src/proxy/BackendConnectionPool.cpp:121-133 | the connection released last is taken, an empty list removed, a deadline that may be its own cleared |
| `ConnectionPool.Connections.GiveBack` | src/proxy/BackendConnectionPool.cpp:146-181 | a stream is kept exactly if it is reusable, there is room and the pool is not stopping |
| `ConnectionPool.Connections.TakeAll` | src/proxy/BackendConnectionPool.cpp:183-190 | clear takes everything |
| `ConnectionPool.Connections.FindDeadline` | src/proxy/BackendConnectionPool.cpp:203-211 | the reaper finds the earliest deadline, or none if nothing is idle |
| `ConnectionPool.Connections.SweepExpired` | src/proxy/BackendConnectionPool.cpp:225-241 | the sweep loops keep exactly what has not expired, in order, and no empty list |
| `AddressRanges.WordTest` | src/network/ClientIpResolver.cpp:44-49 | the 32-bit mask test compares the leading bits |
| `AddressRanges.SixteenBytesTest` | src/network/ClientIpResolver.cpp:50-57 | the byte and partial-byte test compares the leading bits of the 128-bit number |
| `AddressRanges.ContainsIsPrefixMatch` | src/network/ClientIpResolver.cpp:42-58 | an address is in a range exactly if it is of the same kind and its leading prefix bits are those of the network as integers |
| `AddressRanges.MaskTest` | src/policy/RequestPolicy.cpp:310-329 | masking with ones above zeros compares the leading bits |
| `ClientIpResolver.IsTrusted` | src/network/ClientIpResolver.cpp:79-82 | trusted means in one of the ranges |
| `ClientIpResolver.ParseChain` | src/network/ClientIpResolver.cpp:93-106 | the parsing loop gives the addresses of the first 64 entries, or none if one of them is invalid |
| `ClientIpResolver.FindClient` | src/network/ClientIpResolver.cpp:107-111 | the loop from the right is the walk |
| `ClientIpResolver.WalkIsRightmostUntrusted` | src/network/ClientIpResolver.cpp:107-112 | the walk returns the rightmost untrusted address of chain and peer, or the leftmost if all are trusted |
| `ClientIpResolver.LeftOfChainIsIgnored` | src/network/ClientIpResolver.cpp:107-112 | in a parsed chain, entries to the left of an untrusted address have no influence |
| `ClientIpResolver.FewEntriesAreRight` | src/network/ClientIpResolver.cpp:93-112 | a header of at most 64 entries: the answer is the rightmost untrusted address of all its entries and the peer |
| `ClientIpResolver.ForgedEntriesDecide` | src/network/ClientIpResolver.cpp:95 | a header of more than 64 entries in which the sender chose the answer: the entries after the 64th, written by trusted proxies, are not looked at |
| `ClientIpResolver.AnswerIsRightIff` | src/network/ClientIpResolver.cpp:93-112 | for headers of n entries, the answer is always the rightmost untrusted address of all entries and the peer if and only if n is at most 64 |
| `ClientIpResolver.FirstHeaderDecides` | src/network/ClientIpResolver.cpp:89-115 | the first header that says something decides: an address is the answer, a list is walked |
| `ClientIpResolver.NoHeaderDecides` | src/network/ClientIpResolver.cpp:89-117 | if none says anything the peer is the client |
| `ClientIpResolver.Resolve` | src/network/ClientIpResolver.cpp:84-118 | an untrusted peer is the client; else the first header that says something decides |
| `VirtualHostRouter.Build` | src/routing/VirtualHostRouter.cpp:108-136 | tables exactly for configurations whose domains are valid and distinct, holding exactly their bindings, longest suffix first |
| `VirtualHostRouter.EnterDomains` | src/routing/VirtualHostRouter.cpp:108-130 | the domains of one site |
| `VirtualHostRouter.EnterHolds` | src/routing/VirtualHostRouter.cpp:120-130 | a binding is refused exactly if its name is taken |
| `VirtualHostRouter.Find` | src/routing/VirtualHostRouter.cpp:139-154 | the scan returns the exact binding or the first suffix that covers |
| `VirtualHostRouter.FoundIffServed` | src/routing/VirtualHostRouter.cpp:139-154 | a site is found if and only if it has the exact binding, or there is none and it has the longest dot-boundary suffix |
| `VirtualHostRouter.PatternBinds` | src/routing/VirtualHostRouter.cpp:108-130 | what a pattern binds: the names below it, or its own name; which patterns are refused |
| `VirtualHostRouter.BindingsIff` | src/routing/VirtualHostRouter.cpp:108-130 | the bindings of a configuration are those of its patterns |
| `VirtualHostRouter.HostsValidIff` | src/routing/VirtualHostRouter.cpp:100-130 | bindings can be made exactly if every host is valid, has a domain, and all its domains are valid |
| `VirtualHostRouter.CoversIff` | src/routing/VirtualHostRouter.cpp:146-150 | a host is below a suffix exactly if a text and a dot before the suffix make it up |
| `VirtualHostRouter.OrderDoesNotMatter` | src/routing/VirtualHostRouter.cpp:108-154 | a configuration in any other order is accepted or refused alike, and every host gets the same answer, however the unstable sort arranges equal lengths |
| `UrlAuthenticator.ParseQuery` | src/policy/UrlAuthenticator.cpp:103-124 | the loop collects the parameters between the separators in order |
| `UrlAuthenticator.CleanedTarget` | src/policy/UrlAuthenticator.cpp:126-141 | the loop joins path and parameters |
| `UrlAuthenticator.RewrittenTargetReparses` | src/policy/UrlAuthenticator.cpp:126-141 | parsing the rewritten target again gives the same path, the same retained parameters in order and no auth_key |
| `UrlAuthenticator.FieldsOfKeyText` | src/policy/UrlAuthenticator.cpp:206-223 | the three searches find the four fields of a signature |
| `UrlAuthenticator.KeyTextOfFields` | src/policy/UrlAuthenticator.cpp:206-223 | and what they find is the text without its dashes |
| `UrlAuthenticator.SignedIsAccepted` | src/policy/UrlAuthenticator.cpp:187-271 | every signed URL in its window is accepted, with any other parameters around the signature, and these are passed on in order |
| `UrlAuthenticator.SignedIsAcceptedIff` | src/policy/UrlAuthenticator.cpp:187-271 | a signature is accepted if and only if its texts do not contain the separator of parameters |
| `UrlAuthenticator.AcceptedIsSigned` | src/policy/UrlAuthenticator.cpp:187-271 | an accepted protected URL carries exactly one auth_key, inside the window, whose digest is that of one of the keys |
| `UrlAuthenticator.CarryingIsAccepted` | src/policy/UrlAuthenticator.cpp:187-271 | and a URL that carries one is accepted |
| `UrlAuthenticator.UnprotectedIff` | src/policy/UrlAuthenticator.cpp:192-284 | a URL is left alone exactly if authentication is off, or neither everything nor its path is protected |
| `UrlAuthenticator.QueryKeeps` | src/policy/UrlAuthenticator.cpp:103-124 | which parameters are kept, and how many signatures are counted |
| `UrlAuthenticator.InTimeIff` | src/policy/UrlAuthenticator.cpp:230-240 | a signature is good exactly from 300 seconds before its time until its validity is over |
| `UrlAuthenticator.AcceptedIsWellFormed` | src/policy/UrlAuthenticator.cpp:205-228 | the form of an accepted signature |
| `UrlAuthenticator.SigningTextIsJoined` | src/policy/UrlAuthenticator.cpp:242-257 | what is signed, in which order |
| `UrlAuthenticator.NumberOfDecimal` | src/policy/UrlAuthenticator.cpp:230-233 | reading a timestamp is the inverse of writing it |
| `UrlAuthenticator.SigningTextInjective` | src/policy/UrlAuthenticator.cpp:242-257 | the signed text determines path, timestamp, random text, user and key |
| `UrlAuthenticator.SignatureIsBound` | src/policy/UrlAuthenticator.cpp:242-263 | two accepted URLs with the same digest have the same path, the same signed fields and the same key, unless the two texts that were signed for them differ and have the same digest |
| `Texts.SplitOfJoin` | src/policy/UrlAuthenticator.cpp:103-141 | splitting what was joined gives the parts back |
| `Texts.JoinOfSplit` | src/policy/UrlAuthenticator.cpp:103-124 | and joining what was split the text |
| `LogRotation.RotatingLog.constructor` | src/logging/LogManager.cpp:454-470 | what an earlier process left is kept |
| `LogRotation.OpenLog` | src/logging/LogManager.cpp:131-136 | limits out of range are refused |
| `LogRotation.RotatingLog.Rotate` | src/logging/LogManager.cpp:414-452 | an exact shift of all files, even if some are missing |
| `LogRotation.RotatingLog.WriteLine` | src/logging/LogManager.cpp:401-412 | the line is added, after a rotation exactly if it does not fit in a file that has one; a file is within its limit or holds one line |
| `LogRotation.RotatingLog.RecentLines` | src/logging/LogManager.cpp:206-237 | the last lines of all files together, in order, leaving out lines over 1 MiB; a limit out of range is refused |
| `LogRotation.RotationDropsOldest` | src/logging/LogManager.cpp:414-452 | a rotation drops the lines of the oldest file and nothing else |
| `LogRotation.RotatesIff` | src/logging/LogManager.cpp:401-406 | a file that has lines is rotated exactly if the next one would make it longer than the maximum |
| `LogRotation.FirstLineStays` | src/logging/LogManager.cpp:403 | an empty file takes any line |
| `LogRotation.LinesAreKept` | src/logging/LogManager.cpp:401-452 | no line is lost while there are at most as many rotations as rotated files: the files hold every line written, after exactly what the files rotated less often held |
| `LogRotation.LogIsBounded` | src/logging/LogManager.cpp:401-452 | after any writes no file is longer than the limit or the longest line, and the whole retained log has at most count + 1 times as many bytes |
| `LogRotation.FilesHoldTheEnd` | src/logging/LogManager.cpp:401-452 | after any writes and rotations the files, oldest to newest, hold a suffix of everything written |
| `LogRotation.TailFromIsTail` | src/logging/LogManager.cpp:206-237 | reading newest file first until there are enough lines gives the last lines of all |
| `LogRotation.PrependFile` | src/logging/LogManager.cpp:215-229 | the last lines of one file go before those of newer files |
| `LogRotation.ReadableIff` | src/logging/LogManager.cpp:217-222 | lines over 1 MiB are skipped, and no other |
| `LogRotation.ShortLinesReadBack` | src/logging/LogManager.cpp:217-222 | if no line is over 1 MiB, recent_lines(n) is the last n retained lines in order |
| `LogQueue.EventQueue.constructor` | src/logging/LogManager.cpp:137-139 | a new queue is empty |
| `LogQueue.Create` | src/logging/LogManager.cpp:137-139 | a capacity out of range is refused |
| `LogQueue.EventQueue.EnqueueEvent` | src/logging/LogManager.cpp:252-289 | what is queued, dropped and counted, with an access event giving way to an error event |
| `LogQueue.EventQueue.TakeEvent` | src/logging/LogManager.cpp:320-321 | the writer takes the oldest event |
| `LogQueue.EventQueue.EventWritten` | src/logging/LogManager.cpp:325 | the event it took is written |
| `LogQueue.EventQueue.WriterFails` | src/logging/LogManager.cpp:345-355 | a failed write ends the writer: the event it took and all that wait are lost, and no counter says so |
| `LogQueue.EnqueueKeeps` | src/logging/LogManager.cpp:252-289 | counters agree with the events, and order is kept |
| `LogQueue.OfferOutcome` | src/logging/LogManager.cpp:252-289 | an offer is queued exactly if the queue is open and has room, or an access event gives way to an error event; else it is dropped and counted |
| `LogQueue.OldestAccessGivesWay` | src/logging/LogManager.cpp:265-283 | who gives way is the oldest access event, and the rest stays in order |
| `LogQueue.ErrorsArePreferred` | src/logging/LogManager.cpp:265-283 | an error event is dropped only when stopping or by a queue full of error events |
| `LogQueue.EveryEventIsAccountedFor` | src/logging/LogManager.cpp:252-355 | in every run each event offered is written, being written, waiting, counted as dropped, or lost to a failure of the writer; what is kept keeps its order |
| `LogQueue.FailureLosesEvents` | src/logging/LogManager.cpp:345-355 | for any events that fit in the queue a run in which all are accepted, none is written and none counted as dropped |
| `LogQueue.NothingIsLostIff` | src/logging/LogManager.cpp:345-355 | a run loses no event if and only if the writer never fails with an event taken or waiting |
| `LogQueue.FlushedIsWrittenIff` | src/logging/LogManager.cpp:191-194 | when flush returns, every accepted event is written if and only if the writer has never failed with an event taken or waiting |

## Left out

- The names, backends and timeouts that the limiter only reports, and `metrics`: they decide nothing.
- Wrap-around of 64-bit counters and ids.
- The moment between reserving a slot and creating its permit: the two are one step.
- Byte counts, header rewriting and timeouts of the proxy transaction: callbacks report errors and timeouts as they like.
- Exceptions that are thrown after a callback has started an operation, and initiations that throw.
- ProxyObject.Transaction.Dispatch: the outstanding operations are an argument, because the program keeps no variable for them; the runtime that holds the handlers knows them.
- ConfigService.Service and ServerReload.ServerCore: certificates, whose published order can differ from a fresh load.
- ServerReload.ServerCore.Commit: the calls into the backend limiter, which are ReloadLimits.CommitLimits.
- ServerReload.ServerCore: `stop` and `wait`, which end the process's data plane.
- ConnectionPool.Connections: the loop of `acquire` around taking and deciding, and the reaper's waiting; both halves are steps of their own.
- ClientIpResolver.Resolve: matching of header names; a header either is the forwarded-for header or is not.
- AddressRanges: parsing of the ranges from text.
- VirtualHostRouter.Build: checks of backends, policies and timeouts are one function.
- UrlAuthenticator: validation of rules when the policy is built, and the time that comparing digests takes.
- LogRotation.RotatingLog: failing writes and renames, and escaping of the lines; what a failing write does to the queue is LogQueue.EventQueue.WriterFails.
- LogQueue.EventQueue: running out of memory while queueing, and the summary line about dropped events.
- RateLimiter.Limiter: rounding of floating point, and failing allocations.
- Sockets, TLS, DNS, Asio executors, HTTP parsing, SQLite statements, JSON, digests, regular expressions.
- Access rules, hotlink and redirect rules, static files, the admin interface, session and connection registries: mostly single branches.
