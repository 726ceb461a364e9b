/** What every run of a proxy transaction keeps, in every interleaving of its callbacks. */
module ProxyTheorems {
  import opened Options
  import opened ProxyTransaction
  import opened ProxyInvariant

  // ---------------------------------------------------------------- all runs

  /** Every state of a run is good, and every state that takes a step satisfies the invariant. */
  lemma {:induction false} RunGood(ts: seq<Tx>, events: seq<Event>, c: Config, i: nat)
    requires Run(ts, events, c) && i < |ts|
    ensures Good(ts[i]) && ts[i].config == c && (i < |events| ==> Inv(ts[i]))
  {
    if i == 0 {
      Starts(c);
    } else {
      RunGood(ts, events, c, i - 1);
      assert Enabled(ts[i - 1], events[i - 1]) && ts[i] == Step(ts[i - 1], events[i - 1]);
      StepKeeps(ts[i - 1], events[i - 1]);
    }
  }

  /** The only fault of any run is the use of a missing stream, and it needs a body that is still being uploaded. */
  lemma OnlyFault(ts: seq<Tx>, events: seq<Event>, c: Config, i: nat)
    requires Run(ts, events, c) && i < |ts|
    ensures ts[i].faults <= {NullStream} && (NothingToUpload(c) ==> ts[i].faults == {})
  {
    RunGood(ts, events, c, i);
  }

  /** The completion handler is called at most once, and only with nothing outstanding. */
  lemma CompletesAtMostOnce(ts: seq<Tx>, events: seq<Event>, c: Config, i: nat)
    requires Run(ts, events, c) && i < |ts| && ts[i].faults == {}
    ensures ts[i].completions == (if ts[i].life.completed then 1 else 0)
    ensures ts[i].life.completed ==>
      && ts[i].clientPending == 0 && ts[i].backendPending == 0
      && BackendOps(ts[i].ops) == 0 && ClientOps(ts[i].ops, ts[i].errors) == 0
      && !ts[i].life.permit
  {
    RunGood(ts, events, c, i);
  }

  /** The counters are the numbers of outstanding operations, and backend operations run on a stream under a permit. */
  lemma CountersAreExact(ts: seq<Tx>, events: seq<Event>, c: Config, i: nat)
    requires Run(ts, events, c) && i < |ts| && ts[i].faults == {}
    ensures ts[i].backendPending == BackendOps(ts[i].ops) && ts[i].clientPending == ClientOps(ts[i].ops, ts[i].errors)
    ensures BackendOps(ts[i].ops) > 0 ==> ts[i].backend.stream && ts[i].life.permit
  {
    RunGood(ts, events, c, i);
  }

  /** A transaction that has not completed always waits for its permit, the resolver or a counted operation. */
  lemma NeverStalls(ts: seq<Tx>, events: seq<Event>, c: Config, i: nat)
    requires Run(ts, events, c) && i < |ts| && ts[i].faults == {} && !ts[i].life.completed
    ensures ts[i].ops.awaitPermit || ts[i].ops.resolving || ts[i].clientPending + ts[i].backendPending > 0
  {
    RunGood(ts, events, c, i);
  }

  /** The client connection is kept only after its whole request was read, so the next request starts at its start. */
  lemma KeptAliveOnlyAfterWholeRequest(ts: seq<Tx>, events: seq<Event>, c: Config, i: nat)
    requires Run(ts, events, c) && i < |ts| && ts[i].faults == {}
    ensures ts[i].life.result.Some? && ts[i].life.result.value.keepAlive ==> ts[i].up.parserDone
  {
    RunGood(ts, events, c, i);
  }

  // ---------------------------------------------------------------- buffers and streams

  datatype Buffer = HttpBuffer | ResponseBuffer | ClientBuffer | BackendBuffer | UpBuffer | DownBuffer

  /** The transfer buffers that the outstanding operation of a chain reads or writes. */
  function Buffers(t: Tx, chain: Chain): set<Buffer> {
    match chain
    case MainChain => MainBuffers(t)
    case UploadChain =>
      if t.ops.upload.RecvBody? then {HttpBuffer, ClientBuffer}
      else if t.ops.upload.SendChunk? then {HttpBuffer} else {}
    case OutChain => if t.ops.out.NoOut? then {} else {UpBuffer}
    case BackChain => if t.ops.back.NoBack? then {} else {DownBuffer}
    case _ => {}
  }

  function MainBuffers(t: Tx): set<Buffer> {
    var relay := if t.down.ownBuffer then ResponseBuffer else HttpBuffer;
    match t.ops.main
    case ReadHead => {BackendBuffer}
    case ReadBody => {BackendBuffer, relay}
    case SendBody => if t.down.buffered then {relay} else {}
    case ReadUpgrade => {BackendBuffer}
    case FlushDown => {BackendBuffer}
    case FlushUp => {ClientBuffer}
    case _ => {}
  }

  /** No two outstanding operations use the same buffer. */
  lemma BuffersAreDisjoint(ts: seq<Tx>, events: seq<Event>, c: Config, i: nat, a: Chain, b: Chain)
    requires Run(ts, events, c) && i < |ts| && ts[i].faults == {} && a != b
    ensures Buffers(ts[i], a) !! Buffers(ts[i], b)
  {
    RunGood(ts, events, c, i);
    MainAndUpload(ts[i]);
  }

  lemma MainAndUpload(t: Tx)
    requires Core(t)
    ensures MainBuffers(t) !! Buffers(t, UploadChain)
    ensures MainBuffers(t) !! {UpBuffer, DownBuffer} && Buffers(t, UploadChain) !! {UpBuffer, DownBuffer}
  {
    if !t.ops.upload.NoUpload? && Relaying(t.ops.main) {
      assert t.down.early && !t.up.complete;
    }
  }

  function BackendWriters(ops: Ops): nat {
    (if ops.main.SendHeader? || ops.main.FlushUp? then 1 else 0) +
    (if ops.upload.SendChunk? || ops.upload.SendLastChunk? then 1 else 0) + (if ops.out.TunnelUp? then 1 else 0)
  }

  function ClientWriters(ops: Ops, errors: nat): nat {
    (if AtClient(ops.main) then 1 else 0) + (if ops.back.TunnelDown? then 1 else 0) + errors
  }

  function ClientReaders(ops: Ops): nat {
    (if ops.upload.RecvBody? then 1 else 0) + (if ops.out.TunnelIn? then 1 else 0)
  }

  /** One writer at the backend and one reader at the client at a time; one writer at the client without an upload. */
  lemma OneOperationPerDirection(ts: seq<Tx>, events: seq<Event>, c: Config, i: nat)
    requires Run(ts, events, c) && i < |ts| && ts[i].faults == {}
    ensures BackendWriters(ts[i].ops) <= 1 && ClientReaders(ts[i].ops) <= 1
    ensures NothingToUpload(c) ==> ClientWriters(ts[i].ops, ts[i].errors) <= 1
  {
    RunGood(ts, events, c, i);
    Directions(ts[i]);
  }

  lemma Directions(t: Tx)
    requires Core(t)
    ensures BackendWriters(t.ops) <= 1 && ClientReaders(t.ops) <= 1
    ensures NothingToUpload(t.config) ==> ClientWriters(t.ops, t.errors) <= 1
  {
  }

  /** A stream that leaves without being closed goes to the pool: request sent, response read, nothing outstanding. */
  lemma PooledOnlyWhenFinished(d: Tx, socketOpen: bool)
    requires Core(d) && Free(d) && Relay(d) && d.down.done
    ensures var s := FinishNormal(d, socketOpen);
      !s.backend.stream && !s.backend.closeRequested ==>
        && RequestSent(d.config, d.up, d.unsent) && !d.down.early && BackendOps(d.ops) == 0
        && d.config.keepAliveWanted && d.down.backendKeepAlive && socketOpen && s.life.completed && s.faults == {}
  {
    FinishNormalNext(d, socketOpen);
    if d.down.early {
      Closes(d);
    }
  }

  // ---------------------------------------------------------------- after the end is decided

  predicate NothingStarted(before: Tx, after: Tx) {
    && (after.ops.awaitPermit ==> before.ops.awaitPermit)
    && (after.ops.timer ==> before.ops.timer)
    && (after.ops.resolving ==> before.ops.resolving)
    && (after.ops.main == before.ops.main || after.ops.main.NoMain?)
    && (after.ops.upload == before.ops.upload || after.ops.upload.NoUpload?)
    && (after.ops.out == before.ops.out || after.ops.out.NoOut?)
    && (after.ops.back == before.ops.back || after.ops.back.NoBack?)
    && after.errors <= before.errors
  }

  /** The event completes an operation that one of the counters counts. */
  predicate Counted(e: Event) {
    !e.CancelRequested? && !e.chain.PermitChain? && !e.chain.TimerChain? && !e.chain.ResolveChain?
  }

  function Pending(t: Tx): nat { t.clientPending + t.backendPending }

  lemma FinishBackendCounts(t: Tx)
    requires t.backendPending > 0
    ensures Pending(FinishBackend(t)) == Pending(t) - 1
    ensures FinishBackend(t).life == t.life && FinishBackend(t).ops == t.ops && FinishBackend(t).errors == t.errors
  {
  }

  lemma ReturnCounts(t: Tx, chain: Chain)
    requires CountersOk(t) && Outstanding(t.ops, t.errors, chain)
    ensures var d := Return(t, chain);
      && Pending(d) == Pending(t) - (if Counted(Threw(chain)) then 1 else 0)
      && d.life == t.life && NothingStarted(t, d)
  {
    match chain {
      case MainChain =>
        if AtBackend(t.ops.main) {
          FinishBackendCounts(t.(ops := t.ops.(main := NoMain)));
        }
      case UploadChain =>
        if !t.ops.upload.RecvBody? {
          FinishBackendCounts(t.(ops := t.ops.(upload := NoUpload)));
        }
      case OutChain =>
        if !t.ops.out.TunnelIn? {
          FinishBackendCounts(t.(ops := t.ops.(out := NoOut)));
        }
      case BackChain =>
        if !t.ops.back.TunnelDown? {
          FinishBackendCounts(t.(ops := t.ops.(back := NoBack)));
        }
      case _ =>
    }
  }

  /** What is left of a decided transaction when operations drain: it completes exactly when none is left. */
  predicate Drained(before: Tx, after: Tx, n: nat) {
    && NothingStarted(before, after)
    && Pending(after) + n == Pending(before)
    && (if Pending(after) == 0 then after.life.completed else after.life.deferred.Some?)
  }

  lemma FinishDrains(t: Tx, d: Tx, n: nat)
    requires d.life.deferred.Some? && !d.life.completed
    requires NothingStarted(t, d) && Pending(d) + n == Pending(t)
    ensures Drained(t, MaybeFinishDeferred(d), n)
  {
    if Pending(d) > 0 {
      assert MaybeFinishDeferred(d) == d;
    } else {
      assert MaybeFinishDeferred(d).life.completed && MaybeFinishDeferred(d).ops == d.ops;
    }
  }

  lemma DecidedMain(t: Tx, r: Reply)
    requires Inv(t) && t.life.deferred.Some? && !t.ops.main.NoMain?
    ensures Drained(t, HandleMain(Return(t, MainChain), t.ops.main, r), 1)
  {
    var d := Return(t, MainChain);
    MainGivesUp(t);
    ReturnCounts(t, MainChain);
    assert HandleMain(d, t.ops.main, r) == MaybeFinishDeferred(d);
    FinishDrains(t, d, 1);
  }

  lemma Ends(t: Tx, x: Tx, n: nat)
    requires Core(x) && x.life.deferred.Some? && NothingStarted(t, x) && Pending(x) + n == Pending(t)
    ensures var s := MaybeFinishDeferred(x); Drained(t, s, n) && Inv(s)
  {
    Drains(x);
    FinishDrains(t, x, n);
  }

  lemma DecidedUpload(t: Tx, r: Reply)
    requires Inv(t) && t.life.deferred.Some? && !t.ops.upload.NoUpload?
    ensures var s := HandleUpload(Return(t, UploadChain), t.ops.upload, r); Drained(t, s, 1) && Inv(s)
  {
    ReturnCounts(t, UploadChain);
    UploadGoesOn(t);
    var d := Return(t, UploadChain);
    match t.ops.upload {
      case RecvBody => RecvEnds(t, d, r);
      case SendChunk(bytes) => ChunkEnds(t, d, bytes, r);
      case SendLastChunk => LastChunkEnds(t, d, r);
    }
  }

  /** An operation of the upload has returned to a decided transaction. */
  ghost predicate UploadReturned(t: Tx, d: Tx) {
    && Core(d) && d.life.deferred.Some? && NothingStarted(t, d) && Pending(d) + 1 == Pending(t)
    && d.ops.upload.NoUpload?
  }

  lemma RecvEnds(t: Tx, d: Tx, r: Reply)
    requires UploadReturned(t, d)
    ensures var s := OnRequestBodyRead(d, r); Drained(t, s, 1) && Inv(s)
  {
    ReportEnds(t, d, d.up.(parserDone := d.up.parserDone || r.done));
  }

  lemma LastChunkEnds(t: Tx, d: Tx, r: Reply)
    requires UploadReturned(t, d)
    ensures var s := OnRequestBodyFinished(d, r); Drained(t, s, 1) && Inv(s)
  {
    ReportEnds(t, d, d.up.(lastChunkSent := d.up.lastChunkSent || r.ok));
  }

  lemma ChunkEnds(t: Tx, d: Tx, bytes: nat, r: Reply)
    requires UploadReturned(t, d)
    ensures var s := OnRequestBodyWritten(d, bytes, r); Drained(t, s, 1) && Inv(s)
  {
    var unsent := LeftOver(d.unsent, bytes, r.ok);
    ChunkKeepsCore(d, unsent);
    Ends(t, d.(unsent := unsent), 1);
  }

  lemma ReportEnds(t: Tx, d: Tx, up: Upload)
    requires UploadReturned(t, d) && Reports(d.up, up)
    ensures var s := MaybeFinishDeferred(d.(up := up)); Drained(t, s, 1) && Inv(s)
  {
    ReportKeepsCore(d, up);
    Ends(t, d.(up := up), 1);
  }

  lemma ChunkKeepsCore(d: Tx, unsent: nat)
    requires Core(d) && d.ops.upload.NoUpload? && (unsent <= d.unsent)
    ensures Core(d.(unsent := unsent))
  {
  }

  lemma DecidedTunnel(t: Tx, chain: Chain, r: Reply)
    requires Inv(t) && t.life.deferred.Some? && (chain.OutChain? || chain.BackChain? || chain.ErrorChain?)
    requires Outstanding(t.ops, t.errors, chain)
    ensures Drained(t, Handle(t, chain, r), 1)
  {
    var d := Return(t, chain);
    ReturnCounts(t, chain);
    assert Handle(t, chain, r) == MaybeFinishDeferred(d);
    FinishDrains(t, d, 1);
  }

  lemma DecidedEnds(t: Tx, d: Tx, n: nat)
    requires Core(d) && d.life.deferred.Some? && NothingStarted(t, d) && Pending(d) + n == Pending(t)
    ensures Drained(t, OnCancel(d), n) && Drained(t, Abort(d), n)
  {
    var closed := CloseBackend(Connecting(d, false));
    assert closed == d.(life := closed.life, backend := closed.backend);
    FinishDrains(t, closed.(life := closed.life.(
      deferred := Some(Finish(StatusOr(d, 500), false)), clientCancelRequested := true)), n);
    FinishDrains(t, closed.(life := closed.life.(
      deferred := Some(Finish(StatusOr(d, 499), false)),
      clientCancelRequested := closed.life.clientCancelRequested || closed.clientPending != 0)), n);
  }

  lemma DecidedDone(t: Tx, chain: Chain, r: Reply)
    requires Inv(t) && t.life.deferred.Some? && Enabled(t, Done(chain, r))
    ensures Drained(t, Handle(t, chain, r), if Counted(Done(chain, r)) then 1 else 0) && Inv(Handle(t, chain, r))
  {
    if !chain.UploadChain? {
      StepKeepsInv(t, Done(chain, r));
    }
    match chain {
      case MainChain => DecidedMain(t, r);
      case UploadChain => DecidedUpload(t, r);
      case OutChain => DecidedTunnel(t, chain, r);
      case BackChain => DecidedTunnel(t, chain, r);
      case ErrorChain => DecidedTunnel(t, chain, r);
      case _ => ReturnCounts(t, chain);
    }
  }

  /**
   Once the end is decided no callback starts an operation; each completion of a counted operation brings the
   sum of the counters down by one, and the transaction completes in the step that brings it to zero.
   */
  lemma DecidedStep(t: Tx, e: Event)
    requires Inv(t) && t.life.deferred.Some? && Enabled(t, e)
    ensures Drained(t, Step(t, e), if Counted(e) then 1 else 0) && Inv(Step(t, e))
  {
    if !IsUpload(e) {
      StepKeepsInv(t, e);
    }
    match e {
      case Done(chain, r) => DecidedDone(t, chain, r);
      case CancelRequested => DecidedEnds(t, t, 0);
      case Threw(chain) =>
        ReturnCounts(t, chain);
        Returns(t, chain);
        DecidedEnds(t, Return(t, chain), if Counted(e) then 1 else 0);
    }
  }

  lemma CompletedReturn(t: Tx, chain: Chain, r: Reply)
    requires Inv(t) && t.life.completed && Outstanding(t.ops, t.errors, chain)
    ensures chain.PermitChain? || chain.TimerChain? || chain.ResolveChain?
    ensures Handle(t, chain, r) == Return(t, chain)
  {
  }

  /** A completed transaction stays as it is: nothing starts and the handler is not called again. */
  ghost predicate Stays(t: Tx, s: Tx) {
    && NothingStarted(t, s) && s.life.completed && s.life.result == t.life.result && s.completions == t.completions
    && Pending(s) == 0
  }

  lemma CompletedReturns(t: Tx, chain: Chain)
    requires Inv(t) && t.life.completed && Outstanding(t.ops, t.errors, chain)
    ensures var d := Return(t, chain);
      Stays(t, d) && Stays(t, Abort(d)) && !Counted(Threw(chain))
  {
    ReturnCounts(t, chain);
  }

  lemma CompletedStep(t: Tx, e: Event)
    requires Inv(t) && t.life.completed && Enabled(t, e)
    ensures Stays(t, Step(t, e)) && !Counted(e) && Inv(Step(t, e))
  {
    StepKeepsInv(t, e);
    match e {
      case Done(chain, r) =>
        CompletedReturn(t, chain, r);
        CompletedReturns(t, chain);
      case CancelRequested =>
      case Threw(chain) => CompletedReturns(t, chain);
    }
  }

  /** If `first` has completed then so has `t`, once and with the same result. */
  ghost predicate SameEnd(first: Tx, t: Tx) {
    first.life.completed ==>
      Inv(t) && t.life.completed && t.completions == 1 && t.life.result == first.life.result
  }

  lemma SameEndStarts(t: Tx)
    requires Good(t) && t.faults == {}
    ensures SameEnd(t, t)
  {
  }

  lemma SameEndStep(first: Tx, t: Tx, e: Event)
    requires SameEnd(first, t) && Enabled(t, e)
    ensures SameEnd(first, Step(t, e))
  {
    if first.life.completed {
      CompletedStep(t, e);
    }
  }

  lemma SameEndNext(first: Tx, ts: seq<Tx>, events: seq<Event>, c: Config, j: nat)
    requires Run(ts, events, c) && 0 < j < |ts| && SameEnd(first, ts[j - 1])
    ensures SameEnd(first, ts[j])
  {
    SameEndStep(first, ts[j - 1], events[j - 1]);
  }

  /** The result that was handed over never changes. */
  lemma {:induction false} CompletionIsFinal(ts: seq<Tx>, events: seq<Event>, c: Config, i: nat, j: nat)
    requires Run(ts, events, c) && i <= j < |ts| && ts[i].faults == {}
    ensures SameEnd(ts[i], ts[j])
  {
    if i == j {
      RunGood(ts, events, c, i);
      SameEndStarts(ts[i]);
    } else {
      CompletionIsFinal(ts, events, c, i, j - 1);
      SameEndNext(ts[i], ts, events, c, j);
    }
  }

  /** `n` of the `total` operations that were pending when the end was decided have completed. */
  ghost predicate Draining(t: Tx, total: nat, n: nat) {
    && Inv(t) && n <= total
    && (t.life.completed <==> n == total)
    && (n < total ==> t.life.deferred.Some? && Pending(t) == total - n)
  }

  function One(e: Event): nat { if Counted(e) then 1 else 0 }

  lemma DrainingStarts(t: Tx)
    requires Inv(t) && t.life.deferred.Some?
    ensures Draining(t, Pending(t), 0)
  {
  }

  lemma DrainingStep(t: Tx, e: Event, total: nat, n: nat)
    requires Draining(t, total, n) && Enabled(t, e)
    ensures Draining(Step(t, e), total, n + One(e))
  {
    if t.life.completed {
      CompletedStep(t, e);
    } else {
      DecidedStep(t, e);
    }
  }

  function CountedIn(events: seq<Event>, i: nat, j: nat): nat
    requires i <= j <= |events|
  {
    if i == j then 0 else CountedIn(events, i, j - 1) + One(events[j - 1])
  }

  /**
   From the moment the end is decided, a transaction completes exactly when as many counted operations have
   completed as were pending, whatever else happens meanwhile and in whatever order.
   */
  lemma {:induction false} CompletesWhenDrained(ts: seq<Tx>, events: seq<Event>, c: Config, i: nat, j: nat)
    requires Run(ts, events, c) && i <= j < |ts| && ts[i].faults == {} && ts[i].life.deferred.Some?
    ensures Draining(ts[j], Pending(ts[i]), CountedIn(events, i, j))
  {
    if i == j {
      RunGood(ts, events, c, i);
      DrainingStarts(ts[i]);
    } else {
      CompletesWhenDrained(ts, events, c, i, j - 1);
      assert Enabled(ts[j - 1], events[j - 1]) && ts[j] == Step(ts[j - 1], events[j - 1]);
      DrainingStep(ts[j - 1], events[j - 1], Pending(ts[i]), CountedIn(events, i, j - 1));
    }
  }
}
