/**
 What the data chains carry: every byte that a tunnel reads on one side it writes on the other, every byte of a request
 body that was read is on its way to the backend, and each operation of these chains leads to the one that comes next.
 */
module ProxyFlow {
  import opened Options
  import opened ProxyTransaction
  import opened ProxyInvariant
  import opened ProxyTheorems
  import opened ProxyOrder
  import opened ProxyOutcome

  // ---------------------------------------------------------------- the tunnel

  predicate OutDone(e: Event) { e.Done? && e.chain.OutChain? && e.r.ok }

  predicate BackDone(e: Event) { e.Done? && e.chain.BackChain? && e.r.ok }

  /** What a step reads from the client for the backend, writes to the backend, and what is in hand between the two. */
  function OutRead(t: Tx, e: Event): nat { if OutDone(e) && t.ops.out.TunnelIn? then e.r.produced else 0 }

  function OutWritten(t: Tx, e: Event): nat { if OutDone(e) && t.ops.out.TunnelUp? then t.ops.out.bytes else 0 }

  function OutHand(t: Tx): nat { if t.ops.out.TunnelUp? then t.ops.out.bytes else 0 }

  /** And the other way round. */
  function BackRead(t: Tx, e: Event): nat { if BackDone(e) && t.ops.back.TunnelRecv? then e.r.produced else 0 }

  function BackWritten(t: Tx, e: Event): nat { if BackDone(e) && t.ops.back.TunnelDown? then t.ops.back.bytes else 0 }

  function BackHand(t: Tx): nat { if t.ops.back.TunnelDown? then t.ops.back.bytes else 0 }

  lemma OutFinds(t: Tx)
    requires Inv(t) && !t.ops.out.NoOut? && Undecided(t.life)
    ensures var d := Return(t, OutChain);
      d.life == t.life && d.backend == Backend(true, false) && d.ops == t.ops.(out := NoOut) && d.errors == 0
  {
    OutGoesOn(t);
    OutShape(t);
  }

  lemma BackFinds(t: Tx)
    requires Inv(t) && !t.ops.back.NoBack? && Undecided(t.life)
    ensures var d := Return(t, BackChain);
      d.life == t.life && d.backend == Backend(true, false) && d.ops == t.ops.(back := NoBack) && d.errors == 0
  {
    BackGoesOn(t);
    BackShape(t);
  }

  lemma OutStartsOp(d: Tx, op: OutOp)
    ensures StartOut(d, op).ops == d.ops.(out := op) && StartOut(d, op).life == d.life
  {
  }

  lemma BackStartsOp(d: Tx, op: BackOp)
    ensures StartBack(d, op).ops == d.ops.(back := op) && StartBack(d, op).life == d.life
  {
  }

  /** What was read from the client is written to the backend, and then more is read; a failure ends the tunnel. */
  lemma OutOutcome(t: Tx, r: Reply)
    requires Inv(t) && !t.ops.out.NoOut? && Undecided(t.life)
    ensures var s := Handle(t, OutChain, r);
      if r.ok then
        Undecided(s.life) && s.ops == t.ops.(out := if t.ops.out.TunnelIn? then TunnelUp(r.produced) else TunnelIn)
      else EndsWith(s, 101, false)
  {
    var d := Return(t, OutChain);
    OutFinds(t);
    if r.ok {
      OutStartsOp(d, TunnelUp(r.produced));
      OutStartsOp(Blame(d, !d.link.tunnelBuffers, NullBuffer), TunnelIn);
    } else {
      EndTells(d, Finish(101, false));
    }
  }

  lemma BackOutcome(t: Tx, r: Reply)
    requires Inv(t) && !t.ops.back.NoBack? && Undecided(t.life)
    ensures var s := Handle(t, BackChain, r);
      if r.ok then
        Undecided(s.life)
        && s.ops == t.ops.(back := if t.ops.back.TunnelRecv? then TunnelDown(r.produced) else TunnelRecv)
      else EndsWith(s, 101, false)
  {
    var d := Return(t, BackChain);
    BackFinds(t);
    if r.ok {
      BackStartsOp(d, TunnelDown(r.produced));
      BackStartsOp(Blame(d, !d.link.tunnelBuffers, NullBuffer), TunnelRecv);
    } else {
      EndTells(d, Finish(101, false));
    }
  }

  // ---------------------------------------------------------------- no byte is lost or invented

  /** While a tunnel runs, nothing else does: what is left of setting up has no effect. */
  lemma TunnelIsAlone(t: Tx, chain: Chain)
    requires Inv(t) && Undecided(t.life) && (!t.ops.out.NoOut? || !t.ops.back.NoBack?)
    requires Outstanding(t.ops, t.errors, chain)
    ensures chain.OutChain? || chain.BackChain? || ((chain.TimerChain? || chain.ResolveChain?) && !t.life.connecting)
    ensures !t.ops.out.NoOut? && !t.ops.back.NoBack?
  {
  }

  lemma LeftOverReturns(t: Tx, chain: Chain, r: Reply)
    requires (chain.TimerChain? || chain.ResolveChain?) && !t.life.connecting
    ensures Handle(t, chain, r) == Return(t, chain) && Return(t, chain).ops.out == t.ops.out
    ensures Return(t, chain).ops.back == t.ops.back
  {
  }

  lemma DecidesEnd(t: Tx, e: Event)
    requires !e.Done?
    ensures !Undecided(Step(t, e).life)
  {
    if e.Threw? {
      ReturnLeaves(t, e.chain);
    }
    if !t.life.completed {
      CancelOutcome(t, if e.Threw? then e.chain else MainChain);
    } else if e.Threw? {
      CloseLeaves(Connecting(Return(t, e.chain), false));
    }
  }

  /** What both directions have in hand after a step of a transaction that goes on. */
  ghost predicate Carried(t: Tx, e: Event, s: Tx) {
    && OutHand(s) + OutWritten(t, e) == OutHand(t) + OutRead(t, e)
    && BackHand(s) + BackWritten(t, e) == BackHand(t) + BackRead(t, e)
  }

  lemma TunnelStepCarries(t: Tx, chain: Chain, r: Reply)
    requires Inv(t) && Enabled(t, Done(chain, r)) && Undecided(t.life) && (!t.ops.out.NoOut? || !t.ops.back.NoBack?)
    ensures var s := Handle(t, chain, r); Undecided(s.life) ==> Carried(t, Done(chain, r), s)
  {
    TunnelIsAlone(t, chain);
    if chain.OutChain? {
      OutOutcome(t, r);
    } else if chain.BackChain? {
      BackOutcome(t, r);
    } else {
      LeftOverReturns(t, chain, r);
    }
  }

  lemma OtherStepCarries(t: Tx, e: Event)
    requires Inv(t) && Enabled(t, e) && e.Done? && t.ops.out.NoOut? && t.ops.back.NoBack?
    ensures Carried(t, e, Step(t, e))
  {
    StepOrdered(t, e);
  }

  lemma StepCarries(t: Tx, e: Event)
    requires Inv(t) && Enabled(t, e) && Undecided(t.life) && Undecided(Step(t, e).life)
    ensures Carried(t, e, Step(t, e))
  {
    if !e.Done? {
      DecidesEnd(t, e);
    } else if t.ops.out.NoOut? && t.ops.back.NoBack? {
      OtherStepCarries(t, e);
    } else {
      TunnelStepCarries(t, e.chain, e.r);
    }
  }

  lemma StaysDecided(t: Tx, e: Event)
    requires Inv(t) && Enabled(t, e) && !Undecided(t.life)
    ensures !Undecided(Step(t, e).life)
  {
    if !e.Done? {
      DecidesEnd(t, e);
    } else {
      VerdictStep(t, e);
    }
  }

  /** The bytes that the first `n` steps of a run read from one side of the tunnel and wrote to the other. */
  function OutReadBy(ts: seq<Tx>, events: seq<Event>, n: nat): nat
    requires n <= |events| <= |ts|
  {
    if n == 0 then 0 else OutReadBy(ts, events, n - 1) + OutRead(ts[n - 1], events[n - 1])
  }

  function OutWrittenBy(ts: seq<Tx>, events: seq<Event>, n: nat): nat
    requires n <= |events| <= |ts|
  {
    if n == 0 then 0 else OutWrittenBy(ts, events, n - 1) + OutWritten(ts[n - 1], events[n - 1])
  }

  function BackReadBy(ts: seq<Tx>, events: seq<Event>, n: nat): nat
    requires n <= |events| <= |ts|
  {
    if n == 0 then 0 else BackReadBy(ts, events, n - 1) + BackRead(ts[n - 1], events[n - 1])
  }

  function BackWrittenBy(ts: seq<Tx>, events: seq<Event>, n: nat): nat
    requires n <= |events| <= |ts|
  {
    if n == 0 then 0 else BackWrittenBy(ts, events, n - 1) + BackWritten(ts[n - 1], events[n - 1])
  }

  /** If the transaction still goes on after a step then it did before, and the step lost nothing. */
  ghost predicate Carries(t: Tx, e: Event, s: Tx) {
    Undecided(s.life) ==> Undecided(t.life) && Carried(t, e, s)
  }

  lemma RunCarries(ts: seq<Tx>, events: seq<Event>, c: Config, i: nat)
    requires Run(ts, events, c) && i < |events|
    ensures Carries(ts[i], events[i], ts[i + 1])
  {
    RunGood(ts, events, c, i);
    if !Undecided(ts[i].life) {
      StaysDecided(ts[i], events[i]);
    } else if Undecided(ts[i + 1].life) {
      StepCarries(ts[i], events[i]);
    }
  }

  lemma {:induction false} CarriedSoFar(ts: seq<Tx>, events: seq<Event>, n: nat)
    requires n < |ts| == |events| + 1 && Undecided(ts[n].life) && OutHand(ts[0]) == BackHand(ts[0]) == 0
    requires forall i: nat :: i < n ==> Carries(ts[i], events[i], ts[i + 1])
    ensures OutReadBy(ts, events, n) == OutWrittenBy(ts, events, n) + OutHand(ts[n])
    ensures BackReadBy(ts, events, n) == BackWrittenBy(ts, events, n) + BackHand(ts[n])
  {
    if n > 0 {
      var m := n - 1;
      assert Carries(ts[m], events[m], ts[m + 1]);
      CarriedSoFar(ts, events, m);
    }
  }

  /** In every run, while the transaction goes on: what was read on one side was written on the other or is in hand. */
  lemma TunnelConserves(ts: seq<Tx>, events: seq<Event>, c: Config, n: nat)
    requires Run(ts, events, c) && n < |ts| && Undecided(ts[n].life)
    ensures OutReadBy(ts, events, n) == OutWrittenBy(ts, events, n) + OutHand(ts[n])
    ensures BackReadBy(ts, events, n) == BackWrittenBy(ts, events, n) + BackHand(ts[n])
  {
    forall i: nat | i < n ensures Carries(ts[i], events[i], ts[i + 1]) {
      RunCarries(ts, events, c, i);
    }
    CarriedSoFar(ts, events, n);
  }

  // ---------------------------------------------------------------- the upload

  predicate UploadDone(t: Tx, e: Event) { e.Done? && e.chain.UploadChain? && e.r.ok && !t.ops.upload.NoUpload? }

  /** What a step takes from the client for the request body, and what it gets to the backend. */
  function BodyRead(t: Tx, e: Event): nat {
    if UploadDone(t, e) && t.ops.upload.RecvBody? && Undecided(t.life) && !t.up.stop then e.r.produced else 0
  }

  function BodyWritten(t: Tx, e: Event): nat {
    if UploadDone(t, e) && t.ops.upload.SendChunk? then t.ops.upload.bytes else 0
  }

  /** The end of the body: the last chunk, if it is chunked. */
  predicate BodyFinishes(d: Tx, s: Tx) {
    if d.config.chunked then s.ops.upload.SendLastChunk? && s.up.complete == d.up.complete
    else s.ops.upload.NoUpload? && s.up.complete
  }

  predicate BodyGoesOn(d: Tx, s: Tx, op: UploadOp) { s.ops.upload == op && s.up.complete == d.up.complete }

  lemma UploadStartsOp(d: Tx, op: UploadOp)
    ensures var s := StartUpload(d, op);
      s.ops == d.ops.(upload := op) && s.up == d.up && s.unsent == d.unsent && s.life == d.life && s.errors == d.errors
  {
  }

  lemma FinishesBody(d: Tx)
    requires Undecided(d.life) && !d.up.stop && d.ops.upload.NoUpload?
    ensures var s := FinishRequestBody(d); BodyFinishes(d, s) && s.unsent == d.unsent && s.errors == d.errors
  {
    UploadStartsOp(d, SendLastChunk);
  }

  lemma ReadsChunk(d: Tx)
    requires Undecided(d.life) && !d.up.stop
    ensures var s := ReadRequestBodyChunk(d); BodyGoesOn(d, s, RecvBody) && s.unsent == d.unsent && s.errors == d.errors
  {
    UploadStartsOp(Blame(d, !d.link.httpBuffer, NullBuffer), RecvBody);
  }

  lemma ForwardsBody(d: Tx, produced: nat)
    requires Undecided(d.life) && !d.up.stop && d.ops.upload.NoUpload?
    ensures var s := ForwardBody(d, produced);
      && s.unsent == d.unsent + produced && s.errors == d.errors
      && (if produced > 0 then BodyGoesOn(d, s, SendChunk(produced))
          else if d.up.parserDone then BodyFinishes(d, s) else BodyGoesOn(d, s, RecvBody))
  {
    var read := d.(up := d.up.(bodyRead := d.up.parserDone), unsent := d.unsent + produced);
    UploadStartsOp(read, SendChunk(produced));
    FinishesBody(read);
    ReadsChunk(read);
  }

  lemma UploadFinds(t: Tx)
    requires Inv(t) && !t.ops.upload.NoUpload?
    ensures var d := Return(t, UploadChain);
      && d.life == t.life && d.up == t.up && d.unsent == t.unsent && d.config == t.config && d.ops.upload.NoUpload?
      && d.errors == t.errors && d.down == t.down && (t.life.completed ==> t.life.deferred.None?)
  {
    UploadShape(t);
  }

  /** A part of the body that was read is sent on as it is; without one the body ends, or more is read. */
  lemma BodyReadOutcome(t: Tx, r: Reply)
    requires Inv(t) && t.ops.upload.RecvBody? && Undecided(t.life) && !t.up.stop
    ensures var s := Handle(t, UploadChain, r);
      if !r.ok then
        s.errors == t.errors + 1 && s.status == (if r.tooLarge then 413 else if r.timeout then 408 else 400)
        && s.ops.upload.NoUpload? && s.unsent == t.unsent
      else
        && s.unsent == t.unsent + r.produced && s.errors == t.errors
        && (if r.produced > 0 then BodyGoesOn(t, s, SendChunk(r.produced))
            else if t.up.parserDone || r.done then BodyFinishes(t, s) else BodyGoesOn(t, s, RecvBody))
  {
    var d := Return(t, UploadChain);
    UploadFinds(t);
    var e := d.(up := d.up.(parserDone := d.up.parserDone || r.done));
    if r.ok {
      ForwardsBody(e, r.produced);
    } else {
      RespondAnswers(e, if r.tooLarge then 413 else if r.timeout then 408 else 400);
      RespondLeaves(e, if r.tooLarge then 413 else if r.timeout then 408 else 400);
    }
  }

  lemma RespondLeaves(d: Tx, status: nat)
    ensures Respond(d, status).unsent == d.unsent
  {
    CloseLeaves(d);
  }

  lemma FailLeaves(d: Tx, timeout: bool)
    ensures Fail(d, timeout).unsent == d.unsent
  {
    RespondLeaves(Connecting(d, false), if timeout then 504 else 502);
  }

  /** A part that was sent is followed by the next, or by the end if it was the last. */
  lemma BodySentOutcome(t: Tx, r: Reply)
    requires Inv(t) && t.ops.upload.SendChunk? && Undecided(t.life) && !t.up.stop
    ensures var s := Handle(t, UploadChain, r);
      if !r.ok then s.errors == t.errors + 1 && s.status == (if r.timeout then 504 else 502) && s.unsent == t.unsent
      else
        && s.unsent + t.ops.upload.bytes == t.unsent && s.errors == t.errors
        && (if t.up.bodyRead then BodyFinishes(t, s) else BodyGoesOn(t, s, RecvBody))
  {
    var d := Return(t, UploadChain);
    UploadFinds(t);
    var e := d.(unsent := LeftOver(d.unsent, t.ops.upload.bytes, r.ok));
    if r.ok {
      FinishesBody(e);
      ReadsChunk(e);
    } else {
      FailAnswers(e, r.timeout);
      FailLeaves(e, r.timeout);
    }
  }

  /** The last chunk completes the body. */
  lemma BodyFinishedOutcome(t: Tx, r: Reply)
    requires Inv(t) && t.ops.upload.SendLastChunk? && Undecided(t.life) && !t.up.stop
    ensures var s := Handle(t, UploadChain, r);
      if !r.ok then s.errors == t.errors + 1 && s.status == (if r.timeout then 504 else 502)
      else s.up.complete && s.up.lastChunkSent && s.ops.upload.NoUpload? && s.errors == t.errors
  {
    var d := Return(t, UploadChain);
    UploadFinds(t);
    FailAnswers(d.(up := d.up.(lastChunkSent := d.up.lastChunkSent || r.ok)), r.timeout);
  }

  lemma StoppedUpload(t: Tx, r: Reply)
    requires Inv(t) && !t.ops.upload.NoUpload? && !(Undecided(t.life) && !t.up.stop)
    ensures var s := Handle(t, UploadChain, r);
      s.unsent == (if t.ops.upload.SendChunk? then LeftOver(t.unsent, t.ops.upload.bytes, r.ok) else t.unsent)
  {
    UploadFinds(t);
  }

  /** The chunk that is being written is what is unsent. */
  lemma ChunkIsUnsent(t: Tx)
    requires Inv(t) && t.ops.upload.SendChunk?
    ensures t.unsent == t.ops.upload.bytes
  {
  }

  lemma UploadCounts(t: Tx, r: Reply)
    requires Inv(t) && Enabled(t, Done(UploadChain, r))
    ensures var e := Done(UploadChain, r);
      Handle(t, UploadChain, r).unsent + BodyWritten(t, e) == t.unsent + BodyRead(t, e)
  {
    if t.ops.upload.SendChunk? {
      ChunkIsUnsent(t);
    }
    if Undecided(t.life) && !t.up.stop {
      match t.ops.upload {
        case RecvBody => BodyReadOutcome(t, r);
        case SendChunk(_) => BodySentOutcome(t, r);
        case SendLastChunk => LastChunkLeaves(t, r);
      }
    } else {
      StoppedUpload(t, r);
    }
  }

  lemma LastChunkLeaves(t: Tx, r: Reply)
    requires Inv(t) && t.ops.upload.SendLastChunk? && Undecided(t.life) && !t.up.stop
    ensures Handle(t, UploadChain, r).unsent == t.unsent
  {
    var d := Return(t, UploadChain);
    UploadFinds(t);
    FailLeaves(d.(up := d.up.(lastChunkSent := d.up.lastChunkSent || r.ok)), r.timeout);
  }

  /** What a step does to the bytes that were read from the client and have not reached the backend. */
  predicate BodyCounted(t: Tx, e: Event, s: Tx) { s.unsent + BodyWritten(t, e) == t.unsent + BodyRead(t, e) }

  lemma StepCountsBody(t: Tx, e: Event)
    requires Inv(t) && Enabled(t, e)
    ensures BodyCounted(t, e, Step(t, e))
  {
    if e.Done? && e.chain.UploadChain? {
      UploadCounts(t, e.r);
    } else {
      StepOrdered(t, e);
    }
  }

  /** The bytes of the body that the first `n` steps of a run read, and wrote to the backend. */
  function BodyReadBy(ts: seq<Tx>, events: seq<Event>, n: nat): nat
    requires n <= |events| <= |ts|
  {
    if n == 0 then 0 else BodyReadBy(ts, events, n - 1) + BodyRead(ts[n - 1], events[n - 1])
  }

  function BodyWrittenBy(ts: seq<Tx>, events: seq<Event>, n: nat): nat
    requires n <= |events| <= |ts|
  {
    if n == 0 then 0 else BodyWrittenBy(ts, events, n - 1) + BodyWritten(ts[n - 1], events[n - 1])
  }

  lemma {:induction false} BodyCountedSoFar(ts: seq<Tx>, events: seq<Event>, n: nat)
    requires n < |ts| == |events| + 1 && ts[0].unsent == 0
    requires forall i: nat :: i < n ==> BodyCounted(ts[i], events[i], ts[i + 1])
    ensures BodyReadBy(ts, events, n) == BodyWrittenBy(ts, events, n) + ts[n].unsent
  {
    if n > 0 {
      var m := n - 1;
      assert BodyCounted(ts[m], events[m], ts[m + 1]);
      BodyCountedSoFar(ts, events, m);
    }
  }

  /** In every run the bytes of the request body that were read are those that were sent and those still unsent. */
  lemma BodyConserves(ts: seq<Tx>, events: seq<Event>, c: Config, n: nat)
    requires Run(ts, events, c) && n < |ts|
    ensures BodyReadBy(ts, events, n) == BodyWrittenBy(ts, events, n) + ts[n].unsent
  {
    forall i: nat | i < n ensures BodyCounted(ts[i], events[i], ts[i + 1]) {
      RunGood(ts, events, c, i);
      StepCountsBody(ts[i], events[i]);
    }
    BodyCountedSoFar(ts, events, n);
  }

  /** So when the upload is complete, everything that was read has been sent. */
  lemma CompleteIsSent(ts: seq<Tx>, events: seq<Event>, c: Config, n: nat)
    requires Run(ts, events, c) && n < |ts| && ts[n].faults == {} && ts[n].up.complete && !c.bodyComplete
    ensures BodyReadBy(ts, events, n) == BodyWrittenBy(ts, events, n) && ts[n].up.parserDone
    ensures c.chunked ==> ts[n].up.lastChunkSent
  {
    BodyConserves(ts, events, c, n);
    RunGood(ts, events, c, n);
  }
}
