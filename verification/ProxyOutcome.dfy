/**
 What each callback leads to: the next operation when things go well, the status of the error response when they do not,
 and what the completion handler is told in the end.
 */
module ProxyOutcome {
  import opened Options
  import opened ProxyTransaction
  import opened ProxyInvariant
  import opened ProxyTheorems

  // ---------------------------------------------------------------- how a transaction ends

  /** The end is decided, with this result, and what the client connection still does is told to stop. */
  predicate EndsWith(s: Tx, status: nat, keepAlive: bool) {
    && !Undecided(s.life) && Verdict(s.life) == Some(Finish(status, keepAlive))
    && (!s.life.completed && s.clientPending > 0 ==> s.life.clientCancelRequested)
  }

  /** What the completion handler was told, or will be once nothing is outstanding. */
  function Verdict(life: Life): Option<Finish> { if life.completed then life.result else life.deferred }

  lemma FinishTells(d: Tx, f: Finish)
    requires !d.life.completed
    ensures var s := FinishNow(d, f); s.life.completed && Verdict(s.life) == Some(f)
  {
  }

  lemma DeferredTells(d: Tx)
    requires !Undecided(d.life)
    ensures var s := MaybeFinishDeferred(d);
      !Undecided(s.life) && (d.life.completed ==> s.life.completed)
      && (d.life.deferred.None? || !d.life.completed ==> Verdict(s.life) == Verdict(d.life))
  {
  }

  lemma QuietTells(d: Tx, f: Finish)
    requires !d.life.completed
    ensures EndsWith(FinishWhenQuiet(d, f), f.status, f.keepAlive)
  {
    DeferredTells(d.(life := d.life.(
      deferred := Some(f), clientCancelRequested := d.life.clientCancelRequested || d.clientPending != 0)));
  }

  lemma CloseLeaves(d: Tx)
    ensures var s := CloseBackend(d);
      s == d.(backend := s.backend, faults := s.faults) && (d.backend.stream ==> s.backend.closeRequested)
  {
  }

  lemma EndTells(d: Tx, f: Finish)
    requires !d.life.completed
    ensures EndsWith(FinishWhenQuiet(CloseBackend(d), f), f.status, f.keepAlive)
  {
    CloseLeaves(d);
    QuietTells(CloseBackend(d), f);
  }


  // ---------------------------------------------------------------- error responses

  /**
   An error response with this status is being written, and nothing else was started. The client connection may be used
   again if it wanted to be, the whole request was read and the status does not speak against it.
   */
  predicate Answers(d: Tx, s: Tx, status: nat, wanted: bool) {
    && s.errors == d.errors + 1 && s.status == status && s.ops == d.ops && Undecided(s.life) == Undecided(d.life)
    && (d.backend.stream ==> s.backend.closeRequested)
    && (s.down.errorKeepAlive <==> wanted && d.up.parserDone && status != 400 && status != 408 && status != 413)
  }

  lemma RespondAnswers(d: Tx, status: nat)
    ensures Answers(d, Respond(d, status), status, d.down.clientKeepAlive)
  {
    CloseLeaves(d);
  }

  lemma FailAnswers(d: Tx, timeout: bool)
    requires !d.life.completed
    ensures Answers(d, Fail(d, timeout), if timeout then 504 else 502, d.down.clientKeepAlive)
  {
    RespondAnswers(Connecting(d, false), if timeout then 504 else 502);
  }

  // ---------------------------------------------------------------- the main chain

  /** A status that is not the final one. */
  predicate Interim(status: nat) { 100 <= status < 200 && status != 101 }

  /** The operation of the main chain succeeds, and the transaction is not over with it. */
  predicate GoesWell(d: Tx, op: MainOp, r: Reply) {
    match op
    case ReadHead =>
      r.ok && r.status != 101 && (Interim(r.status) || d.up.complete || r.done || r.memory)
    case SendHead => r.ok && !(d.down.done && r.serialized)
    case SendBody => r.needBuffer || (r.ok && !r.serialized)
    case ReadUpgrade => r.ok && r.status == 101 && r.memory
    case _ => r.ok
  }

  /** The operation that comes next then; none, if the tunnel begins. */
  function NextMain(d: Tx, op: MainOp, r: Reply): MainOp {
    match op
    case NoMain => NoMain
    case Connect => if d.config.https then Handshake else SendHeader
    case Handshake => SendHeader
    case SendHeader =>
      if d.config.websocket then ReadUpgrade
      else if !d.up.parserDone && d.config.expectContinue then SendContinue else ReadHead
    case SendContinue => ReadHead
    case ReadHead => if Interim(r.status) then ReadHead else SendHead
    case SendHead => if d.down.done then SendBody else ReadBody
    case ReadBody => SendBody
    case SendBody => if r.needBuffer then ReadBody else SendBody
    case ReadUpgrade => SendUpgrade
    case SendUpgrade =>
      if !r.clientBufferEmpty then FlushUp else if !r.backendBufferEmpty then FlushDown else NoMain
    case FlushUp => if !r.backendBufferEmpty then FlushDown else NoMain
    case FlushDown => NoMain
  }

  /** The transaction goes on with `op`; an upload begins with it if there is one and the header was just written. */
  predicate GoesOnWith(d: Tx, s: Tx, op: MainOp, uploads: bool, tunnels: bool) {
    && s.ops.main == op && Undecided(s.life) && s.errors == d.errors
    && s.ops.upload == (if uploads then RecvBody else d.ops.upload)
    && s.ops.out == (if tunnels then TunnelIn else d.ops.out)
    && s.ops.back == (if tunnels then TunnelRecv else d.ops.back)
  }

  predicate Uploads(d: Tx, op: MainOp) {
    op.SendContinue? || (op.SendHeader? && !d.config.websocket && !d.up.parserDone && !d.config.expectContinue)
  }

  lemma MainStarts(d: Tx, op: MainOp)
    requires Undecided(d.life)
    ensures GoesOnWith(d, StartMain(d, op), op, false, false)
  {
  }

  lemma HeadStarts(d: Tx)
    requires Undecided(d.life) && !d.down.headStarted
    ensures var s := ReadResponseHeader(d);
      GoesOnWith(d, s, ReadHead, false, false) && s.life == d.life && s.up == d.up
  {
  }

  lemma RequestStarts(d: Tx)
    requires Undecided(d.life) && !d.down.headStarted && !d.up.stop
    ensures GoesOnWith(d, ReadRequestBodyChunk(ReadResponseHeader(d)), ReadHead, true, false)
  {
    HeadStarts(d);
    ChunkStarts(ReadResponseHeader(d));
  }

  lemma ChunkStarts(d: Tx)
    requires Undecided(d.life) && !d.up.stop
    ensures GoesOnWith(d, ReadRequestBodyChunk(d), d.ops.main, true, false)
  {
  }

  lemma TunnelStarts(d: Tx)
    requires Undecided(d.life)
    ensures GoesOnWith(d, StartTunnel(d), d.ops.main, false, true)
  {
  }

  lemma FlushStarts(d: Tx, r: Reply)
    requires Undecided(d.life) && d.ops.main.NoMain?
    ensures var s := FlushBackendBuffer(d, r);
      GoesOnWith(d, s, if r.backendBufferEmpty then NoMain else FlushDown, false, r.backendBufferEmpty)
  {
    TunnelStarts(d);
    MainStarts(d, FlushDown);
  }

  /** What the callback of a successful operation leads to. */
  ghost predicate WentWell(d: Tx, op: MainOp, r: Reply, s: Tx) {
    GoesOnWith(d, s, NextMain(d, op, r), Uploads(d, op), Upgrading(op) && NextMain(d, op, r).NoMain?)
  }

  lemma SetupWentWell(d: Tx, op: MainOp, r: Reply)
    requires Free(d) && Fresh(d) && (op.Connect? || op.Handshake?) && d.life.connecting && r.ok
    ensures op.Connect? ==> WentWell(d, op, r, OnConnect(d, r))
    ensures op.Handshake? ==> WentWell(d, op, r, OnHandshake(d, r))
  {
    MainStarts(d, Handshake);
    MainStarts(Connecting(d, false), SendHeader);
  }

  lemma HeaderWentWell(d: Tx, r: Reply)
    requires Free(d) && Fresh(d) && r.ok
    ensures WentWell(d, SendHeader, r, OnRequestHeaderWritten(d, r))
  {
    var written := d.(link := d.link.(fromPool := false));
    if d.config.websocket {
      MainStarts(written, ReadUpgrade);
    } else if d.up.parserDone {
      HeadStarts(written.(up := d.up.(complete := true)));
    } else if d.config.expectContinue {
      MainStarts(written, SendContinue);
    } else {
      RequestStarts(written);
    }
  }

  lemma ContinueWentWell(d: Tx, r: Reply)
    requires Free(d) && Fresh(d) && r.ok
    ensures WentWell(d, SendContinue, r, OnContinueWritten(d, r))
  {
    RequestStarts(d);
  }

  lemma HeadWentWell(d: Tx, r: Reply)
    requires Free(d) && GoesWell(d, ReadHead, r)
    ensures WentWell(d, ReadHead, r, OnResponseHeader(d, r))
  {
    if Interim(r.status) {
      HeadStarts(d.(down := d.down.(headStarted := false)));
    } else {
      MainStarts(Accepted(Seen(d), r), SendHead);
    }
  }

  lemma RelayWentWell(d: Tx, op: MainOp, r: Reply)
    requires Free(d) && Relaying(op) && GoesWell(d, op, r) && (op.SendBody? && r.needBuffer ==> !d.down.done)
    ensures op.SendHead? ==> WentWell(d, op, r, OnHeaderWritten(d, r))
    ensures op.ReadBody? ==> WentWell(d, op, r, OnBodyRead(d, r))
    ensures op.SendBody? ==> WentWell(d, op, r, OnBodyWritten(d, r))
  {
    MainStarts(d, SendBody);
    MainStarts(Blame(d, !d.down.ownBuffer && !d.link.httpBuffer, NullBuffer), ReadBody);
    MainStarts(d.(down := d.down.(done := r.done, buffered := true)), SendBody);
  }

  lemma UpgradeReadWentWell(d: Tx, r: Reply)
    requires Free(d) && GoesWell(d, ReadUpgrade, r)
    ensures WentWell(d, ReadUpgrade, r, OnUpgradeResponse(d, r))
  {
    MainStarts(UseStream(d.(link := d.link.(tunnelBuffers := true), status := 101)), SendUpgrade);
  }

  lemma UpgradeSentWentWell(d: Tx, r: Reply)
    requires Free(d) && r.ok
    ensures WentWell(d, SendUpgrade, r, OnUpgradeWritten(d, r))
  {
    MainStarts(d, FlushUp);
    FlushStarts(d, r);
  }

  lemma FlushWentWell(d: Tx, r: Reply)
    requires Free(d) && r.ok
    ensures WentWell(d, FlushUp, r, OnClientBufferFlushed(d, r))
    ensures WentWell(d, FlushDown, r, OnBackendBufferFlushed(d, r))
  {
    FlushStarts(d, r);
    TunnelStarts(d);
  }

  /** What an operation of the main chain finds when it returns to a transaction that goes on. */
  lemma MainFinds(t: Tx)
    requires Inv(t) && !t.ops.main.NoMain? && Undecided(t.life) && t.errors == 0
    ensures var d := Return(t, MainChain);
      && Free(d) && d.config == t.config && d.up == t.up && d.down == t.down && d.status == t.status && d.errors == 0
      && d.link == t.link && d.life == t.life
      && (Responding(t.ops.main) || Fresh(d)) && (t.ops.main.Connect? || t.ops.main.Handshake? ==> d.life.connecting)
  {
    MainGoesOn(t);
  }

  lemma SetupGoesWell(d: Tx, op: MainOp, r: Reply)
    requires Free(d) && Fresh(d) && Setup(op) && r.ok && (op.Connect? || op.Handshake? ==> d.life.connecting)
    ensures WentWell(d, op, r, HandleMain(d, op, r))
  {
    match op {
      case Connect => SetupWentWell(d, op, r);
      case Handshake => SetupWentWell(d, op, r);
      case SendHeader => HeaderWentWell(d, r);
      case SendContinue => ContinueWentWell(d, r);
    }
  }

  lemma ResponseGoesWell(d: Tx, op: MainOp, r: Reply)
    requires Free(d) && Responding(op) && GoesWell(d, op, r) && (op.SendBody? && r.needBuffer ==> !d.down.done)
    ensures WentWell(d, op, r, HandleMain(d, op, r))
  {
    if op.ReadHead? {
      HeadWentWell(d, r);
    } else {
      RelayWentWell(d, op, r);
    }
  }

  lemma UpgradeGoesWell(d: Tx, op: MainOp, r: Reply)
    requires Free(d) && Upgrading(op) && GoesWell(d, op, r)
    ensures WentWell(d, op, r, HandleMain(d, op, r))
  {
    match op {
      case ReadUpgrade => UpgradeReadWentWell(d, r);
      case SendUpgrade => UpgradeSentWentWell(d, r);
      case FlushUp => FlushWentWell(d, r);
      case FlushDown => FlushWentWell(d, r);
    }
  }

  /** A successful operation of the main chain leads to the operation that comes next, and to nothing else. */
  lemma MainGoesWell(t: Tx, r: Reply)
    requires Inv(t) && Enabled(t, Done(MainChain, r)) && Undecided(t.life) && t.errors == 0
    requires GoesWell(t, t.ops.main, r)
    ensures WentWell(Return(t, MainChain), t.ops.main, r, Handle(t, MainChain, r))
    ensures NextMain(Return(t, MainChain), t.ops.main, r) == NextMain(t, t.ops.main, r)
  {
    var d, op := Return(t, MainChain), t.ops.main;
    MainFinds(t);
    if Setup(op) {
      SetupGoesWell(d, op, r);
    } else if Responding(op) {
      ResponseGoesWell(d, op, r);
    } else {
      UpgradeGoesWell(d, op, r);
    }
  }

  /** What is noted of a final response header that is accepted. */
  predicate Noted(d: Tx, r: Reply, s: Tx) {
    && s.status == r.status && s.down.done == r.done && !s.down.buffered
    && s.down.early == s.up.stop == !d.up.complete
    && s.down.clientKeepAlive == (d.down.clientKeepAlive && d.up.complete)
    && s.down.backendKeepAlive == (r.keepAlive && d.up.complete)
  }

  lemma StartNotes(d: Tx, op: MainOp)
    ensures var s := StartMain(d, op); s.status == d.status && s.down == d.down && s.up == d.up
  {
  }

  lemma AcceptNotes(d: Tx, r: Reply)
    requires d.up.complete || r.done || r.memory
    ensures Noted(d, r, AcceptResponse(d, r))
  {
    StartNotes(Accepted(Seen(d), r), SendHead);
  }

  lemma HeadNotes(d: Tx, r: Reply)
    requires Free(d) && GoesWell(d, ReadHead, r) && !Interim(r.status)
    ensures Noted(d, r, OnResponseHeader(d, r))
  {
    AcceptNotes(d, r);
    assert OnResponseHeader(d, r) == AcceptResponse(d, r);
  }

  /**
   A final response header: its status and its length are noted, a request that is not yet sent is given up and its
   connection not kept, and the backend's connection only if the backend keeps it and the request was sent.
   */
  lemma AcceptedOutcome(t: Tx, r: Reply)
    requires Inv(t) && t.ops.main.ReadHead? && Undecided(t.life) && t.errors == 0
    requires GoesWell(t, ReadHead, r) && !Interim(r.status)
    ensures Noted(t, r, Handle(t, MainChain, r))
  {
    MainFinds(t);
    HeadNotes(Return(t, MainChain), r);
  }

  /** A body part that was read is in the buffer, and whether more comes is noted. */
  lemma BodyReadNotes(t: Tx, r: Reply)
    requires Inv(t) && t.ops.main.ReadBody? && Undecided(t.life) && t.errors == 0 && r.ok
    ensures var s := Handle(t, MainChain, r);
      s.down.done == r.done && s.down.buffered && s.status == t.status
      && s.down.clientKeepAlive == t.down.clientKeepAlive && s.down.backendKeepAlive == t.down.backendKeepAlive
  {
    MainFinds(t);
  }

  /** An accepted upgrade answers 101. */
  lemma UpgradeNotes(t: Tx, r: Reply)
    requires Inv(t) && t.ops.main.ReadUpgrade? && Undecided(t.life) && t.errors == 0 && GoesWell(t, ReadUpgrade, r)
    ensures var s := Handle(t, MainChain, r); s.status == 101 && s.link.tunnelBuffers
  {
    MainFinds(t);
  }

  // ---------------------------------------------------------------- when an operation of the main chain fails

  /** The status of the error response when an operation before the response header does not go well. */
  function FailureStatus(op: MainOp, r: Reply): nat {
    if !r.ok then if r.timeout then 504 else 502
    else if (op.ReadHead? && r.status == 101) || (op.ReadUpgrade? && r.status != 101) then 502
    else 503
  }

  /** A response that came too early for its request ends the connection with the client, whatever it wanted. */
  predicate Wanted(d: Tx, op: MainOp, r: Reply) {
    d.down.clientKeepAlive && !(op.ReadHead? && r.ok && r.status != 101)
  }

  predicate Failed(d: Tx, op: MainOp, r: Reply, s: Tx) { Answers(d, s, FailureStatus(op, r), Wanted(d, op, r)) }

  /** A first failure on a pooled stream before anything was sent. */
  predicate Retry(d: Tx, op: MainOp, r: Reply) {
    op.SendHeader? && !r.ok && r.nothingSent && d.link.fromPool && !d.link.retried
  }

  lemma SetupFails(d: Tx, op: MainOp, r: Reply)
    requires Free(d) && Setup(op) && !r.ok && (op.Connect? || op.Handshake? ==> d.life.connecting) && !Retry(d, op, r)
    ensures Failed(d, op, r, HandleMain(d, op, r))
  {
    FailAnswers(d, r.timeout);
    FailAnswers(Connecting(d, false), r.timeout);
  }

  lemma EarlyAnswers(d: Tx)
    requires !d.up.complete
    ensures Answers(d, Respond(Seen(d), 503), 503, false)
  {
    RespondAnswers(Seen(d), 503);
  }

  lemma HeadFailsAs(d: Tx, r: Reply)
    requires Free(d) && !GoesWell(d, ReadHead, r)
    ensures Failed(d, ReadHead, r, OnResponseHeader(d, r))
  {
    if !r.ok {
      FailAnswers(d, r.timeout);
    } else if r.status == 101 {
      RespondAnswers(d, 502);
    } else {
      EarlyAnswers(d);
    }
  }

  lemma UpgradeFailsAs(d: Tx, op: MainOp, r: Reply)
    requires Free(d) && Upgrading(op) && !GoesWell(d, op, r)
    ensures Failed(d, op, r, HandleMain(d, op, r))
  {
    FailAnswers(d, r.timeout);
    RespondAnswers(d, 502);
    RespondAnswers(d, 503);
  }

  /** An operation before the response header that does not go well is answered, unless it is retried. */
  lemma MainFailsAs(t: Tx, r: Reply)
    requires Inv(t) && Enabled(t, Done(MainChain, r)) && Undecided(t.life) && t.errors == 0
    requires !Relaying(t.ops.main) && !GoesWell(t, t.ops.main, r) && !Retry(t, t.ops.main, r)
    ensures Failed(Return(t, MainChain), t.ops.main, r, Handle(t, MainChain, r))
  {
    var d, op := Return(t, MainChain), t.ops.main;
    MainFinds(t);
    if Setup(op) {
      SetupFails(d, op, r);
    } else if op.ReadHead? {
      HeadFailsAs(d, r);
    } else {
      UpgradeFailsAs(d, op, r);
    }
  }

  /** A new connection is set up, or its server name is refused. */
  predicate Connects(d: Tx, r: Reply, s: Tx) {
    if d.config.https && !r.sniAccepted then s.errors == d.errors + 1 && s.status == 502
    else
      && s.life.connecting && s.ops == d.ops.(timer := true, resolving := true) && s.errors == d.errors
      && s.backend == Backend(true, false) && !s.link.fromPool
  }

  lemma ConnectingConnects(d: Tx, r: Reply)
    requires Undecided(d.life)
    ensures var s := ConnectBackend(d, r); Connects(d, r, s) && s.link.retried == d.link.retried
  {
    var e := EmplaceStream(d.(link := d.link.(fromPool := false)));
    FailAnswers(e, false);
  }

  /** A header that failed on a pooled stream without being sent is retried, once, on a new connection. */
  lemma HeaderIsRetried(t: Tx, r: Reply)
    requires Inv(t) && Enabled(t, Done(MainChain, r)) && Undecided(t.life) && t.errors == 0
    requires t.ops.main.SendHeader? && Retry(t, t.ops.main, r)
    ensures var s := Handle(t, MainChain, r); Connects(Return(t, MainChain), r, s) && s.link.retried
  {
    var d := Return(t, MainChain);
    MainFinds(t);
    var again := d.(link := d.link.(retried := true));
    CloseLeaves(again);
    ConnectingConnects(CloseBackend(again), r);
  }

  // ---------------------------------------------------------------- the end of a response

  /** Whether the stream of a finished response can be used again. */
  predicate Reusable(d: Tx, socketOpen: bool) {
    d.config.keepAliveWanted && d.down.backendKeepAlive && socketOpen
  }

  lemma NormalEnd(d: Tx, socketOpen: bool)
    requires Free(d)
    ensures var s, whole := FinishNormal(d, socketOpen), !d.down.early && d.up.complete;
      && EndsWith(s, d.status, whole && d.down.clientKeepAlive)
      && (whole ==> s.life.completed)
      && (!s.backend.closeRequested <==> whole && Reusable(d, socketOpen))
      && (!s.backend.closeRequested ==> !s.backend.stream)
  {
    CloseLeaves(d);
    if d.down.early || !d.up.complete {
      QuietTells(CloseBackend(d), Finish(d.status, false));
      QuietLeaves(CloseBackend(d), Finish(d.status, false));
    } else {
      FinishTells(CloseBackend(d), Finish(d.status, d.down.clientKeepAlive));
      FinishTells(PoolStream(d), Finish(d.status, d.down.clientKeepAlive));
    }
  }

  lemma QuietLeaves(d: Tx, f: Finish)
    ensures FinishWhenQuiet(d, f).backend.closeRequested == d.backend.closeRequested
  {
  }

  /** The response is over: the whole of it was written. */
  predicate IsOver(d: Tx, op: MainOp, r: Reply) {
    r.ok && r.serialized && ((op.SendHead? && d.down.done) || (op.SendBody? && !r.needBuffer))
  }

  /** The end of a response: its own status, and what becomes of both connections. */
  ghost predicate Over(d: Tx, r: Reply, s: Tx) {
    var whole := !d.down.early && d.up.complete;
    && EndsWith(s, d.status, whole && d.down.clientKeepAlive) && (whole ==> s.life.completed)
    && (!s.backend.closeRequested <==> whole && Reusable(d, r.socketOpen))
  }

  lemma RelayEnds(d: Tx, op: MainOp, r: Reply)
    requires Free(d) && Relaying(op) && !GoesWell(d, op, r)
    ensures var s := HandleMain(d, op, r);
      if IsOver(d, op, r) then Over(d, r, s) else EndsWith(s, if d.status == 0 then 502 else d.status, false)
  {
    NormalEnd(d, r.socketOpen);
    EndTells(d, Finish(if d.status == 0 then 502 else d.status, false));
  }

  /**
   After the response header was sent: a response that is over ends with its own status, and both connections are used
   again exactly if the whole request was sent and each side allows it; any failure ends without another response.
   */
  lemma ResponseEndsAs(t: Tx, r: Reply)
    requires Inv(t) && Enabled(t, Done(MainChain, r)) && Undecided(t.life) && t.errors == 0
    requires Relaying(t.ops.main) && !GoesWell(t, t.ops.main, r)
    ensures var s := Handle(t, MainChain, r);
      if IsOver(t, t.ops.main, r) then Over(t, r, s) else EndsWith(s, if t.status == 0 then 502 else t.status, false)
  {
    MainFinds(t);
    RelayEnds(Return(t, MainChain), t.ops.main, r);
  }

  // ---------------------------------------------------------------- the other chains

  /** The permit: refused or without memory an error, else a pooled stream or a new connection. */
  lemma PermitOutcome(t: Tx, r: Reply)
    requires Inv(t) && t.ops.awaitPermit && Undecided(t.life)
    ensures var d, s := Return(t, PermitChain), Handle(t, PermitChain, r);
      if !r.ok || (!t.config.websocket && !r.memory) then s.errors == 1 && s.status == 503 && s.ops == d.ops
      else if t.config.keepAliveWanted && !t.config.websocket && r.pooled then
        s.ops == d.ops.(main := SendHeader) && s.link.fromPool && s.backend == Backend(true, false)
      else Connects(d, r, s)
  {
    var d := Return(t, PermitChain);
    var held := d.(life := d.life.(permit := true));
    RespondAnswers(d, 503);
    RespondAnswers(held, 503);
    PooledOrNew(held.(link := d.link.(httpBuffer := d.link.httpBuffer || !d.config.websocket)), r);
  }

  lemma PooledOrNew(d: Tx, r: Reply)
    requires Undecided(d.life) && !d.backend.stream
    ensures var s := UseOrConnect(d, r);
      if d.config.keepAliveWanted && !d.config.websocket && r.pooled then
        s.ops == d.ops.(main := SendHeader) && s.link.fromPool && s.backend == Backend(true, false)
      else Connects(d, r, s)
  {
    ConnectingConnects(d, r);
  }

  lemma ResolvedOutcome(t: Tx, r: Reply)
    requires Inv(t) && t.ops.resolving && t.life.connecting && Undecided(t.life)
    ensures var d, s := Return(t, ResolveChain), Handle(t, ResolveChain, r);
      if r.ok then s.ops == d.ops.(main := Connect) && s.errors == d.errors
      else Answers(d, s, if r.timeout then 504 else 502, d.down.clientKeepAlive)
  {
    FailAnswers(Connecting(Return(t, ResolveChain), false), r.timeout);
  }

  lemma TimerOutcome(t: Tx, r: Reply)
    requires Inv(t) && t.ops.timer && Undecided(t.life)
    ensures var d, s := Return(t, TimerChain), Handle(t, TimerChain, r);
      if r.ok && t.life.connecting then s.errors == d.errors + 1 && s.status == 504 && s.ops == d.ops
      else s == d
  {
    var d := Return(t, TimerChain);
    CloseLeaves(Connecting(d, false));
    FailAnswers(CloseBackend(Connecting(d, false)), true);
  }

  /** When an error response was written the transaction ends with its status. */
  lemma ErrorOutcome(t: Tx, r: Reply)
    requires Inv(t) && t.errors > 0 && Undecided(t.life)
    ensures EndsWith(Handle(t, ErrorChain, r), t.status, r.ok && t.down.errorKeepAlive)
  {
    QuietTells(Return(t, ErrorChain), Finish(t.status, r.ok && t.down.errorKeepAlive));
  }

  /** A cancel or an exception ends the transaction with the status it has, or with 499 or 500. */
  lemma CancelOutcome(t: Tx, chain: Chain)
    requires !t.life.completed
    ensures EndsWith(OnCancel(t), if t.status == 0 then 499 else t.status, false)
    ensures EndsWith(Abort(Return(t, chain)), if t.status == 0 then 500 else t.status, false)
  {
    EndTells(Connecting(t, false), Finish(if t.status == 0 then 499 else t.status, false));
    ReturnLeaves(t, chain);
    AbortTells(Return(t, chain));
  }

  lemma ReturnLeaves(t: Tx, chain: Chain)
    ensures var d := Return(t, chain); d.life == t.life && d.status == t.status
  {
  }

  lemma AbortTells(d: Tx)
    requires !d.life.completed
    ensures EndsWith(Abort(d), if d.status == 0 then 500 else d.status, false)
  {
    CloseLeaves(Connecting(d, false));
    var closed := CloseBackend(Connecting(d, false));
    DeferredTells(closed.(life := closed.life.(
      deferred := Some(Finish(StatusOr(d, 500), false)), clientCancelRequested := true)));
  }

  // ---------------------------------------------------------------- the verdict stands

  lemma DecidedVerdict(t: Tx, chain: Chain, r: Reply)
    requires Inv(t) && Enabled(t, Done(chain, r)) && t.life.deferred.Some?
    ensures Verdict(Handle(t, chain, r).life) == Verdict(t.life)
  {
    var d := Return(t, chain);
    ReturnLeaves(t, chain);
    DeferredTells(d);
    match chain {
      case MainChain => MainGivesUp(t);
      case UploadChain => UploadVerdict(d, t.ops.upload, r);
      case PermitChain => NoPermitWhenDecided(t);
      case _ =>
    }
  }

  lemma NoPermitWhenDecided(t: Tx)
    requires Inv(t) && t.life.deferred.Some?
    ensures !t.ops.awaitPermit
  {
  }

  lemma UploadVerdict(d: Tx, op: UploadOp, r: Reply)
    requires d.life.deferred.Some? && !d.life.completed
    ensures Verdict(HandleUpload(d, op, r).life) == Verdict(d.life)
  {
    DeferredTells(d.(up := d.up.(parserDone := d.up.parserDone || r.done)));
    DeferredTells(d.(up := d.up.(lastChunkSent := d.up.lastChunkSent || r.ok)));
    if op.SendChunk? {
      DeferredTells(d.(unsent := LeftOver(d.unsent, op.bytes, r.ok)));
    }
  }

  /** The event does not decide the end anew. */
  predicate Leaves(t: Tx, e: Event) { e.Done? || t.life.completed }

  lemma VerdictStep(t: Tx, e: Event)
    requires Inv(t) && Enabled(t, e) && !Undecided(t.life) && Leaves(t, e)
    ensures Verdict(Step(t, e).life) == Verdict(t.life) && !Undecided(Step(t, e).life)
  {
    if t.life.completed {
      CompletedStep(t, e);
    } else {
      DecidedVerdict(t, e.chain, e.r);
      DecidedStep(t, e);
    }
  }

  predicate KeepsVerdict(t: Tx, s: Tx) {
    !Undecided(t.life) ==> Verdict(s.life) == Verdict(t.life) && !Undecided(s.life)
  }

  lemma VerdictNext(ts: seq<Tx>, events: seq<Event>, c: Config, i: nat)
    requires Run(ts, events, c) && i < |events| && Leaves(ts[i], events[i])
    ensures KeepsVerdict(ts[i], ts[i + 1])
  {
    RunGood(ts, events, c, i);
    if !Undecided(ts[i].life) {
      VerdictStep(ts[i], events[i]);
    }
  }

  lemma {:induction false} VerdictKept(ts: seq<Tx>, i: nat, j: nat)
    requires i <= j < |ts| && !Undecided(ts[i].life)
    requires forall k: nat :: i <= k < j ==> KeepsVerdict(ts[k], ts[k + 1])
    ensures Verdict(ts[j].life) == Verdict(ts[i].life) && !Undecided(ts[j].life)
    decreases j
  {
    if i < j {
      var k := j - 1;
      VerdictKept(ts, i, k);
      assert KeepsVerdict(ts[k], ts[k + 1]);
    }
  }

  /** In every run the completion handler is told what was decided, unless a cancel or an exception decides anew. */
  lemma VerdictStands(ts: seq<Tx>, events: seq<Event>, c: Config, i: nat, j: nat)
    requires Run(ts, events, c) && i <= j < |ts| && !Undecided(ts[i].life)
    requires forall k: nat :: i <= k < j ==> Leaves(ts[k], events[k])
    ensures Verdict(ts[j].life) == Verdict(ts[i].life) && !Undecided(ts[j].life)
  {
    forall k: nat | i <= k < j ensures KeepsVerdict(ts[k], ts[k + 1]) {
      VerdictNext(ts, events, c, k);
    }
    VerdictKept(ts, i, j);
  }
}
