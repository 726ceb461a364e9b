/**
 The order of the operations of a transaction over its runs: the main chain follows the protocol, nothing of a response
 is read before the request header was sent, and the header is not sent again once the backend may have seen any of it.
 */
module ProxyOrder {
  import opened Options
  import opened ProxyTransaction
  import opened ProxyInvariant
  import opened ProxyTheorems

  // ---------------------------------------------------------------- what follows what

  /** Which operation of the main chain follows which; every one may be the last. */
  predicate Follows(c: Config, op: MainOp, next: MainOp) {
    next.NoMain? ||
    match op
    case NoMain => next.Connect? || (next.SendHeader? && c.keepAliveWanted && !c.websocket)
    case Connect => if c.https then next.Handshake? else next.SendHeader?
    case Handshake => next.SendHeader?
    case SendHeader =>
      if c.websocket then next.ReadUpgrade?
      else next.ReadHead? || (next.SendContinue? && c.expectContinue && !c.bodyComplete)
    case SendContinue => next.ReadHead?
    case ReadHead => next.ReadHead? || next.SendHead?
    case SendHead => next.ReadBody? || next.SendBody?
    case ReadBody => next.SendBody?
    case SendBody => next.ReadBody? || next.SendBody?
    case ReadUpgrade => next.SendUpgrade?
    case SendUpgrade => next.FlushUp? || next.FlushDown?
    case FlushUp => next.FlushDown?
    case FlushDown => false
  }

  predicate InOrder(t: Tx, s: Tx) { s.ops.main == t.ops.main || Follows(t.config, t.ops.main, s.ops.main) }

  // ---------------------------------------------------------------- what the callbacks are made of

  /** The operation of the main chain becomes `op`; no connection is set up that was not before. */
  predicate GoesTo(d: Tx, s: Tx, op: MainOp) {
    && s.config == d.config && s.ops.main == op && s.ops.awaitPermit == d.ops.awaitPermit
    && (s.life.connecting ==> d.life.connecting) && s.link.retried == d.link.retried
  }

  /** The directions of the tunnel are left alone, or start with a read. */
  predicate OutAlone(d: Tx, s: Tx) { s.ops.out == d.ops.out || s.ops.out.TunnelIn? }

  predicate BackAlone(d: Tx, s: Tx) { s.ops.back == d.ops.back || s.ops.back.TunnelRecv? }

  predicate TunnelAlone(d: Tx, s: Tx) { OutAlone(d, s) && BackAlone(d, s) }

  predicate Goes(d: Tx, s: Tx, op: MainOp) { GoesTo(d, s, op) && TunnelAlone(d, s) && s.unsent == d.unsent }

  predicate Rests(d: Tx, s: Tx) { Goes(d, s, d.ops.main) }

  lemma CloseRests(d: Tx)
    ensures Rests(d, CloseBackend(d))
  {
  }

  lemma FinishRests(d: Tx, f: Finish)
    ensures Rests(d, FinishNow(d, f))
  {
  }

  lemma DeferredRests(d: Tx)
    ensures Rests(d, MaybeFinishDeferred(d))
  {
    if d.life.deferred.Some? {
      FinishRests(MaybeReleaseClosed(d).(life := d.life.(deferred := None)), d.life.deferred.value);
    }
  }

  lemma QuietRests(d: Tx, f: Finish)
    ensures Rests(d, FinishWhenQuiet(d, f))
  {
    DeferredRests(d.(life := d.life.(
      deferred := Some(f), clientCancelRequested := d.life.clientCancelRequested || d.clientPending != 0)));
  }

  lemma EndRests(d: Tx, f: Finish)
    ensures Rests(d, FinishWhenQuiet(CloseBackend(d), f))
  {
    CloseRests(d);
    QuietRests(CloseBackend(d), f);
  }

  lemma RespondRests(d: Tx, status: nat)
    ensures Rests(d, Respond(d, status))
  {
    CloseRests(d);
  }

  lemma FailRests(d: Tx, timeout: bool)
    ensures Rests(d, Fail(d, timeout))
  {
    RespondRests(Connecting(d, false), if timeout then 504 else 502);
  }

  lemma FailAfterHeaderRests(d: Tx)
    ensures Rests(d, FailAfterHeader(d))
  {
    EndRests(d, Finish(StatusOr(d, 502), false));
  }

  lemma PoolRests(d: Tx)
    ensures Rests(d, PoolStream(d))
  {
  }

  lemma FinishNormalRests(d: Tx, socketOpen: bool)
    ensures Rests(d, FinishNormal(d, socketOpen))
  {
    if d.down.early || !d.up.complete {
      EndRests(d, Finish(d.status, false));
    } else {
      var f := Finish(d.status, d.down.clientKeepAlive);
      PoolRests(d);
      CloseRests(d);
      FinishRests(PoolStream(d), f);
      FinishRests(CloseBackend(d), f);
    }
  }

  lemma FinishTunnelRests(d: Tx)
    ensures Rests(d, FinishTunnel(d))
  {
    EndRests(d, Finish(101, false));
  }

  lemma CancelRests(t: Tx)
    ensures Rests(t, OnCancel(t))
  {
    EndRests(Connecting(t, false), Finish(StatusOr(t, 499), false));
  }

  lemma AbortRests(t: Tx)
    ensures Rests(t, Abort(t))
  {
    var closed := CloseBackend(Connecting(t, false));
    CloseRests(Connecting(t, false));
    DeferredRests(closed.(life := closed.life.(
      deferred := Some(Finish(StatusOr(t, 500), false)), clientCancelRequested := true)));
  }

  lemma StartGoes(d: Tx, op: MainOp)
    ensures Goes(d, StartMain(d, op), op) && StartMain(d, op).life == d.life
  {
  }

  lemma UploadRests(d: Tx, op: UploadOp)
    ensures Rests(d, StartUpload(d, op))
  {
  }

  lemma ReadChunkRests(d: Tx)
    ensures Rests(d, ReadRequestBodyChunk(d))
  {
    UploadRests(Blame(d, !d.link.httpBuffer, NullBuffer), RecvBody);
  }

  lemma FinishBodyRests(d: Tx)
    ensures Rests(d, FinishRequestBody(d))
  {
    UploadRests(d, SendLastChunk);
  }

  lemma HeadReads(d: Tx)
    ensures Rests(d, ReadResponseHeader(d)) || Goes(d, ReadResponseHeader(d), ReadHead)
  {
    StartGoes(d.(down := d.down.(headStarted := true)), ReadHead);
  }

  lemma TunnelRests(d: Tx)
    ensures Rests(d, ReadFromClient(d)) && Rests(d, ReadFromBackend(d))
  {
  }

  lemma TunnelStarts(d: Tx)
    ensures Rests(d, StartTunnel(d))
  {
    TunnelRests(d);
    TunnelRests(ReadFromClient(d));
  }

  // ---------------------------------------------------------------- the callbacks of the main chain

  /** A first failed write of the header on a pooled stream that has sent nothing. */
  predicate Stale(d: Tx, r: Reply) { !r.ok && r.nothingSent && d.link.fromPool && !d.link.retried }

  /** An operation `op` of the main chain has returned to `d`, and its callback has led to `s`. */
  predicate Handled(d: Tx, op: MainOp, r: Reply, s: Tx) {
    && Follows(d.config, op, s.ops.main)
    && s.ops.awaitPermit == d.ops.awaitPermit
    && (op.SendHeader? && !r.ok ==> s.ops.main.NoMain?)
    && (s.ops.main.SendHeader? ==> d.life.connecting && !s.life.connecting)
    && (s.life.connecting && !d.life.connecting ==> op.SendHeader? && Stale(d, r) && s.link.retried)
    && (d.link.retried ==> s.link.retried)
    && TunnelAlone(d, s) && s.unsent == d.unsent
  }

  lemma ConnectHandled(d: Tx, r: Reply)
    requires d.ops.main.NoMain?
    ensures Handled(d, Connect, r, OnConnect(d, r))
  {
    DeferredRests(d);
    FailRests(d, r.timeout);
    StartGoes(d, Handshake);
    StartGoes(Connecting(d, false), SendHeader);
  }

  lemma HandshakeHandled(d: Tx, r: Reply)
    requires d.ops.main.NoMain?
    ensures Handled(d, Handshake, r, OnHandshake(d, r))
  {
    DeferredRests(d);
    FailRests(Connecting(d, false), r.timeout);
    StartGoes(Connecting(d, false), SendHeader);
  }

  lemma ConnectingSets(d: Tx, r: Reply)
    ensures var s := ConnectBackend(d, r);
      && s.ops.main == d.ops.main && s.ops.awaitPermit == d.ops.awaitPermit && s.link.retried == d.link.retried
      && TunnelAlone(d, s) && s.unsent == d.unsent
  {
    FailRests(EmplaceStream(d.(link := d.link.(fromPool := false))), false);
  }

  lemma RetryHandled(d: Tx, r: Reply)
    requires d.ops.main.NoMain? && Stale(d, r)
    ensures Handled(d, SendHeader, r, ConnectBackend(CloseBackend(d.(link := d.link.(retried := true))), r))
  {
    var again := d.(link := d.link.(retried := true));
    CloseRests(again);
    ConnectingSets(CloseBackend(again), r);
  }

  lemma RequestReads(d: Tx)
    requires d.ops.main.NoMain?
    ensures var s := ReadRequestBodyChunk(ReadResponseHeader(d)); Rests(d, s) || Goes(d, s, ReadHead)
  {
    HeadReads(d);
    ReadChunkRests(ReadResponseHeader(d));
  }

  lemma HeaderGoes(d: Tx, r: Reply)
    requires d.ops.main.NoMain? && r.ok && !Ending(d) && (d.config.bodyComplete ==> d.up.parserDone)
    ensures Handled(d, SendHeader, r, OnRequestHeaderWritten(d, r))
  {
    var written := d.(link := d.link.(fromPool := false));
    if d.config.websocket {
      StartGoes(written, ReadUpgrade);
    } else if d.up.parserDone {
      HeadReads(written.(up := d.up.(complete := true)));
    } else if d.config.expectContinue {
      StartGoes(written, SendContinue);
    } else {
      RequestReads(written);
    }
  }

  lemma HeaderHandled(d: Tx, r: Reply)
    requires d.ops.main.NoMain? && (d.config.bodyComplete ==> d.up.parserDone)
    ensures Handled(d, SendHeader, r, OnRequestHeaderWritten(d, r))
  {
    if Ending(d) {
      EndingHandled(d, SendHeader, r);
    } else if r.ok {
      HeaderGoes(d, r);
    } else if Stale(d, r) {
      RetryHandled(d, r);
    } else {
      FailHandled(d, SendHeader, r);
    }
  }

  lemma EndingHandled(d: Tx, op: MainOp, r: Reply)
    requires d.ops.main.NoMain?
    ensures Handled(d, op, r, MaybeFinishDeferred(d))
  {
    DeferredRests(d);
  }

  lemma FailHandled(d: Tx, op: MainOp, r: Reply)
    requires d.ops.main.NoMain?
    ensures Handled(d, op, r, Fail(d, r.timeout))
  {
    FailRests(d, r.timeout);
  }

  lemma ContinueHandled(d: Tx, r: Reply)
    requires d.ops.main.NoMain?
    ensures Handled(d, SendContinue, r, OnContinueWritten(d, r))
  {
    DeferredRests(d);
    FailRests(d, r.timeout);
    RequestReads(d);
  }

  lemma AcceptHandled(d: Tx, r: Reply)
    requires d.ops.main.NoMain?
    ensures Handled(d, ReadHead, r, AcceptResponse(d, r))
  {
    RespondRests(Seen(d), 503);
    StartGoes(Accepted(Seen(d), r), SendHead);
  }

  lemma HeadHandled(d: Tx, r: Reply)
    requires d.ops.main.NoMain?
    ensures Handled(d, ReadHead, r, OnResponseHeader(d, r))
  {
    if d.backend.closeRequested || d.life.completed {
      EndingHandled(d, ReadHead, r);
    } else if !r.ok {
      FailHandled(d, ReadHead, r);
    } else if 100 <= r.status < 200 && r.status != 101 {
      HeadReads(d.(down := d.down.(headStarted := false)));
    } else if r.status == 101 {
      RespondRests(d, 502);
    } else {
      AcceptHandled(d, r);
    }
  }

  lemma BodyStarts(d: Tx)
    ensures Goes(d, ReadBodyChunk(d), ReadBody) && Goes(d, WriteBodyPart(d), SendBody)
  {
    StartGoes(Blame(d, !d.down.ownBuffer && !d.link.httpBuffer, NullBuffer), ReadBody);
    StartGoes(d, SendBody);
  }

  lemma HeadSentHandled(d: Tx, r: Reply)
    requires d.ops.main.NoMain?
    ensures Handled(d, SendHead, r, OnHeaderWritten(d, r))
  {
    DeferredRests(d);
    FailAfterHeaderRests(d);
    FinishNormalRests(d, r.socketOpen);
    BodyStarts(d);
  }

  lemma BodyReadHandled(d: Tx, r: Reply)
    requires d.ops.main.NoMain?
    ensures Handled(d, ReadBody, r, OnBodyRead(d, r))
  {
    DeferredRests(d);
    FailAfterHeaderRests(d);
    BodyStarts(d.(down := d.down.(done := r.done, buffered := true)));
  }

  lemma BodySentHandled(d: Tx, r: Reply)
    requires d.ops.main.NoMain?
    ensures Handled(d, SendBody, r, OnBodyWritten(d, r))
  {
    DeferredRests(d);
    FailAfterHeaderRests(d);
    FinishNormalRests(d, r.socketOpen);
    BodyStarts(d);
  }

  lemma UpgradeReadHandled(d: Tx, r: Reply)
    requires d.ops.main.NoMain?
    ensures Handled(d, ReadUpgrade, r, OnUpgradeResponse(d, r))
  {
    DeferredRests(d);
    FailRests(d, r.timeout);
    RespondRests(d, 502);
    RespondRests(d, 503);
    StartGoes(UseStream(d.(link := d.link.(tunnelBuffers := true), status := 101)), SendUpgrade);
  }

  lemma FlushGoes(d: Tx, r: Reply)
    ensures Rests(d, FlushBackendBuffer(d, r)) || Goes(d, FlushBackendBuffer(d, r), FlushDown)
  {
    TunnelStarts(d);
    StartGoes(d, FlushDown);
  }

  lemma UpgradeSentHandled(d: Tx, r: Reply)
    requires d.ops.main.NoMain?
    ensures Handled(d, SendUpgrade, r, OnUpgradeWritten(d, r))
  {
    DeferredRests(d);
    FailRests(d, r.timeout);
    FlushGoes(d, r);
    StartGoes(d, FlushUp);
  }

  lemma FlushUpHandled(d: Tx, r: Reply)
    requires d.ops.main.NoMain?
    ensures Handled(d, FlushUp, r, OnClientBufferFlushed(d, r))
  {
    DeferredRests(d);
    FailRests(d, r.timeout);
    FlushGoes(d, r);
  }

  lemma FlushedHandled(d: Tx, r: Reply)
    requires d.ops.main.NoMain?
    ensures Handled(d, FlushDown, r, OnBackendBufferFlushed(d, r))
  {
    DeferredRests(d);
    FailRests(d, r.timeout);
    TunnelStarts(d);
  }

  lemma MainHandled(d: Tx, op: MainOp, r: Reply)
    requires d.ops.main.NoMain? && !op.NoMain? && (d.config.bodyComplete ==> d.up.parserDone)
    ensures Handled(d, op, r, HandleMain(d, op, r))
  {
    match op {
      case Connect => ConnectHandled(d, r);
      case Handshake => HandshakeHandled(d, r);
      case SendHeader => HeaderHandled(d, r);
      case SendContinue => ContinueHandled(d, r);
      case ReadHead => HeadHandled(d, r);
      case SendHead => HeadSentHandled(d, r);
      case ReadBody => BodyReadHandled(d, r);
      case SendBody => BodySentHandled(d, r);
      case ReadUpgrade => UpgradeReadHandled(d, r);
      case SendUpgrade => UpgradeSentHandled(d, r);
      case FlushUp => FlushUpHandled(d, r);
      case FlushDown => FlushedHandled(d, r);
    }
  }

  // ---------------------------------------------------------------- every step

  /** The transaction has not yet sent a request header on the connection that it uses or sets up. */
  predicate Preparing(t: Tx) { t.ops.awaitPermit || t.life.connecting }

  predicate StartsHeader(t: Tx, s: Tx) { !t.ops.main.SendHeader? && s.ops.main.SendHeader? }

  /** The write of a header on a pooled stream fails without having sent anything, for the first time. */
  predicate Retries(t: Tx, e: Event) { t.ops.main.SendHeader? && e.Done? && e.chain.MainChain? && Stale(t, e.r) }

  /** The write of the request header has succeeded. */
  predicate SentHeader(t: Tx, e: Event) { t.ops.main.SendHeader? && e.Done? && e.chain.MainChain? && e.r.ok }

  predicate AfterHeader(op: MainOp) { op.SendContinue? || Responding(op) || Upgrading(op) }

  /** What a step does to the main chain: it keeps to the order, and to one header for each connection. */
  ghost predicate Ordered(t: Tx, e: Event, s: Tx) {
    && InOrder(t, s)
    && (AfterHeader(s.ops.main) && !AfterHeader(t.ops.main) ==> SentHeader(t, e))
    && (StartsHeader(t, s) ==> Preparing(t) && !Preparing(s))
    && (!Preparing(t) && Preparing(s) ==> Retries(t, e) && s.link.retried)
    && (t.link.retried ==> s.link.retried)
    && (OtherThan(e, OutChain) ==> s.ops.out == t.ops.out || s.ops.out.TunnelIn? || s.ops.out.NoOut?)
    && (OtherThan(e, BackChain) ==> s.ops.back == t.ops.back || s.ops.back.TunnelRecv? || s.ops.back.NoBack?)
    && (OtherThan(e, UploadChain) ==> s.unsent == t.unsent)
  }

  predicate OtherThan(e: Event, chain: Chain) { !(e.Done? && e.chain == chain) }

  lemma ReturnRests(t: Tx, chain: Chain)
    ensures var d := Return(t, chain);
      && d.config == t.config && d.life == t.life && d.link == t.link && d.up == t.up
      && d.ops.main == (if chain.MainChain? then NoMain else t.ops.main)
      && d.ops.awaitPermit == (t.ops.awaitPermit && !chain.PermitChain?)
      && d.ops.out == (if chain.OutChain? then NoOut else t.ops.out)
      && d.ops.back == (if chain.BackChain? then NoBack else t.ops.back) && d.unsent == t.unsent
  {
  }

  lemma MainOrdered(t: Tx, r: Reply)
    requires Inv(t) && !t.ops.main.NoMain?
    ensures Ordered(t, Done(MainChain, r), Handle(t, MainChain, r))
  {
    var d := Return(t, MainChain);
    ReturnRests(t, MainChain);
    MainHandled(d, t.ops.main, r);
    HandledOrdered(t, d, r, HandleMain(d, t.ops.main, r));
  }

  lemma HandledOrdered(t: Tx, d: Tx, r: Reply, s: Tx)
    requires !t.ops.main.NoMain? && !t.ops.awaitPermit && d.life == t.life && d.link == t.link && d.config == t.config
    requires d.ops.awaitPermit == t.ops.awaitPermit && d.ops.out == t.ops.out && d.ops.back == t.ops.back
    requires d.unsent == t.unsent
    requires Handled(d, t.ops.main, r, s)
    ensures Ordered(t, Done(MainChain, r), s)
  {
  }

  /** A step that leaves the main chain alone, or ends its operation. */
  lemma RestingOrdered(t: Tx, e: Event, d: Tx, s: Tx)
    requires d.config == t.config && d.life == t.life && d.link == t.link && (d.ops.awaitPermit ==> t.ops.awaitPermit)
    requires (d.ops.main == t.ops.main || d.ops.main.NoMain?) && GoesTo(d, s, d.ops.main)
    requires OtherThan(e, OutChain) ==> s.ops.out == t.ops.out || s.ops.out.TunnelIn? || s.ops.out.NoOut?
    requires OtherThan(e, BackChain) ==> s.ops.back == t.ops.back || s.ops.back.TunnelRecv? || s.ops.back.NoBack?
    requires OtherThan(e, UploadChain) ==> s.unsent == t.unsent
    ensures Ordered(t, e, s)
  {
  }

  lemma ForwardRests(d: Tx, produced: nat)
    ensures var s := ForwardBody(d, produced); GoesTo(d, s, d.ops.main) && TunnelAlone(d, s)
  {
    var read := d.(up := d.up.(bodyRead := d.up.parserDone), unsent := d.unsent + produced);
    FinishBodyRests(read);
    ReadChunkRests(read);
    UploadRests(read, SendChunk(produced));
  }

  lemma BodyReadRests(d: Tx, r: Reply)
    ensures var s := OnRequestBodyRead(d, r); GoesTo(d, s, d.ops.main) && TunnelAlone(d, s)
  {
    var e := d.(up := d.up.(parserDone := d.up.parserDone || r.done));
    DeferredRests(e);
    RespondRests(e, if r.tooLarge then 413 else if r.timeout then 408 else 400);
    ForwardRests(e, r.produced);
  }

  lemma BodyWrittenRests(d: Tx, bytes: nat, r: Reply)
    ensures var s := OnRequestBodyWritten(d, bytes, r); GoesTo(d, s, d.ops.main) && TunnelAlone(d, s)
  {
    var e := d.(unsent := LeftOver(d.unsent, bytes, r.ok));
    DeferredRests(e);
    FailRests(e, r.timeout);
    FinishBodyRests(e);
    ReadChunkRests(e);
  }

  lemma BodyFinishedRests(d: Tx, r: Reply)
    ensures Rests(d, OnRequestBodyFinished(d, r))
  {
    var e := d.(up := d.up.(lastChunkSent := d.up.lastChunkSent || r.ok));
    DeferredRests(e);
    FailRests(e, r.timeout);
  }

  lemma UploadOrdered(t: Tx, r: Reply)
    ensures Ordered(t, Done(UploadChain, r), Handle(t, UploadChain, r))
  {
    var d := Return(t, UploadChain);
    ReturnRests(t, UploadChain);
    match t.ops.upload {
      case NoUpload =>
      case RecvBody => BodyReadRests(d, r);
      case SendChunk(bytes) => BodyWrittenRests(d, bytes, r);
      case SendLastChunk => BodyFinishedRests(d, r);
    }
    RestingOrdered(t, Done(UploadChain, r), d, Handle(t, UploadChain, r));
  }

  lemma TimerRests(d: Tx, r: Reply)
    ensures Rests(d, OnConnectTimeout(d, r))
  {
    CloseRests(Connecting(d, false));
    FailRests(CloseBackend(Connecting(d, false)), true);
  }

  lemma ErrorRests(d: Tx, r: Reply)
    ensures Rests(d, OnErrorWritten(d, r))
  {
    DeferredRests(d);
    QuietRests(d, Finish(d.status, r.ok && d.down.errorKeepAlive));
  }

  lemma OutStartRests(d: Tx, op: OutOp)
    ensures var s := StartOut(d, op); GoesTo(d, s, d.ops.main) && BackAlone(d, s) && s.unsent == d.unsent
  {
  }

  lemma BackStartRests(d: Tx, op: BackOp)
    ensures var s := StartBack(d, op); GoesTo(d, s, d.ops.main) && OutAlone(d, s) && s.unsent == d.unsent
  {
  }

  lemma OutRests(d: Tx, r: Reply)
    ensures var s := OnClientTunnelRead(d, r); GoesTo(d, s, d.ops.main) && BackAlone(d, s) && s.unsent == d.unsent
    ensures var s := OnBackendTunnelWritten(d, r); GoesTo(d, s, d.ops.main) && BackAlone(d, s) && s.unsent == d.unsent
  {
    DeferredRests(d);
    FinishTunnelRests(d);
    TunnelRests(d);
    OutStartRests(d, TunnelUp(r.produced));
  }

  lemma BackRests(d: Tx, r: Reply)
    ensures var s := OnBackendTunnelRead(d, r); GoesTo(d, s, d.ops.main) && OutAlone(d, s) && s.unsent == d.unsent
    ensures var s := OnClientTunnelWritten(d, r); GoesTo(d, s, d.ops.main) && OutAlone(d, s) && s.unsent == d.unsent
  {
    DeferredRests(d);
    FinishTunnelRests(d);
    TunnelRests(d);
    BackStartRests(d, TunnelDown(r.produced));
  }

  lemma OtherOrdered(t: Tx, chain: Chain, r: Reply)
    requires chain.TimerChain? || chain.OutChain? || chain.BackChain? || chain.ErrorChain?
    ensures Ordered(t, Done(chain, r), Handle(t, chain, r))
  {
    var d := Return(t, chain);
    ReturnRests(t, chain);
    match chain {
      case TimerChain => TimerRests(d, r);
      case OutChain => OutRests(d, r);
      case BackChain => BackRests(d, r);
      case ErrorChain => ErrorRests(d, r);
    }
    RestingOrdered(t, Done(chain, r), d, Handle(t, chain, r));
  }

  lemma ResolvedGoes(d: Tx, r: Reply)
    ensures Rests(d, OnResolved(d, r)) || (d.life.connecting && !d.life.completed && Goes(d, OnResolved(d, r), Connect))
  {
    FailRests(Connecting(d, false), r.timeout);
    StartGoes(d, Connect);
  }

  lemma ResolvedReturns(t: Tx)
    requires Inv(t) && t.ops.resolving && t.life.connecting && !t.life.completed
    ensures t.ops.main.NoMain?
  {
  }

  lemma ResolvedOrdered(t: Tx, r: Reply)
    requires Inv(t) && t.ops.resolving
    ensures Ordered(t, Done(ResolveChain, r), Handle(t, ResolveChain, r))
  {
    var d := Return(t, ResolveChain);
    ReturnRests(t, ResolveChain);
    ResolvedGoes(d, r);
    if Rests(d, OnResolved(d, r)) {
      RestingOrdered(t, Done(ResolveChain, r), d, OnResolved(d, r));
    } else {
      ResolvedReturns(t);
      ConnectingOrdered(t, Done(ResolveChain, r), d, OnResolved(d, r));
    }
  }

  lemma ConnectingOrdered(t: Tx, e: Event, d: Tx, s: Tx)
    requires d.config == t.config && d.life == t.life && d.link == t.link && d.ops.awaitPermit == t.ops.awaitPermit
    requires d.ops.out == t.ops.out && d.ops.back == t.ops.back && d.unsent == t.unsent
    requires t.ops.main.NoMain? && t.life.connecting && Goes(d, s, Connect)
    ensures Ordered(t, e, s)
  {
  }

  lemma UseOrConnectSets(d: Tx, r: Reply)
    requires d.ops.main.NoMain? && !d.life.connecting && !d.backend.stream && !d.ops.awaitPermit
    ensures var s := UseOrConnect(d, r);
      && !s.ops.awaitPermit && s.link.retried == d.link.retried && s.config == d.config && TunnelAlone(d, s)
      && s.unsent == d.unsent
      && (s.ops.main.NoMain? ||
          (s.ops.main.SendHeader? && !s.life.connecting && d.config.keepAliveWanted && !d.config.websocket))
  {
    ConnectingSets(d, r);
    StartGoes(EmplaceStream(d).(link := d.link.(fromPool := true)), SendHeader);
  }

  /** The permit callback: an error response, a connection or a header on a pooled stream. */
  predicate Permitted(d: Tx, s: Tx) {
    && s.config == d.config && !s.ops.awaitPermit && s.link.retried == d.link.retried && TunnelAlone(d, s)
    && s.unsent == d.unsent
    && (s.ops.main.NoMain? ||
        (s.ops.main.SendHeader? && !s.life.connecting && d.config.keepAliveWanted && !d.config.websocket))
  }

  lemma PermitSets(d: Tx, r: Reply)
    requires d.ops.main.NoMain? && !d.life.connecting && !d.backend.stream && !d.ops.awaitPermit
    ensures Permitted(d, OnPermit(d, r))
  {
    var held := d.(life := d.life.(permit := true));
    RespondRests(d, 503);
    RespondRests(held, 503);
    UseOrConnectSets(held.(link := d.link.(httpBuffer := d.link.httpBuffer || !d.config.websocket)), r);
  }

  lemma PermittedOrdered(t: Tx, e: Event, d: Tx, s: Tx)
    requires t.ops.awaitPermit && t.ops.main.NoMain? && d.config == t.config && d.link == t.link && Permitted(d, s)
    requires d.ops.out == t.ops.out && d.ops.back == t.ops.back && d.unsent == t.unsent && OtherThan(e, UploadChain)
    ensures Ordered(t, e, s)
  {
  }

  lemma PermitReturns(t: Tx)
    requires Inv(t) && t.ops.awaitPermit
    ensures var d := Return(t, PermitChain);
      && d.config == t.config && d.link == t.link && d.life == t.life && !d.ops.awaitPermit
      && d.ops == t.ops.(awaitPermit := false) && d.unsent == t.unsent
      && (!t.life.completed ==> t.ops.main.NoMain? && !d.life.connecting && !d.backend.stream)
  {
  }

  lemma PermitOrdered(t: Tx, r: Reply)
    requires Inv(t) && t.ops.awaitPermit
    ensures Ordered(t, Done(PermitChain, r), Handle(t, PermitChain, r))
  {
    var d := Return(t, PermitChain);
    PermitReturns(t);
    if t.life.completed {
      RestingOrdered(t, Done(PermitChain, r), d, d);
    } else {
      PermitSets(d, r);
      PermittedOrdered(t, Done(PermitChain, r), d, OnPermit(d, r));
    }
  }

  lemma DoneOrdered(t: Tx, chain: Chain, r: Reply)
    requires Inv(t) && Enabled(t, Done(chain, r))
    ensures Ordered(t, Done(chain, r), Handle(t, chain, r))
  {
    match chain {
      case PermitChain => PermitOrdered(t, r);
      case ResolveChain => ResolvedOrdered(t, r);
      case MainChain => MainOrdered(t, r);
      case UploadChain => UploadOrdered(t, r);
      case _ => OtherOrdered(t, chain, r);
    }
  }

  lemma StepOrdered(t: Tx, e: Event)
    requires Inv(t) && Enabled(t, e)
    ensures Ordered(t, e, Step(t, e))
  {
    match e {
      case Done(chain, r) => DoneOrdered(t, chain, r);
      case CancelRequested =>
        CancelRests(t);
        RestingOrdered(t, e, t, OnCancel(t));
      case Threw(chain) =>
        ReturnRests(t, chain);
        AbortRests(Return(t, chain));
        RestingOrdered(t, e, Return(t, chain), Abort(Return(t, chain)));
    }
  }

  // ---------------------------------------------------------------- all runs

  lemma RunOrdered(ts: seq<Tx>, events: seq<Event>, c: Config, i: nat)
    requires Run(ts, events, c) && i < |events|
    ensures Ordered(ts[i], events[i], ts[i + 1]) && ts[i].config == c
  {
    RunGood(ts, events, c, i);
    StepOrdered(ts[i], events[i]);
  }

  /** In every run each operation of the main chain is one that follows the operation before it. */
  lemma MainFollowsProtocol(ts: seq<Tx>, events: seq<Event>, c: Config, i: nat)
    requires Run(ts, events, c) && i < |events|
    ensures ts[i + 1].ops.main == ts[i].ops.main || Follows(c, ts[i].ops.main, ts[i + 1].ops.main)
  {
    RunOrdered(ts, events, c, i);
  }

  /** In every run the backend is asked for a response or an upgrade only after the whole header was written to it. */
  lemma {:induction false} HeaderComesFirst(ts: seq<Tx>, events: seq<Event>, c: Config, j: nat) returns (i: nat)
    requires Run(ts, events, c) && j < |ts| && AfterHeader(ts[j].ops.main)
    ensures i < j && SentHeader(ts[i], events[i])
  {
    i := j - 1;
    RunOrdered(ts, events, c, i);
    if AfterHeader(ts[i].ops.main) {
      i := HeaderComesFirst(ts, events, c, i);
    }
  }

  /** Between a header that was started and a new preparation there is a retry. */
  lemma {:induction false} FindRetry(ts: seq<Tx>, events: seq<Event>, c: Config, i: nat, j: nat) returns (k: nat)
    requires Run(ts, events, c) && i <= j < |ts| && !Preparing(ts[i]) && Preparing(ts[j])
    ensures i <= k < j && Retries(ts[k], events[k]) && ts[k + 1].link.retried
    decreases j
  {
    k := j - 1;
    RunOrdered(ts, events, c, k);
    if Preparing(ts[k]) {
      k := FindRetry(ts, events, c, i, k);
    }
  }

  /**
   In every run a second write of the request header is started only after a first one, on a pooled stream, failed
   without having sent anything: no backend is given any part of a request twice.
   */
  lemma HeaderNotRepeated(ts: seq<Tx>, events: seq<Event>, c: Config, i: nat, j: nat) returns (k: nat)
    requires Run(ts, events, c) && i < j < |events| && StartsHeader(ts[i], ts[i + 1]) && StartsHeader(ts[j], ts[j + 1])
    ensures i < k < j && Retries(ts[k], events[k]) && ts[k + 1].link.retried
  {
    RunOrdered(ts, events, c, i);
    RunOrdered(ts, events, c, j);
    k := FindRetry(ts, events, c, i + 1, j);
  }

  predicate KeepsRetried(t: Tx, s: Tx) { t.link.retried ==> s.link.retried }

  lemma {:induction false} RetriedStays(ts: seq<Tx>, i: nat, j: nat)
    requires i <= j < |ts| && ts[i].link.retried
    requires forall k: nat :: i <= k < j ==> KeepsRetried(ts[k], ts[k + 1])
    ensures ts[j].link.retried
    decreases j
  {
    if i < j {
      var k := j - 1;
      RetriedStays(ts, i, k);
      assert KeepsRetried(ts[k], ts[k + 1]);
    }
  }

  lemma RunKeepsRetried(ts: seq<Tx>, events: seq<Event>, c: Config, i: nat)
    requires Run(ts, events, c) && i < |events|
    ensures KeepsRetried(ts[i], ts[i + 1])
  {
    RunOrdered(ts, events, c, i);
  }

  /** So it is started at most twice. */
  lemma HeaderAtMostTwice(ts: seq<Tx>, events: seq<Event>, c: Config, i: nat, j: nat, k: nat)
    requires Run(ts, events, c) && i < j < k < |events|
    requires StartsHeader(ts[i], ts[i + 1]) && StartsHeader(ts[j], ts[j + 1])
    ensures !StartsHeader(ts[k], ts[k + 1])
  {
    if StartsHeader(ts[k], ts[k + 1]) {
      var a := HeaderNotRepeated(ts, events, c, i, j);
      var b := HeaderNotRepeated(ts, events, c, j, k);
      forall m: nat | a + 1 <= m < b ensures KeepsRetried(ts[m], ts[m + 1]) {
        RunKeepsRetried(ts, events, c, m);
      }
      RetriedStays(ts, a + 1, b);
    }
  }
}
