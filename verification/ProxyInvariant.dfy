/** The invariant of the proxy transaction, kept by every callback in every interleaving. */
module ProxyInvariant {
  import opened Options
  import opened ProxyTransaction

  // ---------------------------------------------------------------- the invariant

  /** The client's request has no body left to upload. */
  predicate NothingToUpload(c: Config) { c.websocket || c.bodyComplete }

  predicate Upgrading(op: MainOp) { op.ReadUpgrade? || op.SendUpgrade? || op.FlushUp? || op.FlushDown? }

  predicate Relaying(op: MainOp) { op.SendHead? || op.ReadBody? || op.SendBody? }

  predicate Responding(op: MainOp) { op.ReadHead? || Relaying(op) }

  /** None of the chains that transfer data has an operation outstanding. */
  predicate Idle(ops: Ops) { ops.main.NoMain? && ops.upload.NoUpload? && ops.out.NoOut? && ops.back.NoBack? }

  ghost predicate CountersOk(t: Tx) {
    && t.backendPending == BackendOps(t.ops)
    && t.clientPending == ClientOps(t.ops, t.errors)
    && (t.backendPending > 0 ==> t.backend.stream)
    && (t.backend.closeRequested && t.backendPending == 0 ==> !t.backend.stream)
    && (t.ops.awaitPermit ==> t.clientPending == t.backendPending == 0)
  }

  /** The transfer buffer of a request that is not upgraded was allocated. */
  predicate HasBuffer(t: Tx) { t.config.websocket || t.link.httpBuffer }

  ghost predicate LifeOk(t: Tx) {
    && t.completions == (if t.life.completed then 1 else 0)
    && (t.life.completed ==>
          t.clientPending == t.backendPending == 0 && t.life.deferred.None? && !t.life.connecting && !t.life.permit)
    && (t.life.completed <==> t.life.result.Some?)
    && (!Idle(t.ops) ==> t.life.permit && HasBuffer(t))
    && (t.life.deferred.Some? ==> !t.life.connecting && (t.backendPending > 0 ==> t.backend.closeRequested))
  }

  ghost predicate ChainsOk(c: Config, ops: Ops, fromPool: bool, tunnelBuffers: bool) {
    && (fromPool ==> !ops.resolving && !ops.timer)
    && (ops.main.SendUpgrade? || ops.main.FlushUp? || ops.main.FlushDown? || !ops.out.NoOut? || !ops.back.NoBack? ==>
          tunnelBuffers)
    && (!ops.main.NoMain? && !Responding(ops.main) ==> ops.upload.NoUpload?)
    && (Upgrading(ops.main) || !ops.out.NoOut? || !ops.back.NoBack? ==> c.websocket)
    && (!ops.upload.NoUpload? || ops.main.SendContinue? ==> !c.websocket)
    && (!ops.upload.NoUpload? || ops.main.SendContinue? ==> !c.bodyComplete)
    && (!ops.main.NoMain? ==> ops.out.NoOut? && ops.back.NoBack?)
  }

  ghost predicate UploadOk(c: Config, op: UploadOp, up: Upload, unsent: nat) {
    && (c.bodyComplete ==> up.parserDone)
    && (up.bodyRead ==> up.parserDone)
    && (up.complete ==> op.NoUpload? && RequestSent(c, up, unsent) && up.parserDone)
    && (op.RecvBody? ==> unsent == 0)
    && (op.SendChunk? ==> unsent == op.bytes)
    && (op.SendLastChunk? ==> unsent == 0 && up.parserDone)
  }

  ghost predicate RelayOk(c: Config, op: MainOp, up: Upload, down: Download) {
    && (Responding(op) ==> !c.websocket)
    && (up.stop ==> down.early)
    && (down.early ==> !down.clientKeepAlive)
    && (Relaying(op) ==> up.stop == down.early && (!down.early ==> up.complete))
    && (Relaying(op) && (op.ReadBody? || down.buffered || !down.done) ==> down.ownBuffer || up.complete)
  }

  ghost predicate KeepAliveOk(life: Life, parserDone: bool, errorKeepAlive: bool) {
    && (errorKeepAlive ==> parserDone)
    && (life.deferred.Some? && life.deferred.value.keepAlive ==> parserDone)
    && (life.result.Some? && life.result.value.keepAlive ==> parserDone)
  }

  /** Beside an error response the main chain writes nothing, and without an upload there is only one. */
  ghost predicate ErrorsOk(t: Tx) {
    t.errors > 0 ==>
      && (t.ops.main.NoMain? || t.ops.main.Connect? || t.ops.main.Handshake? || t.ops.main.ReadHead?)
      && t.ops.out.NoOut? && t.ops.back.NoBack?
      && (NothingToUpload(t.config) ==> t.errors == 1)
  }

  /** The part of the invariant that also holds between a completed operation and the start of the next. */
  ghost predicate Core(t: Tx) {
    && t.faults == {}
    && CountersOk(t)
    && LifeOk(t)
    && ErrorsOk(t)
    && ChainsOk(t.config, t.ops, t.link.fromPool, t.link.tunnelBuffers)
    && UploadOk(t.config, t.ops.upload, t.up, t.unsent)
    && RelayOk(t.config, t.ops.main, t.up, t.down)
    && KeepAliveOk(t.life, t.up.parserDone, t.down.errorKeepAlive)
  }

  predicate Undecided(life: Life) { !life.completed && life.deferred.None? }

  /** Neither the request body nor the response has begun. */
  predicate Fresh(t: Tx) {
    && !t.down.headStarted && t.ops.upload.NoUpload? && t.unsent == 0
    && !t.up.complete && !t.up.stop && (t.up.parserDone ==> t.config.bodyComplete)
  }

  /** Some chain is running and has the stream it needs. */
  ghost predicate Advancing(t: Tx) {
    var ops, b := t.ops, t.backend;
    && (ops.awaitPermit || t.life.connecting || !ops.main.NoMain? || !ops.out.NoOut?)
    && (Responding(ops.main) || Fresh(t))
    && (ops.awaitPermit || (t.life.permit && HasBuffer(t)))
    && (ops.awaitPermit ==>
          Idle(ops) && !ops.resolving && !ops.timer && !b.stream && !b.closeRequested && !t.life.connecting)
    && (t.life.connecting ==>
          b.stream && !b.closeRequested && !Responding(ops.main) && ops.out.NoOut?
          && (if ops.resolving then ops.main.NoMain? else ops.main.Connect? || ops.main.Handshake?))
    && (ops.main.Connect? || ops.main.Handshake? ==> t.life.connecting)
    && (!ops.main.NoMain? || !ops.out.NoOut? ==> b.stream && !b.closeRequested)
    && (ops.out.NoOut? <==> ops.back.NoBack?)
    && (ops.main.ReadHead? ==> !t.up.stop)
  }

  /** An error response is being written; what else is outstanding only drains, except an upload. */
  ghost predicate Failing(t: Tx) {
    && !t.ops.awaitPermit && !t.life.connecting
    && (t.backendPending > 0 || !t.ops.upload.NoUpload? ==> t.backend.closeRequested)
    && (!t.ops.upload.NoUpload? ==> t.ops.main.NoMain?)
  }

  ghost predicate Inv(t: Tx) {
    && Core(t)
    && (t.life.deferred.Some? ==> t.clientPending + t.backendPending > 0)
    && (Undecided(t.life) ==> if t.errors == 0 then Advancing(t) else Failing(t))
  }

  /** A step keeps the invariant, or uses the missing stream of a transaction with an upload. */
  ghost predicate Good(t: Tx) {
    Inv(t) || (t.faults == {NullStream} && !NothingToUpload(t.config))
  }

  lemma Starts(c: Config)
    ensures Inv(Initial(c))
  {
  }

  // ---------------------------------------------------------------- building blocks

  lemma CountMain(ops: Ops, op: MainOp, errors: nat)
    requires ops.main.NoMain?
    ensures BackendOps(ops.(main := op)) == BackendOps(ops) + (if AtBackend(op) then 1 else 0)
    ensures ClientOps(ops.(main := op), errors) == ClientOps(ops, errors) + (if AtClient(op) then 1 else 0)
  {
  }

  lemma MainReturns(t: Tx)
    requires Core(t) && !t.ops.main.NoMain?
    ensures Core(Return(t, MainChain))
  {
    var rest := t.ops.(main := NoMain);
    CountMain(rest, t.ops.main, t.errors);
    assert rest.(main := t.ops.main) == t.ops;
    var d := Return(t, MainChain);
    assert CountersOk(d) && LifeOk(d);
  }

  lemma CountUpload(ops: Ops, op: UploadOp, errors: nat)
    requires ops.upload.NoUpload?
    ensures BackendOps(ops.(upload := op)) == BackendOps(ops) + (if op.SendChunk? || op.SendLastChunk? then 1 else 0)
    ensures ClientOps(ops.(upload := op), errors) == ClientOps(ops, errors) + (if op.RecvBody? then 1 else 0)
  {
  }

  lemma UploadReturns(t: Tx)
    requires Core(t) && !t.ops.upload.NoUpload?
    ensures Core(Return(t, UploadChain))
  {
    var rest := t.ops.(upload := NoUpload);
    CountUpload(rest, t.ops.upload, t.errors);
    assert rest.(upload := t.ops.upload) == t.ops;
    var d := Return(t, UploadChain);
    assert CountersOk(d) && LifeOk(d);
  }

  lemma CountOut(ops: Ops, op: OutOp, errors: nat)
    requires ops.out.NoOut?
    ensures BackendOps(ops.(out := op)) == BackendOps(ops) + (if op.TunnelUp? then 1 else 0)
    ensures ClientOps(ops.(out := op), errors) == ClientOps(ops, errors) + (if op.TunnelIn? then 1 else 0)
  {
  }

  lemma OutReturns(t: Tx)
    requires Core(t) && !t.ops.out.NoOut?
    ensures Core(Return(t, OutChain))
  {
    var rest := t.ops.(out := NoOut);
    CountOut(rest, t.ops.out, t.errors);
    assert rest.(out := t.ops.out) == t.ops;
    var d := Return(t, OutChain);
    assert CountersOk(d) && LifeOk(d);
  }

  lemma CountBack(ops: Ops, op: BackOp, errors: nat)
    requires ops.back.NoBack?
    ensures BackendOps(ops.(back := op)) == BackendOps(ops) + (if op.TunnelRecv? then 1 else 0)
    ensures ClientOps(ops.(back := op), errors) == ClientOps(ops, errors) + (if op.TunnelDown? then 1 else 0)
  {
  }

  lemma BackReturns(t: Tx)
    requires Core(t) && !t.ops.back.NoBack?
    ensures Core(Return(t, BackChain))
  {
    var rest := t.ops.(back := NoBack);
    CountBack(rest, t.ops.back, t.errors);
    assert rest.(back := t.ops.back) == t.ops;
    var d := Return(t, BackChain);
    assert CountersOk(d) && LifeOk(d);
  }

  lemma ErrorReturns(t: Tx)
    requires Core(t) && t.errors > 0
    ensures Core(Return(t, ErrorChain))
  {
  }

  lemma SmallReturns(t: Tx, chain: Chain)
    requires Core(t) && (chain.PermitChain? || chain.TimerChain? || chain.ResolveChain?)
    ensures Core(Return(t, chain))
  {
  }

  lemma Closes(d: Tx)
    requires Core(d)
    ensures var s := CloseBackend(d);
      && Core(s) && s == d.(backend := s.backend)
      && (d.backendPending > 0 || d.backend.stream ==> s.backend.closeRequested)
      && (d.backend.closeRequested ==> s.backend.closeRequested)
  {
  }

  lemma Drains(d: Tx)
    requires Core(d) && !Undecided(d.life)
    ensures Inv(MaybeFinishDeferred(d))
  {
    if d.life.deferred.Some? && d.clientPending == d.backendPending == 0 {
      Completes(d);
    }
  }

  lemma Completes(d: Tx)
    requires Core(d) && !d.life.completed && d.life.deferred.Some? && d.clientPending == d.backendPending == 0
    ensures Inv(MaybeFinishDeferred(d))
  {
    assert MaybeReleaseClosed(d) == d;
  }

  lemma Decides(d: Tx, f: Finish)
    requires Core(d) && !d.life.completed && !d.life.connecting && (d.backendPending > 0 ==> d.backend.closeRequested)
    requires f.keepAlive ==> d.up.parserDone
    ensures Inv(FinishWhenQuiet(d, f))
  {
    var s := d.(life := d.life.(
      deferred := Some(f), clientCancelRequested := d.life.clientCancelRequested || d.clientPending != 0));
    assert Core(s);
    Drains(s);
  }

  lemma Responds(d: Tx, status: nat)
    requires Core(d) && Undecided(d.life) && !d.ops.awaitPermit && !d.life.connecting
    requires d.ops.main.NoMain? || d.ops.main.Connect? || d.ops.main.Handshake? || d.ops.main.ReadHead?
    requires d.ops.out.NoOut? && d.ops.back.NoBack?
    requires !d.ops.upload.NoUpload? ==> d.ops.main.NoMain? && (d.backend.stream || d.backend.closeRequested)
    requires NothingToUpload(d.config) ==> d.errors == 0
    ensures Inv(Respond(d, status))
  {
    Closes(d);
    var s := CloseBackend(d);
    assert Core(s.(status := status, down := Respond(d, status).down));
  }

  /** The next operation of the main chain; the caller shows that it fits the state of the other chains. */
  lemma Begins(d: Tx, op: MainOp)
    requires Core(d) && Undecided(d.life) && d.errors == 0 && !d.ops.awaitPermit
    requires d.ops.main.NoMain? && !op.NoMain? && (AtBackend(op) ==> d.backend.stream) && d.life.permit && HasBuffer(d)
    requires ChainsOk(d.config, d.ops.(main := op), d.link.fromPool, d.link.tunnelBuffers)
    requires RelayOk(d.config, op, d.up, d.down)
    requires Advancing(d.(ops := d.ops.(main := op)))
    ensures Inv(StartMain(d, op))
  {
    CountMain(d.ops, op, d.errors);
    var s := StartMain(d, op);
    assert s.ops == d.ops.(main := op);
    assert CountersOk(s) && LifeOk(s);
  }

  /** The main chain may take its next step: the end is not decided and the stream is there. */
  predicate Free(d: Tx) {
    && Undecided(d.life) && d.errors == 0 && !d.ops.awaitPermit
    && d.ops.main.NoMain? && d.ops.out.NoOut? && d.ops.back.NoBack?
    && d.backend == Backend(true, false) && d.life.permit && HasBuffer(d)
  }

  lemma MainShape(t: Tx)
    requires Core(t) && !t.ops.main.NoMain?
    ensures var d := Return(t, MainChain);
      && d == t.(ops := t.ops.(main := NoMain), clientPending := d.clientPending, backendPending := d.backendPending,
                 backend := d.backend)
      && (t.backend.closeRequested || d.backend == t.backend)
  {
  }

  /** An operation of the main chain returns to a transaction that goes on. */
  lemma MainGoesOn(t: Tx)
    requires Inv(t) && !t.ops.main.NoMain? && Undecided(t.life) && t.errors == 0
    ensures var d := Return(t, MainChain);
      && Core(d) && Free(d) && (d.life.connecting ==> !d.ops.resolving)
      && d == t.(ops := t.ops.(main := NoMain), clientPending := d.clientPending, backendPending := d.backendPending)
  {
    MainReturns(t);
    MainShape(t);
  }

  /** An operation of the main chain returns to a transaction that is ending. */
  lemma MainGivesUp(t: Tx)
    requires Inv(t) && !t.ops.main.NoMain? && !(Undecided(t.life) && t.errors == 0)
    ensures var d := Return(t, MainChain);
      && Inv(MaybeFinishDeferred(d)) && Ending(d)
      && (AtClient(t.ops.main) ==> d.life.deferred.Some? || d.life.completed)
      && (t.ops.main.ReadHead? || t.ops.main.ReadBody? ==> d.backend.closeRequested || d.life.completed)
  {
    MainReturns(t);
    var d := Return(t, MainChain);
    if !Undecided(d.life) {
      Drains(d);
    }
  }

  // ---------------------------------------------------------------- setting up

  lemma EmplaceKeeps(d: Tx, fromPool: bool)
    requires Core(d) && d.backendPending == 0 && (fromPool ==> !d.ops.resolving && !d.ops.timer)
    ensures var s := EmplaceStream(d).(link := d.link.(fromPool := fromPool));
      Core(s) && s == d.(backend := Backend(true, false), link := d.link.(fromPool := fromPool))
  {
  }

  /** Connecting a new stream. */
  lemma ConnectingKeeps(d: Tx, r: Reply)
    requires Core(d) && Undecided(d.life) && Idle(d.ops) && d.errors == 0
    requires !d.ops.awaitPermit && !d.ops.timer && !d.ops.resolving
    requires Fresh(d) && !d.life.connecting && d.life.permit && HasBuffer(d)
    ensures Inv(ConnectBackend(d, r))
  {
    EmplaceKeeps(d, false);
    var s := EmplaceStream(d.(link := d.link.(fromPool := false)));
    assert s == d.(backend := Backend(true, false), link := d.link.(fromPool := false));
    if d.config.https && !r.sniAccepted {
      FailKeeps(s, false);
    }
  }

  /** The permit and the transfer buffer are there. */
  lemma PooledNext(d: Tx)
    requires Core(d) && Undecided(d.life) && Idle(d.ops) && !d.ops.awaitPermit && !d.ops.timer && !d.ops.resolving
    requires Fresh(d) && !d.life.connecting && d.life.permit && HasBuffer(d) && d.errors == 0 && !d.backend.stream
    requires !d.config.websocket
    ensures Inv(WriteRequestHeader(EmplaceStream(d).(link := d.link.(fromPool := true))))
  {
    EmplaceKeeps(d, true);
    Begins(EmplaceStream(d).(link := d.link.(fromPool := true)), SendHeader);
  }

  lemma ReadyNext(d: Tx, r: Reply)
    requires Core(d) && Undecided(d.life) && Idle(d.ops) && !d.ops.awaitPermit && !d.ops.timer && !d.ops.resolving
    requires Fresh(d) && !d.life.connecting && d.life.permit && HasBuffer(d) && d.errors == 0 && !d.backend.stream
    ensures Inv(UseOrConnect(d, r))
  {
    if d.config.keepAliveWanted && !d.config.websocket && r.pooled {
      PooledNext(d);
      assert EmplaceStream(d).backend.stream;
    } else {
      ConnectingKeeps(d, r);
    }
  }

  lemma PermitKeeps(t: Tx, r: Reply)
    requires Inv(t) && t.ops.awaitPermit
    ensures Inv(OnPermit(Return(t, PermitChain), r))
  {
    var d := Return(t, PermitChain);
    SmallReturns(t, PermitChain);
    if !d.life.completed {
      if !r.ok {
        Responds(d, 503);
      } else {
        GrantedNext(d, r);
      }
    }
  }

  lemma GrantedNext(d: Tx, r: Reply)
    requires Core(d) && Undecided(d.life) && Idle(d.ops) && !d.ops.awaitPermit && !d.ops.timer && !d.ops.resolving
    requires Fresh(d) && !d.life.connecting && d.errors == 0 && !d.backend.stream && r.ok
    ensures Inv(OnPermit(d, r))
  {
    var held := d.(life := d.life.(permit := true));
    PermitHeld(d);
    if !d.config.websocket && !r.memory {
      Responds(held, 503);
    } else {
      BufferHeld(held);
      ReadyNext(held.(link := held.link.(httpBuffer := held.link.httpBuffer || !held.config.websocket)), r);
    }
  }

  lemma PermitHeld(d: Tx)
    requires Core(d) && !d.life.completed
    ensures Core(d.(life := d.life.(permit := true)))
  {
  }

  lemma BufferHeld(d: Tx)
    requires Core(d)
    ensures Core(d.(link := d.link.(httpBuffer := d.link.httpBuffer || !d.config.websocket)))
  {
  }

  lemma TimerKeeps(t: Tx, r: Reply)
    requires Inv(t) && t.ops.timer
    ensures Inv(OnConnectTimeout(Return(t, TimerChain), r))
  {
    var d := Return(t, TimerChain);
    SmallReturns(t, TimerChain);
    if r.ok && d.life.connecting && !d.life.completed {
      TimedOut(d);
    }
  }

  lemma ConnectingEnds(d: Tx)
    requires Core(d)
    ensures Core(Connecting(d, false))
  {
  }

  lemma TimedOut(d: Tx)
    requires Core(d) && Undecided(d.life) && !d.ops.awaitPermit && d.errors == 0
    requires d.ops.main.NoMain? || d.ops.main.Connect? || d.ops.main.Handshake?
    requires d.ops.out.NoOut? && d.ops.back.NoBack? && d.ops.upload.NoUpload?
    ensures Inv(Fail(CloseBackend(Connecting(d, false)), true))
  {
    ConnectingEnds(d);
    var off := Connecting(d, false);
    Closes(off);
    var s := CloseBackend(off);
    assert Connecting(s, false) == s;
    Responds(s, 504);
  }

  lemma ResolvedKeeps(t: Tx, r: Reply)
    requires Inv(t) && t.ops.resolving
    ensures Inv(OnResolved(Return(t, ResolveChain), r))
  {
    SmallReturns(t, ResolveChain);
    if t.life.connecting && !t.life.completed {
      ResolvedNext(Return(t, ResolveChain), r);
    }
  }

  lemma ResolvedNext(d: Tx, r: Reply)
    requires Core(d) && Free(d) && d.life.connecting && !d.ops.resolving && Fresh(d)
    ensures Inv(OnResolved(d, r))
  {
    if r.ok {
      Begins(d, Connect);
    } else {
      ConnectingEnds(d);
      FailKeeps(Connecting(d, false), r.timeout);
    }
  }

  /** A failed operation of the main chain. */
  lemma FailKeeps(d: Tx, timeout: bool)
    requires Core(d) && Undecided(d.life) && d.ops.main.NoMain? && d.ops.out.NoOut? && d.ops.back.NoBack?
    requires !d.ops.awaitPermit && (!d.ops.upload.NoUpload? ==> d.backend.stream || d.backend.closeRequested)
    requires NothingToUpload(d.config) ==> d.errors == 0
    ensures Inv(Fail(d, timeout))
  {
    ConnectingEnds(d);
    Responds(Connecting(d, false), if timeout then 504 else 502);
  }

  lemma SendHeaderNext(d: Tx)
    requires Core(d) && Free(d) && !d.life.connecting && Fresh(d)
    ensures Inv(WriteRequestHeader(d))
  {
    Begins(d, SendHeader);
  }

  lemma HandshakeNext(d: Tx, r: Reply)
    requires Core(d) && Free(d) && d.life.connecting && Fresh(d)
    ensures Inv(OnHandshake(d, r))
  {
    ConnectingEnds(d);
    if r.ok {
      SendHeaderNext(Connecting(d, false));
    } else {
      FailKeeps(Connecting(d, false), r.timeout);
    }
  }

  lemma ConnectNext(d: Tx, r: Reply)
    requires Core(d) && Free(d) && d.life.connecting && !d.ops.resolving && Fresh(d)
    ensures Inv(OnConnect(d, r))
  {
    if !r.ok {
      FailKeeps(d, r.timeout);
    } else if d.config.https {
      Begins(d, Handshake);
    } else {
      HandshakeNext(d, r);
    }
  }

  /** The header of the response, and of the next one after an interim response. */
  lemma ReadHeadNext(d: Tx)
    requires Core(d) && Free(d) && !d.life.connecting && !d.config.websocket && !d.down.headStarted && !d.up.stop
    ensures Inv(ReadResponseHeader(d))
  {
    var s := d.(down := d.down.(headStarted := true));
    assert Core(s);
    Begins(s, ReadHead);
  }

  /** The upload starts beside the read of the response header. */
  lemma UploadBegins(d: Tx)
    requires Inv(d) && Undecided(d.life) && d.errors == 0 && d.ops.main.ReadHead? && d.ops.upload.NoUpload?
    requires !NothingToUpload(d.config) && d.unsent == 0 && !d.up.complete
    ensures Inv(ReadRequestBodyChunk(d))
  {
    CountUpload(d.ops, RecvBody, d.errors);
    var s := StartUpload(d, RecvBody);
    assert CountersOk(s) && LifeOk(s);
  }

  lemma RequestNext(d: Tx)
    requires Core(d) && Free(d) && !d.life.connecting && !d.config.websocket && Fresh(d) && !d.config.bodyComplete
    ensures Inv(ReadRequestBodyChunk(ReadResponseHeader(d)))
  {
    ReadHeadNext(d);
    UploadBegins(ReadResponseHeader(d));
  }

  /** A stale pooled stream is replaced by a new one. */
  lemma RetryNext(d: Tx, r: Reply)
    requires Core(d) && Free(d) && Idle(d.ops) && !d.life.connecting && Fresh(d) && d.link.fromPool
    ensures Inv(ConnectBackend(CloseBackend(d.(link := d.link.(retried := true))), r))
  {
    var again := d.(link := d.link.(retried := true));
    assert Core(again);
    Closes(again);
    ConnectingKeeps(CloseBackend(again), r);
  }

  lemma HeaderNext(d: Tx, r: Reply)
    requires Core(d) && Free(d) && Fresh(d) && !d.life.connecting
    ensures Inv(OnRequestHeaderWritten(d, r))
  {
    if !r.ok {
      if d.link.fromPool && !d.link.retried && r.nothingSent {
        RetryNext(d, r);
      } else {
        FailKeeps(d, r.timeout);
      }
    } else {
      HeaderGoesOn(d);
    }
  }

  lemma HeaderGoesOn(d: Tx)
    requires Core(d) && Free(d) && Fresh(d) && !d.life.connecting
    ensures var written := d.(link := d.link.(fromPool := false));
      && (d.config.websocket ==> Inv(StartMain(written, ReadUpgrade)))
      && (!d.config.websocket && !d.up.parserDone ==>
            Inv(StartMain(written, SendContinue)) && Inv(ReadRequestBodyChunk(ReadResponseHeader(written))))
      && (!d.config.websocket && d.up.parserDone ==>
            Inv(ReadResponseHeader(written.(up := d.up.(complete := true)))))
  {
    var written := d.(link := d.link.(fromPool := false));
    assert Core(written);
    if d.config.websocket {
      Begins(written, ReadUpgrade);
    } else if !d.up.parserDone {
      Begins(written, SendContinue);
      RequestNext(written);
    } else {
      var sent := written.(up := d.up.(complete := true));
      assert Core(sent);
      ReadHeadNext(sent);
    }
  }

  lemma ContinueNext(d: Tx, r: Reply)
    requires Core(d) && Free(d) && Fresh(d) && !d.life.connecting && !NothingToUpload(d.config)
    ensures Inv(OnContinueWritten(d, r))
  {
    if r.ok {
      RequestNext(d);
    } else {
      FailKeeps(d, r.timeout);
    }
  }

  lemma SetupKeeps(t: Tx, r: Reply)
    requires Inv(t) && Setup(t.ops.main)
    ensures Inv(HandleMain(Return(t, MainChain), t.ops.main, r))
  {
    if Undecided(t.life) && t.errors == 0 {
      MainGoesOn(t);
      var d := Return(t, MainChain);
      match t.ops.main {
        case Connect => ConnectNext(d, r);
        case Handshake => HandshakeNext(d, r);
        case SendHeader => HeaderNext(d, r);
        case SendContinue => ContinueNext(d, r);
      }
    } else {
      MainGivesUp(t);
    }
  }

  predicate Setup(op: MainOp) { op.Connect? || op.Handshake? || op.SendHeader? || op.SendContinue? }

  // ---------------------------------------------------------------- the response

  lemma SeenKeeps(d: Tx)
    requires Core(d) && d.ops.main.NoMain?
    ensures Core(Seen(d))
  {
  }

  lemma AcceptedNext(d: Tx, r: Reply)
    requires Core(d) && Free(d) && !d.life.connecting && !d.config.websocket
    requires d.up.stop == d.down.early == !d.up.complete
    ensures Inv(StartMain(Accepted(d, r), SendHead))
  {
    var ready := Accepted(d, r);
    assert Core(ready);
    Begins(ready, SendHead);
  }

  lemma AcceptNext(d: Tx, r: Reply)
    requires Core(d) && Free(d) && !d.life.connecting && !d.config.websocket
    ensures Inv(AcceptResponse(d, r))
  {
    SeenKeeps(d);
    if !d.up.complete && !r.done && !r.memory {
      Responds(Seen(d), 503);
    } else {
      AcceptedNext(Seen(d), r);
      assert AcceptResponse(d, r) == StartMain(Accepted(Seen(d), r), SendHead);
    }
  }

  lemma InterimNext(d: Tx)
    requires Core(d) && Free(d) && !d.life.connecting && !d.config.websocket && !d.up.stop
    ensures Inv(ReadResponseHeader(d.(down := d.down.(headStarted := false))))
  {
    var again := d.(down := d.down.(headStarted := false));
    assert Core(again);
    ReadHeadNext(again);
  }

  lemma HeadReadNext(d: Tx, r: Reply)
    requires Core(d) && Free(d) && !d.life.connecting && !d.config.websocket && !d.up.stop
    ensures Inv(OnResponseHeader(d, r))
  {
    if !r.ok {
      FailKeeps(d, r.timeout);
    } else if 100 <= r.status < 200 && r.status != 101 {
      InterimNext(d);
    } else if r.status == 101 {
      Responds(d, 502);
    } else {
      AcceptNext(d, r);
    }
  }

  /** What the relay of a response relies on. */
  predicate Relay(d: Tx) {
    && !d.life.connecting && !d.config.websocket
    && d.up.stop == d.down.early && (!d.down.early ==> d.up.complete)
    && (d.down.buffered || !d.down.done ==> d.down.ownBuffer || d.up.complete)
  }

  /** The end after the response header: the backend is closed and what is outstanding drains. */
  lemma EndNext(d: Tx, f: Finish)
    requires Core(d) && Undecided(d.life) && !d.life.connecting && (f.keepAlive ==> d.up.parserDone)
    ensures Inv(FinishWhenQuiet(CloseBackend(d), f))
  {
    Closes(d);
    Decides(CloseBackend(d), f);
  }

  lemma FinishNormalNext(d: Tx, socketOpen: bool)
    requires Core(d) && Free(d) && Relay(d) && d.down.done
    ensures Inv(FinishNormal(d, socketOpen))
  {
    if d.down.early || !d.up.complete {
      EndNext(d, Finish(d.status, false));
    } else {
      Closes(d);
    }
  }

  lemma HeadSentNext(d: Tx, r: Reply)
    requires Core(d) && Free(d) && Relay(d) && (r.serialized ==> d.down.done)
    ensures Inv(OnHeaderWritten(d, r))
  {
    if !r.ok {
      EndNext(d, Finish(StatusOr(d, 502), false));
    } else if d.down.done {
      if r.serialized {
        FinishNormalNext(d, r.socketOpen);
      } else {
        Begins(d, SendBody);
      }
    } else {
      Begins(d, ReadBody);
    }
  }

  lemma BodyReadNext(d: Tx, r: Reply)
    requires Core(d) && Free(d) && Relay(d) && (d.down.ownBuffer || d.up.complete)
    ensures Inv(OnBodyRead(d, r))
  {
    if !r.ok {
      EndNext(d, Finish(StatusOr(d, 502), false));
    } else {
      var read := d.(down := d.down.(done := r.done, buffered := true));
      assert Core(read);
      Begins(read, SendBody);
    }
  }

  lemma BodySentNext(d: Tx, r: Reply)
    requires Core(d) && Free(d) && Relay(d) && (r.serialized ==> d.down.done) && (r.needBuffer ==> !d.down.done)
    ensures Inv(OnBodyWritten(d, r))
  {
    if r.needBuffer {
      Begins(d, ReadBody);
    } else if !r.ok {
      EndNext(d, Finish(StatusOr(d, 502), false));
    } else if r.serialized {
      FinishNormalNext(d, r.socketOpen);
    } else {
      Begins(d, SendBody);
    }
  }

  lemma RelayNext(d: Tx, op: MainOp, r: Reply)
    requires Core(d) && Free(d) && Relaying(op) && Relay(d)
    requires r.serialized && !op.ReadBody? ==> d.down.done
    requires op.ReadBody? ==> d.down.ownBuffer || d.up.complete
    requires op.SendBody? && r.needBuffer ==> !d.down.done
    ensures Inv(HandleMain(d, op, r))
  {
    if op.SendHead? {
      HeadSentNext(d, r);
    } else if op.ReadBody? {
      BodyReadNext(d, r);
    } else {
      BodySentNext(d, r);
    }
  }

  /** The callbacks of a response that goes on: the operation `op` has returned to `d`. */
  lemma ResponseNext(d: Tx, op: MainOp, r: Reply)
    requires Core(d) && Free(d) && !d.life.connecting && !d.config.websocket && Responding(op)
    requires op.ReadHead? ==> !d.up.stop
    requires Relaying(op) ==> Relay(d) && (r.serialized && !op.ReadBody? ==> d.down.done)
    requires op.ReadBody? ==> d.down.ownBuffer || d.up.complete
    requires op.SendBody? && r.needBuffer ==> !d.down.done
    ensures Inv(HandleMain(d, op, r))
  {
    if op.ReadHead? {
      HeadReadNext(d, r);
    } else {
      RelayNext(d, op, r);
    }
  }

  lemma ResponseKeeps(t: Tx, r: Reply)
    requires Inv(t) && Responding(t.ops.main) && Enabled(t, Done(MainChain, r))
    ensures Inv(HandleMain(Return(t, MainChain), t.ops.main, r))
  {
    if Undecided(t.life) && t.errors == 0 {
      MainGoesOn(t);
      ResponseNext(Return(t, MainChain), t.ops.main, r);
    } else {
      MainGivesUp(t);
    }
  }

  // ---------------------------------------------------------------- the upload

  /** The body continues to flow whether or not an error response was started; only a missing stream stops it. */
  ghost predicate Uploading(d: Tx) {
    && Core(d) && Undecided(d.life) && d.ops.upload.NoUpload? && !NothingToUpload(d.config)
    && !d.up.stop && !d.up.complete && !d.ops.awaitPermit && d.life.permit && HasBuffer(d)
    && (if d.errors == 0 then Advancing(d) && Responding(d.ops.main)
        else Failing(d) && d.ops.main.NoMain? && d.backend.closeRequested)
  }

  lemma UploadStarts(d: Tx, op: UploadOp)
    requires Uploading(d) && !op.NoUpload? && UploadOk(d.config, op, d.up, d.unsent)
    ensures Good(StartUpload(d, op))
  {
    CountUpload(d.ops, op, d.errors);
    var s := StartUpload(d, op);
    assert s.ops == d.ops.(upload := op);
    if op.RecvBody? || d.backend.stream {
      assert CountersOk(s) && LifeOk(s);
    }
  }

  lemma UploadFails(d: Tx, status: nat)
    requires Uploading(d)
    ensures Inv(Respond(d, status))
  {
    Responds(d, status);
  }

  lemma UploadShape(t: Tx)
    requires Core(t) && !t.ops.upload.NoUpload?
    ensures var d := Return(t, UploadChain);
      && d == t.(ops := t.ops.(upload := NoUpload), clientPending := d.clientPending,
                 backendPending := d.backendPending, backend := d.backend)
      && (t.backend.closeRequested || d.backend == t.backend)
      && d.backend.closeRequested == t.backend.closeRequested
  {
  }

  /** An operation of the upload returns. */
  lemma UploadGoesOn(t: Tx)
    requires Inv(t) && !t.ops.upload.NoUpload?
    ensures var d := Return(t, UploadChain);
      && Core(d) && (Undecided(d.life) ==> if d.up.stop then Inv(d) else Uploading(d))
      && d == t.(ops := t.ops.(upload := NoUpload), clientPending := d.clientPending,
                 backendPending := d.backendPending, backend := d.backend)
  {
    UploadReturns(t);
    UploadShape(t);
  }

  /** What the parser and the last chunk report about the request body. */
  predicate Reports(before: Upload, after: Upload) {
    && after == before.(parserDone := after.parserDone, lastChunkSent := after.lastChunkSent)
    && (before.parserDone ==> after.parserDone) && (before.lastChunkSent ==> after.lastChunkSent)
  }

  lemma ReportKeepsCore(d: Tx, up: Upload)
    requires Core(d) && d.ops.upload.NoUpload? && Reports(d.up, up)
    ensures Core(d.(up := up))
  {
  }

  lemma ReportKeeps(d: Tx, up: Upload)
    requires Core(d) && d.ops.upload.NoUpload? && Reports(d.up, up)
    requires Undecided(d.life) ==> if d.up.stop then Inv(d) else Uploading(d)
    ensures var s := d.(up := up); Core(s) && (Undecided(d.life) ==> if up.stop then Inv(s) else Uploading(s))
  {
    ReportKeepsCore(d, up);
  }

  lemma FinishBodyNext(d: Tx)
    requires Uploading(d) && d.up.parserDone && d.unsent == 0
    ensures Good(FinishRequestBody(d))
  {
    if d.config.chunked {
      UploadStarts(d, SendLastChunk);
    } else {
      assert Core(d.(up := d.up.(complete := true)));
    }
  }

  lemma ForwardNext(d: Tx, produced: nat)
    requires Uploading(d) && d.unsent == 0
    ensures Good(ForwardBody(d, produced))
  {
    var read := d.(up := d.up.(bodyRead := d.up.parserDone), unsent := produced);
    assert Uploading(read);
    if produced > 0 {
      UploadStarts(read, SendChunk(produced));
    } else if read.up.bodyRead {
      FinishBodyNext(read);
    } else {
      UploadStarts(read, RecvBody);
    }
  }

  lemma RequestBodyReadNext(d: Tx, r: Reply)
    requires Core(d) && d.ops.upload.NoUpload? && d.unsent == 0 && (r.done ==> r.ok)
    requires Undecided(d.life) ==> if d.up.stop then Inv(d) else Uploading(d)
    ensures Good(OnRequestBodyRead(d, r))
  {
    var s := d.(up := d.up.(parserDone := d.up.parserDone || r.done));
    ReportKeeps(d, s.up);
    if !Undecided(s.life) {
      Drains(s);
    } else if !s.up.stop {
      if r.ok {
        ForwardNext(s, r.produced);
      } else {
        UploadFails(s, if r.tooLarge then 413 else if r.timeout then 408 else 400);
      }
    }
  }

  lemma RequestBodyReadKeeps(t: Tx, r: Reply)
    requires Inv(t) && t.ops.upload.RecvBody? && (r.done ==> r.ok)
    ensures Good(OnRequestBodyRead(Return(t, UploadChain), r))
  {
    UploadGoesOn(t);
    RequestBodyReadNext(Return(t, UploadChain), r);
  }

  lemma UploadBreaks(d: Tx, timeout: bool)
    requires Uploading(d)
    ensures Inv(Fail(d, timeout))
  {
    var off := Connecting(d, false);
    assert off == d;
    UploadFails(d, if timeout then 504 else 502);
  }

  lemma RequestBodyWrittenKeeps(t: Tx, r: Reply)
    requires Inv(t) && t.ops.upload.SendChunk?
    ensures Good(OnRequestBodyWritten(Return(t, UploadChain), t.ops.upload.bytes, r))
  {
    UploadGoesOn(t);
    var d := Return(t, UploadChain);
    if !Undecided(d.life) {
      Drains(d.(unsent := if r.ok then 0 else d.unsent));
    } else if !d.up.stop {
      if r.ok {
        ChunkSent(d);
      } else {
        UploadBreaks(d, r.timeout);
      }
    }
  }

  lemma ChunkSent(d: Tx)
    requires Uploading(d)
    ensures var s := d.(unsent := 0); Good(if s.up.bodyRead then FinishRequestBody(s) else ReadRequestBodyChunk(s))
  {
    var s := d.(unsent := 0);
    assert Uploading(s);
    if s.up.bodyRead {
      FinishBodyNext(s);
    } else {
      UploadStarts(s, RecvBody);
    }
  }

  lemma RequestBodyFinishedNext(d: Tx, r: Reply)
    requires Core(d) && d.ops.upload.NoUpload? && d.up.parserDone && d.unsent == 0
    requires Undecided(d.life) ==> if d.up.stop then Inv(d) else Uploading(d)
    ensures Good(OnRequestBodyFinished(d, r))
  {
    var s := d.(up := d.up.(lastChunkSent := d.up.lastChunkSent || r.ok));
    ReportKeeps(d, s.up);
    if !Undecided(s.life) {
      Drains(s);
    } else if !s.up.stop {
      if r.ok {
        UploadEnds(s);
      } else {
        UploadBreaks(s, r.timeout);
      }
    }
  }

  lemma RequestBodyFinishedKeeps(t: Tx, r: Reply)
    requires Inv(t) && t.ops.upload.SendLastChunk?
    ensures Good(OnRequestBodyFinished(Return(t, UploadChain), r))
  {
    UploadGoesOn(t);
    RequestBodyFinishedNext(Return(t, UploadChain), r);
  }

  lemma UploadEnds(d: Tx)
    requires Uploading(d) && d.up.parserDone && d.unsent == 0 && d.up.lastChunkSent
    ensures Inv(d.(up := d.up.(complete := true)))
  {
    assert Core(d.(up := d.up.(complete := true)));
  }

  // ---------------------------------------------------------------- errors, cancelling and exceptions

  lemma ErrorWrittenKeeps(t: Tx, r: Reply)
    requires Inv(t) && t.errors > 0
    ensures Inv(OnErrorWritten(Return(t, ErrorChain), r))
  {
    ErrorReturns(t);
    var d := Return(t, ErrorChain);
    if !Undecided(d.life) {
      Drains(d);
    } else {
      Decides(d, Finish(d.status, r.ok && d.down.errorKeepAlive));
    }
  }

  lemma CancelKeeps(t: Tx)
    requires Inv(t)
    ensures Inv(OnCancel(t))
  {
    if !t.life.completed {
      var off := Connecting(t, false);
      assert Core(off);
      Closes(off);
      Decides(CloseBackend(off), Finish(StatusOr(t, 499), false));
    }
  }

  lemma AbortKeeps(d: Tx)
    requires Core(d)
    ensures Inv(Abort(d))
  {
    var off := Connecting(d, false);
    assert Core(off);
    Closes(off);
    var closed := CloseBackend(off);
    if !d.life.completed {
      var f := Finish(StatusOr(d, 500), false);
      var s := closed.(life := closed.life.(deferred := Some(f), clientCancelRequested := true));
      assert Core(s);
      Drains(s);
    }
  }

  // ---------------------------------------------------------------- the tunnel

  lemma TunnelBegins(d: Tx)
    requires Core(d) && Free(d) && Fresh(d) && !d.life.connecting && d.config.websocket && d.link.tunnelBuffers
    ensures Inv(StartTunnel(d))
  {
    OutBegins(d);
    BackBegins(ReadFromClient(d));
  }

  lemma BackBegins(d: Tx)
    requires Core(d) && Undecided(d.life) && d.errors == 0 && !d.ops.awaitPermit && d.ops.main.NoMain? && Fresh(d)
    requires d.ops.out.TunnelIn? && d.ops.back.NoBack? && !d.life.connecting && d.config.websocket
    requires d.backend == Backend(true, false) && d.life.permit && d.link.tunnelBuffers
    ensures Inv(ReadFromBackend(d))
  {
    CountBack(d.ops, TunnelRecv, d.errors);
    var e := ReadFromBackend(d);
    assert CountersOk(e) && LifeOk(e);
  }

  lemma OutBegins(d: Tx)
    requires Core(d) && Free(d) && d.config.websocket && d.link.tunnelBuffers
    ensures var s := ReadFromClient(d);
      Core(s) && s == d.(ops := d.ops.(out := TunnelIn), clientPending := d.clientPending + 1)
  {
    CountOut(d.ops, TunnelIn, d.errors);
  }

  lemma FlushNext(d: Tx, r: Reply)
    requires Core(d) && Free(d) && Fresh(d) && !d.life.connecting && d.config.websocket && d.link.tunnelBuffers
    ensures Inv(FlushBackendBuffer(d, r))
  {
    if r.backendBufferEmpty {
      TunnelBegins(d);
    } else {
      Begins(d, FlushDown);
    }
  }

  lemma UpgradeReadNext(d: Tx, r: Reply)
    requires Core(d) && Free(d) && Fresh(d) && !d.life.connecting && d.config.websocket
    ensures Inv(OnUpgradeResponse(d, r))
  {
    if !r.ok {
      FailKeeps(d, r.timeout);
    } else if r.status != 101 {
      Responds(d, 502);
    } else if !r.memory {
      Responds(d, 503);
    } else {
      var ready := d.(link := d.link.(tunnelBuffers := true), status := 101);
      assert Core(ready);
      Begins(ready, SendUpgrade);
    }
  }

  lemma UpgradeNext(d: Tx, op: MainOp, r: Reply)
    requires Core(d) && Free(d) && Fresh(d) && !d.life.connecting && d.config.websocket
    requires (op.SendUpgrade? || op.FlushUp? || op.FlushDown?) && d.link.tunnelBuffers
    ensures Inv(HandleMain(d, op, r))
  {
    if !r.ok {
      FailKeeps(d, r.timeout);
    } else if op.FlushDown? {
      TunnelBegins(d);
    } else if op.FlushUp? || r.clientBufferEmpty {
      FlushNext(d, r);
    } else {
      Begins(d, FlushUp);
    }
  }

  lemma UpgradeKeeps(t: Tx, r: Reply)
    requires Inv(t) && Upgrading(t.ops.main)
    ensures Inv(HandleMain(Return(t, MainChain), t.ops.main, r))
  {
    if Undecided(t.life) && t.errors == 0 {
      MainGoesOn(t);
      var d := Return(t, MainChain);
      if t.ops.main.ReadUpgrade? {
        UpgradeReadNext(d, r);
      } else {
        UpgradeNext(d, t.ops.main, r);
      }
    } else {
      MainGivesUp(t);
    }
  }

  /** A tunnel goes on in both directions, or ends. */
  lemma OutStarts(d: Tx, op: OutOp)
    requires Core(d) && Undecided(d.life) && d.errors == 0 && d.ops.out.NoOut? && !op.NoOut?
    requires !d.ops.awaitPermit && !d.ops.back.NoBack? && Fresh(d) && !d.life.connecting
    requires d.backend == Backend(true, false)
    requires d.life.permit && d.link.tunnelBuffers
    ensures Inv(StartOut(d, op))
  {
    CountOut(d.ops, op, d.errors);
    var s := StartOut(d, op);
    assert s.ops == d.ops.(out := op);
    assert CountersOk(s) && LifeOk(s);
  }

  lemma BackStarts(d: Tx, op: BackOp)
    requires Core(d) && Undecided(d.life) && d.errors == 0 && d.ops.back.NoBack? && !op.NoBack?
    requires !d.ops.awaitPermit && !d.ops.out.NoOut? && Fresh(d) && !d.life.connecting
    requires d.backend == Backend(true, false)
    requires d.life.permit && d.link.tunnelBuffers
    ensures Inv(StartBack(d, op))
  {
    CountBack(d.ops, op, d.errors);
    var s := StartBack(d, op);
    assert s.ops == d.ops.(back := op);
    assert CountersOk(s) && LifeOk(s);
  }

  lemma OutShape(t: Tx)
    requires Core(t) && !t.ops.out.NoOut?
    ensures var d := Return(t, OutChain);
      && d == t.(ops := t.ops.(out := NoOut), clientPending := d.clientPending, backendPending := d.backendPending,
                 backend := d.backend)
      && (t.backend.closeRequested || d.backend == t.backend)
  {
  }

  lemma OutGoesOn(t: Tx)
    requires Inv(t) && !t.ops.out.NoOut?
    ensures var d := Return(t, OutChain);
      && Core(d) && d.life == t.life
      && (Undecided(d.life) ==>
            d.errors == 0 && !d.ops.awaitPermit && d.ops.out.NoOut? && !d.ops.back.NoBack? && Fresh(d)
            && !d.life.connecting && d.backend == Backend(true, false) && d.life.permit
            && d.link.tunnelBuffers)
  {
    OutReturns(t);
    OutShape(t);
  }

  lemma OutKeeps(t: Tx, r: Reply)
    requires Inv(t) && !t.ops.out.NoOut?
    ensures Inv(Handle(t, OutChain, r))
  {
    OutGoesOn(t);
    var d := Return(t, OutChain);
    if !Undecided(d.life) {
      Drains(d);
    } else if !r.ok {
      EndNext(d, Finish(101, false));
    } else {
      OutStarts(d, if t.ops.out.TunnelIn? then TunnelUp(r.produced) else TunnelIn);
    }
  }

  lemma BackShape(t: Tx)
    requires Core(t) && !t.ops.back.NoBack?
    ensures var d := Return(t, BackChain);
      && d == t.(ops := t.ops.(back := NoBack), clientPending := d.clientPending, backendPending := d.backendPending,
                 backend := d.backend)
      && (t.backend.closeRequested || d.backend == t.backend)
  {
  }

  lemma BackGoesOn(t: Tx)
    requires Inv(t) && !t.ops.back.NoBack?
    ensures var d := Return(t, BackChain);
      && Core(d) && d.life == t.life
      && (Undecided(d.life) ==>
            d.errors == 0 && !d.ops.awaitPermit && d.ops.back.NoBack? && !d.ops.out.NoOut? && Fresh(d)
            && !d.life.connecting && d.backend == Backend(true, false) && d.life.permit
            && d.link.tunnelBuffers)
  {
    BackReturns(t);
    BackShape(t);
  }

  lemma BackKeeps(t: Tx, r: Reply)
    requires Inv(t) && !t.ops.back.NoBack?
    ensures Inv(Handle(t, BackChain, r))
  {
    BackGoesOn(t);
    var d := Return(t, BackChain);
    if !Undecided(d.life) {
      Drains(d);
    } else if !r.ok {
      EndNext(d, Finish(101, false));
    } else {
      BackStarts(d, if t.ops.back.TunnelDown? then TunnelRecv else TunnelDown(r.produced));
    }
  }

  // ---------------------------------------------------------------- every step

  lemma MainKeeps(t: Tx, r: Reply)
    requires Inv(t) && Enabled(t, Done(MainChain, r))
    ensures Inv(HandleMain(Return(t, MainChain), t.ops.main, r))
  {
    if Setup(t.ops.main) {
      SetupKeeps(t, r);
    } else if Responding(t.ops.main) {
      ResponseKeeps(t, r);
    } else {
      UpgradeKeeps(t, r);
    }
  }

  lemma UploadKeeps(t: Tx, r: Reply)
    requires Inv(t) && Enabled(t, Done(UploadChain, r))
    ensures Good(HandleUpload(Return(t, UploadChain), t.ops.upload, r))
  {
    if t.ops.upload.RecvBody? {
      RequestBodyReadKeeps(t, r);
    } else if t.ops.upload.SendChunk? {
      RequestBodyWrittenKeeps(t, r);
    } else {
      RequestBodyFinishedKeeps(t, r);
    }
  }

  lemma Returns(t: Tx, chain: Chain)
    requires Core(t) && Outstanding(t.ops, t.errors, chain)
    ensures Core(Return(t, chain))
  {
    match chain {
      case MainChain => MainReturns(t);
      case UploadChain => UploadReturns(t);
      case OutChain => OutReturns(t);
      case BackChain => BackReturns(t);
      case ErrorChain => ErrorReturns(t);
      case PermitChain => SmallReturns(t, chain);
      case TimerChain => SmallReturns(t, chain);
      case ResolveChain => SmallReturns(t, chain);
    }
  }

  predicate IsUpload(e: Event) { e.Done? && e.chain.UploadChain? }

  lemma DoneKeepsInv(t: Tx, chain: Chain, r: Reply)
    requires Inv(t) && Enabled(t, Done(chain, r)) && !chain.UploadChain?
    ensures Inv(Handle(t, chain, r))
  {
    match chain {
      case PermitChain => PermitKeeps(t, r);
      case TimerChain => TimerKeeps(t, r);
      case ResolveChain => ResolvedKeeps(t, r);
      case MainChain => MainKeeps(t, r);
      case OutChain => OutKeeps(t, r);
      case BackChain => BackKeeps(t, r);
      case ErrorChain => ErrorWrittenKeeps(t, r);
    }
  }

  /** Outside the upload every step keeps the invariant. */
  lemma StepKeepsInv(t: Tx, e: Event)
    requires Inv(t) && Enabled(t, e) && !IsUpload(e)
    ensures Inv(Step(t, e))
  {
    match e {
      case CancelRequested => CancelKeeps(t);
      case Threw(chain) =>
        Returns(t, chain);
        AbortKeeps(Return(t, chain));
      case Done(chain, r) => DoneKeepsInv(t, chain, r);
    }
  }

  lemma StepKeeps(t: Tx, e: Event)
    requires Inv(t) && Enabled(t, e)
    ensures Good(Step(t, e))
  {
    if IsUpload(e) {
      UploadKeeps(t, e.r);
    } else {
      StepKeepsInv(t, e);
    }
  }
}
