/**
 The proxy transaction: one client request forwarded to one backend.

 The transaction is a set of chains of asynchronous operations that share flags, two counters of
 pending operations, transfer buffers and the backend stream. All callbacks run on one strand, so each
 callback is one atomic step; which outstanding operation completes next, and how, is up to the
 environment. `Step` gives the effect of one callback. Theorems are in ProxyInvariant.dfy and
 ProxyTheorems.dfy.
 */
module ProxyTransaction {
  import opened Options

  /**
   The chains of asynchronous operations, each operation named after what it does. The main chain sets the
   connection up and then relays the response or upgrades; an upload runs beside it; a tunnel has two chains.
   */
  datatype MainOp =
    | NoMain | Connect | Handshake | SendHeader | SendContinue
    | ReadHead | SendHead | ReadBody | SendBody
    | ReadUpgrade | SendUpgrade | FlushUp | FlushDown

  datatype UploadOp = NoUpload | RecvBody | SendChunk(bytes: nat) | SendLastChunk

  datatype OutOp = NoOut | TunnelIn | TunnelUp(bytes: nat)

  datatype BackOp = NoBack | TunnelRecv | TunnelDown(bytes: nat)

  /**
   The outstanding operations. A chain that starts an operation while another of its operations is outstanding
   commits the fault `Overlap`, so one operation per chain is a theorem and not an assumption.
   */
  datatype Ops = Ops(
    awaitPermit: bool, timer: bool, resolving: bool,
    main: MainOp, upload: UploadOp, out: OutOp, back: BackOp)

  datatype Chain = PermitChain | TimerChain | ResolveChain | MainChain | UploadChain | OutChain | BackChain | ErrorChain

  /** What is fixed when the transaction is created. `bodyComplete` is `client_parser_.is_done()`. */
  datatype Config = Config(
    websocket: bool, bodyComplete: bool, chunked: bool, expectContinue: bool, https: bool,
    keepAliveWanted: bool, clientKeepAlive: bool)

  datatype Finish = Finish(status: nat, keepAlive: bool)

  /** Errors the program could commit; the theorems say which of them occur. */
  datatype Fault = Overlap | NullStream | NullBuffer | DestroyedInUse | PooledInUse | PooledUnfinished | CompletedInUse

  /** How the environment completes an operation; each callback reads the fields that concern it. */
  datatype Reply = Reply(
    ok: bool,                 // no error; for the permit, that it was granted
    timeout: bool,            // the error is a timeout
    nothingSent: bool,        // bytes_transferred == 0
    produced: nat,            // bytes placed in the transfer buffer
    done: bool,               // the parser has the whole message
    tooLarge: bool,           // the error is an exceeded body limit
    status: nat,              // the backend's response status
    keepAlive: bool,          // the backend's response allows reuse
    needBuffer: bool,         // the serializer asks for the next body buffer
    serialized: bool,         // the serializer has written the whole response
    memory: bool,             // the transfer buffer could be allocated
    pooled: bool,             // the connection pool had an idle stream
    sniAccepted: bool,        // the TLS server name could be set
    socketOpen: bool,         // the backend socket is still open
    clientBufferEmpty: bool,  // no bytes read ahead from the client
    backendBufferEmpty: bool) // no bytes read ahead from the backend

  datatype Event =
    | Done(chain: Chain, r: Reply)
    | CancelRequested
    | Threw(chain: Chain)

  /** Whether there is a backend stream, and whether it is being closed. */
  datatype Backend = Backend(stream: bool, closeRequested: bool)

  /** How the transaction ends; `result` is what its completion handler was called with. */
  datatype Life = Life(
    connecting: bool, completed: bool, deferred: Option<Finish>, clientCancelRequested: bool, permit: bool,
    result: Option<Finish>)

  /** The request body; `parserDone` says that all of it was read, `complete` that it was sent. */
  datatype Upload = Upload(
    bodyRead: bool, complete: bool, stop: bool, parserDone: bool, lastChunkSent: bool)

  /** The response: `done` is the parser's state, `buffered` says that body bytes are in the transfer buffer. */
  datatype Download = Download(
    headStarted: bool, early: bool, clientKeepAlive: bool, backendKeepAlive: bool,
    errorKeepAlive: bool, ownBuffer: bool, done: bool, buffered: bool)

  datatype Link = Link(fromPool: bool, retried: bool, httpBuffer: bool, tunnelBuffers: bool)

  /**
   The state of a transaction. `errors` counts the error responses being written, `unsent` the body bytes that
   were read from the client and have not reached the backend, `completions` the calls of the completion handler.
   */
  datatype Tx = Tx(
    config: Config, ops: Ops,
    errors: nat, clientPending: nat, backendPending: nat, completions: nat, unsent: nat, status: nat,
    backend: Backend, life: Life, up: Upload, down: Download, link: Link, faults: set<Fault>)

  function Initial(c: Config): Tx {
    Tx(c,
       Ops(true, false, false, NoMain, NoUpload, NoOut, NoBack),
       0, 0, 0, 0, 0, 0,
       Backend(false, false),
       Life(false, false, None, false, false, None),
       Upload(false, false, false, c.bodyComplete, false),
       Download(false, false, c.clientKeepAlive, false, false, false, false, false),
       Link(false, false, false, false),
       {})
  }

  // ---------------------------------------------------------------- counters and the stream

  function Pred(n: nat): nat { if n == 0 then 0 else n - 1 }

  predicate AtBackend(op: MainOp) {
    op.Connect? || op.Handshake? || op.SendHeader? || op.ReadHead? || op.ReadBody? || op.ReadUpgrade? || op.FlushUp?
  }

  predicate AtClient(op: MainOp) { !op.NoMain? && !AtBackend(op) }

  /** The outstanding operations on the backend stream. */
  function BackendOps(ops: Ops): nat {
    (if AtBackend(ops.main) then 1 else 0) + (if ops.upload.SendChunk? || ops.upload.SendLastChunk? then 1 else 0) +
    (if ops.out.TunnelUp? then 1 else 0) + (if ops.back.TunnelRecv? then 1 else 0)
  }

  /** The outstanding operations on the client connection. */
  function ClientOps(ops: Ops, errors: nat): nat {
    (if AtClient(ops.main) then 1 else 0) + (if ops.upload.RecvBody? then 1 else 0) +
    (if ops.out.TunnelIn? then 1 else 0) + (if ops.back.TunnelDown? then 1 else 0) + errors
  }

  function Blame(t: Tx, wrong: bool, fault: Fault): (s: Tx)
    ensures s.config == t.config
  {
    if wrong then t.(faults := t.faults + {fault}) else t
  }

  /** `with_backend`: dereferences the optional stream. */
  function UseStream(t: Tx): (s: Tx)
    ensures s.config == t.config
  {
    Blame(t, !t.backend.stream, NullStream)
  }

  function ResetStream(t: Tx): (s: Tx)
    ensures s.config == t.config
  {
    Blame(t, t.backend.stream && BackendOps(t.ops) > 0, DestroyedInUse).(backend := t.backend.(stream := false))
  }

  /** A new stream replaces, and so destroys, one that is still there. */
  function EmplaceStream(t: Tx): (s: Tx)
    ensures s.config == t.config
  {
    ResetStream(t).(backend := t.backend.(stream := true, closeRequested := false))
  }

  function StartBackend(t: Tx): (s: Tx)
    ensures s.config == t.config
  {
    UseStream(t).(backendPending := t.backendPending + 1)
  }

  function StartClient(t: Tx): (s: Tx)
    ensures s.config == t.config
  {
    t.(clientPending := t.clientPending + 1)
  }

  function StartMain(t: Tx, op: MainOp): (s: Tx)
    ensures s.config == t.config
  {
    var begun := Blame(t, !t.ops.main.NoMain?, Overlap).(ops := t.ops.(main := op));
    if AtBackend(op) then StartBackend(begun) else StartClient(begun)
  }

  function StartUpload(t: Tx, op: UploadOp): (s: Tx)
    ensures s.config == t.config
  {
    var begun := Blame(t, !t.ops.upload.NoUpload?, Overlap).(ops := t.ops.(upload := op));
    if op.RecvBody? then StartClient(begun) else StartBackend(begun)
  }

  function StartOut(t: Tx, op: OutOp): (s: Tx)
    ensures s.config == t.config
  {
    var begun := Blame(t, !t.ops.out.NoOut?, Overlap).(ops := t.ops.(out := op));
    if op.TunnelIn? then StartClient(begun) else StartBackend(begun)
  }

  function StartBack(t: Tx, op: BackOp): (s: Tx)
    ensures s.config == t.config
  {
    var begun := Blame(t, !t.ops.back.NoBack?, Overlap).(ops := t.ops.(back := op));
    if op.TunnelDown? then StartClient(begun) else StartBackend(begun)
  }

  function MaybeReleaseClosed(t: Tx): (s: Tx)
    ensures s.config == t.config
  {
    if t.backend.closeRequested && t.backendPending == 0 then ResetStream(t) else t
  }

  /** `finish_backend_operation`, first in every handler of a backend operation. */
  function FinishBackend(t: Tx): (s: Tx)
    ensures s.config == t.config
  {
    MaybeReleaseClosed(t.(backendPending := Pred(t.backendPending)))
  }

  function FinishClient(t: Tx): (s: Tx)
    ensures s.config == t.config
  {
    t.(clientPending := Pred(t.clientPending))
  }

  function CloseBackend(t: Tx): (s: Tx)
    ensures s.config == t.config
  {
    if !t.backend.stream then t else MaybeReleaseClosed(t.(backend := t.backend.(closeRequested := true)))
  }

  function Connecting(t: Tx, connecting: bool): (s: Tx)
    ensures s.config == t.config
  {
    t.(life := t.life.(connecting := connecting))
  }

  // ---------------------------------------------------------------- finishing

  function FinishNow(t: Tx, f: Finish): (s: Tx)
    ensures s.config == t.config
  {
    if t.life.completed then t else
    Blame(t, BackendOps(t.ops) + ClientOps(t.ops, t.errors) > 0, CompletedInUse)
      .(life := t.life.(completed := true, connecting := false, permit := false,
                        result := Some(f)),
        completions := t.completions + 1)
  }

  function MaybeFinishDeferred(t: Tx): (s: Tx)
    ensures s.config == t.config
  {
    if t.life.deferred.None? || t.clientPending != 0 || t.backendPending != 0 then t
    else FinishNow(MaybeReleaseClosed(t).(life := t.life.(deferred := None)), t.life.deferred.value)
  }

  function FinishWhenQuiet(t: Tx, f: Finish): (s: Tx)
    ensures s.config == t.config
  {
    if t.life.completed then t else
    MaybeFinishDeferred(t.(life := t.life.(
      deferred := Some(f), clientCancelRequested := t.life.clientCancelRequested || t.clientPending != 0)))
  }

  /** Whether the client connection may be used again after an error response. */
  predicate ErrorKeepsAlive(down: Download, up: Upload, status: nat) {
    down.clientKeepAlive && up.parserDone && status != 400 && status != 413 && status != 408
  }

  /** `send_error`. */
  function Respond(t: Tx, status: nat): (s: Tx)
    ensures s.config == t.config
  {
    var keepAlive := ErrorKeepsAlive(t.down, t.up, status);
    var closed := CloseBackend(t).(status := status, down := t.down.(errorKeepAlive := keepAlive));
    StartClient(closed.(errors := closed.errors + 1))
  }

  function Fail(t: Tx, timeout: bool): (s: Tx)
    ensures s.config == t.config
  {
    if t.life.completed then t else Respond(Connecting(t, false), if timeout then 504 else 502)
  }

  function StatusOr(t: Tx, default: nat): nat { if t.status == 0 then default else t.status }

  function FailAfterHeader(t: Tx): (s: Tx)
    ensures s.config == t.config
  {
    if t.life.completed then t else FinishWhenQuiet(CloseBackend(t), Finish(StatusOr(t, 502), false))
  }

  function FinishTunnel(t: Tx): (s: Tx)
    ensures s.config == t.config
  {
    if t.life.completed then t else FinishWhenQuiet(CloseBackend(t), Finish(101, false))
  }

  /** `abort_from_exception_noexcept`. */
  function Abort(t: Tx): (s: Tx)
    ensures s.config == t.config
  {
    var closed := CloseBackend(Connecting(t, false));
    if t.life.completed then closed else
    MaybeFinishDeferred(closed.(life := closed.life.(
      deferred := Some(Finish(StatusOr(t, 500), false)), clientCancelRequested := true)))
  }

  /** The whole request has reached the backend. */
  predicate RequestSent(c: Config, up: Upload, unsent: nat) {
    c.bodyComplete || (up.parserDone && unsent == 0 && (c.chunked ==> up.lastChunkSent))
  }

  function PoolStream(t: Tx): (s: Tx)
    ensures s.config == t.config
  {
    Blame(Blame(UseStream(t), BackendOps(t.ops) > 0, PooledInUse),
          !(RequestSent(t.config, t.up, t.unsent) && t.down.done), PooledUnfinished)
      .(backend := t.backend.(stream := false))
  }

  function FinishNormal(t: Tx, socketOpen: bool): (s: Tx)
    ensures s.config == t.config
  {
    if t.down.early || !t.up.complete then
      FinishWhenQuiet(CloseBackend(t), Finish(t.status, false))
    else
      var reusable := t.config.keepAliveWanted && t.down.backendKeepAlive && t.backend.stream && socketOpen;
      FinishNow(if reusable then PoolStream(t) else CloseBackend(t), Finish(t.status, t.down.clientKeepAlive))
  }

  // ---------------------------------------------------------------- setting up

  function OnPermit(t: Tx, r: Reply): (s: Tx)
    ensures s.config == t.config
  {
    if t.life.completed then t
    else if !r.ok then Respond(t, 503)
    else
      var held := t.(life := t.life.(permit := true));
      if !t.config.websocket && !r.memory then Respond(held, 503)
      else UseOrConnect(held.(link := t.link.(httpBuffer := t.link.httpBuffer || !t.config.websocket)), r)
  }

  /** Uses a pooled stream if there is one, and connects otherwise. */
  function UseOrConnect(t: Tx, r: Reply): (s: Tx)
    ensures s.config == t.config
  {
    var pooled := if t.config.keepAliveWanted && !t.config.websocket && r.pooled
                  then EmplaceStream(t).(link := t.link.(fromPool := true)) else t;
    if pooled.backend.stream then WriteRequestHeader(pooled) else ConnectBackend(pooled, r)
  }

  function ConnectBackend(t: Tx, r: Reply): (s: Tx)
    ensures s.config == t.config
  {
    var d := EmplaceStream(t.(link := t.link.(fromPool := false)));
    if t.config.https && !r.sniAccepted then Fail(d, false)
    else Blame(Connecting(d, true), d.ops.resolving || d.ops.timer, Overlap)
           .(ops := d.ops.(timer := true, resolving := true))
  }

  function OnConnectTimeout(t: Tx, r: Reply): (s: Tx)
    ensures s.config == t.config
  {
    if !r.ok || !t.life.connecting || t.life.completed then t
    else Fail(CloseBackend(Connecting(t, false)), true)
  }

  function OnResolved(t: Tx, r: Reply): (s: Tx)
    ensures s.config == t.config
  {
    if !t.life.connecting || t.life.completed then t
    else if !r.ok then Fail(Connecting(t, false), r.timeout)
    else StartMain(t, Connect)
  }

  /** The guard of most callbacks: the end is decided, or the backend is being closed. */
  predicate Ending(t: Tx) { t.life.deferred.Some? || t.backend.closeRequested || t.life.completed }

  function OnConnect(d: Tx, r: Reply): (s: Tx)
    ensures s.config == d.config
  {
    if Ending(d) then MaybeFinishDeferred(d)
    else if !d.life.connecting then d
    else if !r.ok then Fail(d, r.timeout)
    else if d.config.https then StartMain(d, Handshake)
    else WriteRequestHeader(Connecting(d, false))
  }

  function OnHandshake(d: Tx, r: Reply): (s: Tx)
    ensures s.config == d.config
  {
    if Ending(d) then MaybeFinishDeferred(d)
    else if !d.life.connecting then d
    else if !r.ok then Fail(Connecting(d, false), r.timeout)
    else WriteRequestHeader(Connecting(d, false))
  }

  function WriteRequestHeader(t: Tx): (s: Tx)
    ensures s.config == t.config
  {
    StartMain(t, SendHeader)
  }

  function OnRequestHeaderWritten(d: Tx, r: Reply): (s: Tx)
    ensures s.config == d.config
  {
    if Ending(d) then MaybeFinishDeferred(d)
    else if !r.ok then
      if d.link.fromPool && !d.link.retried && r.nothingSent then
        ConnectBackend(CloseBackend(d.(link := d.link.(retried := true))), r)
      else Fail(d, r.timeout)
    else
      var written := d.(link := d.link.(fromPool := false));
      if d.config.websocket then StartMain(written, ReadUpgrade)
      else if !d.up.parserDone then
        if d.config.expectContinue then StartMain(written, SendContinue)
        else ReadRequestBodyChunk(ReadResponseHeader(written))
      else ReadResponseHeader(written.(up := d.up.(complete := true)))
  }

  function OnContinueWritten(d: Tx, r: Reply): (s: Tx)
    ensures s.config == d.config
  {
    if d.life.deferred.Some? || d.life.completed then MaybeFinishDeferred(d)
    else if !r.ok then Fail(d, r.timeout)
    else ReadRequestBodyChunk(ReadResponseHeader(d))
  }

  // ---------------------------------------------------------------- uploading

  function ReadRequestBodyChunk(t: Tx): (s: Tx)
    ensures s.config == t.config
  {
    if t.life.completed || t.up.stop then t else StartUpload(Blame(t, !t.link.httpBuffer, NullBuffer), RecvBody)
  }

  function OnRequestBodyRead(t: Tx, r: Reply): (s: Tx)
    ensures s.config == t.config
  {
    var d := t.(up := t.up.(parserDone := t.up.parserDone || r.done));
    if d.life.deferred.Some? then MaybeFinishDeferred(d)
    else if d.life.completed || d.up.stop then d
    else if !r.ok then Respond(d, if r.tooLarge then 413 else if r.timeout then 408 else 400)
    else ForwardBody(d, r.produced)
  }

  /** A part of the body is in the transfer buffer. */
  function ForwardBody(d: Tx, produced: nat): (s: Tx)
    ensures s.config == d.config
  {
    var read := d.(up := d.up.(bodyRead := d.up.parserDone), unsent := d.unsent + produced);
    if produced == 0 then
      if read.up.bodyRead then FinishRequestBody(read) else ReadRequestBodyChunk(read)
    else StartUpload(read, SendChunk(produced))
  }

  function LeftOver(unsent: nat, bytes: nat, written: bool): (left: nat)
    ensures left <= unsent
  {
    if written && bytes <= unsent then unsent - bytes else unsent
  }

  function OnRequestBodyWritten(t: Tx, bytes: nat, r: Reply): (s: Tx)
    ensures s.config == t.config
  {
    var d := t.(unsent := LeftOver(t.unsent, bytes, r.ok));
    if d.life.deferred.Some? then MaybeFinishDeferred(d)
    else if d.life.completed || d.up.stop then d
    else if !r.ok then Fail(d, r.timeout)
    else if d.up.bodyRead then FinishRequestBody(d)
    else ReadRequestBodyChunk(d)
  }

  function FinishRequestBody(t: Tx): (s: Tx)
    ensures s.config == t.config
  {
    if t.life.completed || t.up.stop then t
    else if !t.config.chunked then t.(up := t.up.(complete := true))
    else StartUpload(t, SendLastChunk)
  }

  function OnRequestBodyFinished(t: Tx, r: Reply): (s: Tx)
    ensures s.config == t.config
  {
    var d := t.(up := t.up.(lastChunkSent := t.up.lastChunkSent || r.ok));
    if d.life.deferred.Some? then MaybeFinishDeferred(d)
    else if d.life.completed || d.up.stop then d
    else if !r.ok then Fail(d, r.timeout)
    else d.(up := d.up.(complete := true))
  }

  // ---------------------------------------------------------------- the response

  function ReadResponseHeader(t: Tx): (s: Tx)
    ensures s.config == t.config
  {
    if t.down.headStarted || t.life.completed then t
    else StartMain(t.(down := t.down.(headStarted := true)), ReadHead)
  }

  function OnResponseHeader(d: Tx, r: Reply): (s: Tx)
    ensures s.config == d.config
  {
    if d.backend.closeRequested || d.life.completed then MaybeFinishDeferred(d)
    else if !r.ok then Fail(d, r.timeout)
    else if 100 <= r.status < 200 && r.status != 101 then
      ReadResponseHeader(d.(down := d.down.(headStarted := false)))
    else if r.status == 101 then Respond(d, 502)
    else AcceptResponse(d, r)
  }

  /** The final response header is there: a body that is not yet uploaded is not needed any more. */
  function Seen(d: Tx): (s: Tx)
    ensures s.config == d.config
  {
    var early := !d.up.complete;
    d.(up := d.up.(stop := early),
       down := d.down.(early := early, clientKeepAlive := d.down.clientKeepAlive && !early))
  }

  function Accepted(d: Tx, r: Reply): (s: Tx)
    ensures s.config == d.config
  {
    d.(down := d.down.(ownBuffer := d.down.ownBuffer || (d.down.early && !r.done),
                       backendKeepAlive := r.keepAlive && !d.down.early,
                       done := r.done,
                       buffered := false),
       status := r.status)
  }

  /** A response that arrives before the request was sent stops the upload and gets a buffer of its own. */
  function AcceptResponse(d: Tx, r: Reply): (s: Tx)
    ensures s.config == d.config
  {
    var seen := Seen(d);
    if seen.down.early && !r.done && !r.memory then Respond(seen, 503) else StartMain(Accepted(seen, r), SendHead)
  }

  function OnHeaderWritten(d: Tx, r: Reply): (s: Tx)
    ensures s.config == d.config
  {
    if d.life.deferred.Some? || d.life.completed then MaybeFinishDeferred(d)
    else if !r.ok then FailAfterHeader(d)
    else if d.down.done then
      if r.serialized then FinishNormal(d, r.socketOpen) else WriteBodyPart(d)
    else ReadBodyChunk(d)
  }

  function WriteBodyPart(t: Tx): (s: Tx)
    ensures s.config == t.config
  {
    StartMain(t, SendBody)
  }

  function ReadBodyChunk(t: Tx): (s: Tx)
    ensures s.config == t.config
  {
    StartMain(Blame(t, !t.down.ownBuffer && !t.link.httpBuffer, NullBuffer), ReadBody)
  }

  function OnBodyRead(d: Tx, r: Reply): (s: Tx)
    ensures s.config == d.config
  {
    if d.backend.closeRequested || d.life.completed then MaybeFinishDeferred(d)
    else if !r.ok then FailAfterHeader(d)
    else WriteBodyPart(d.(down := d.down.(done := r.done, buffered := true)))
  }

  function OnBodyWritten(d: Tx, r: Reply): (s: Tx)
    ensures s.config == d.config
  {
    if d.life.deferred.Some? || d.life.completed then MaybeFinishDeferred(d)
    else if r.needBuffer then
      if d.down.done && r.serialized then FinishNormal(d, r.socketOpen) else ReadBodyChunk(d)
    else if !r.ok then FailAfterHeader(d)
    else if r.serialized then FinishNormal(d, r.socketOpen)
    else WriteBodyPart(d)
  }

  function OnErrorWritten(d: Tx, r: Reply): (s: Tx)
    ensures s.config == d.config
  {
    if d.life.deferred.Some? || d.life.completed then MaybeFinishDeferred(d)
    else FinishWhenQuiet(d, Finish(d.status, r.ok && d.down.errorKeepAlive))
  }

  // ---------------------------------------------------------------- the tunnel

  function OnUpgradeResponse(d: Tx, r: Reply): (s: Tx)
    ensures s.config == d.config
  {
    if Ending(d) then MaybeFinishDeferred(d)
    else if !r.ok then Fail(d, r.timeout)
    else if r.status != 101 then Respond(d, 502)
    else if !r.memory then Respond(d, 503)
    else StartMain(UseStream(d.(link := d.link.(tunnelBuffers := true), status := 101)), SendUpgrade)
  }

  function OnUpgradeWritten(d: Tx, r: Reply): (s: Tx)
    ensures s.config == d.config
  {
    if d.life.deferred.Some? || d.life.completed then MaybeFinishDeferred(d)
    else if !r.ok then Fail(d, r.timeout)
    else if r.clientBufferEmpty then FlushBackendBuffer(d, r)
    else StartMain(d, FlushUp)
  }

  function OnClientBufferFlushed(d: Tx, r: Reply): (s: Tx)
    ensures s.config == d.config
  {
    if Ending(d) then MaybeFinishDeferred(d)
    else if !r.ok then Fail(d, r.timeout)
    else FlushBackendBuffer(d, r)
  }

  function FlushBackendBuffer(t: Tx, r: Reply): (s: Tx)
    ensures s.config == t.config
  {
    if r.backendBufferEmpty then StartTunnel(t) else StartMain(t, FlushDown)
  }

  function OnBackendBufferFlushed(d: Tx, r: Reply): (s: Tx)
    ensures s.config == d.config
  {
    if d.life.deferred.Some? || d.life.completed then MaybeFinishDeferred(d)
    else if !r.ok then Fail(d, r.timeout)
    else StartTunnel(d)
  }

  function StartTunnel(t: Tx): (s: Tx)
    ensures s.config == t.config
  {
    ReadFromBackend(ReadFromClient(t))
  }

  function ReadFromClient(t: Tx): (s: Tx)
    ensures s.config == t.config
  {
    StartOut(Blame(t, !t.link.tunnelBuffers, NullBuffer), TunnelIn)
  }

  function ReadFromBackend(t: Tx): (s: Tx)
    ensures s.config == t.config
  {
    StartBack(Blame(t, !t.link.tunnelBuffers, NullBuffer), TunnelRecv)
  }

  function OnClientTunnelRead(d: Tx, r: Reply): (s: Tx)
    ensures s.config == d.config
  {
    if d.life.deferred.Some? || d.life.completed then MaybeFinishDeferred(d)
    else if !r.ok then FinishTunnel(d)
    else StartOut(d, TunnelUp(r.produced))
  }

  function OnBackendTunnelWritten(d: Tx, r: Reply): (s: Tx)
    ensures s.config == d.config
  {
    if Ending(d) then MaybeFinishDeferred(d)
    else if !r.ok then FinishTunnel(d)
    else ReadFromClient(d)
  }

  function OnBackendTunnelRead(d: Tx, r: Reply): (s: Tx)
    ensures s.config == d.config
  {
    if Ending(d) then MaybeFinishDeferred(d)
    else if !r.ok then FinishTunnel(d)
    else StartBack(d, TunnelDown(r.produced))
  }

  function OnClientTunnelWritten(d: Tx, r: Reply): (s: Tx)
    ensures s.config == d.config
  {
    if d.life.deferred.Some? || d.life.completed then MaybeFinishDeferred(d)
    else if !r.ok then FinishTunnel(d)
    else ReadFromBackend(d)
  }

  function OnCancel(t: Tx): (s: Tx)
    ensures s.config == t.config
  {
    if t.life.completed then t else
    FinishWhenQuiet(CloseBackend(Connecting(t, false)), Finish(StatusOr(t, 499), false))
  }

  // ---------------------------------------------------------------- runs

  /** The handler of a chain's outstanding operation begins: the operation is over and its counter adjusted. */
  function Return(t: Tx, chain: Chain): (s: Tx)
    ensures s.config == t.config
  {
    match chain
    case PermitChain => t.(ops := t.ops.(awaitPermit := false))
    case TimerChain => t.(ops := t.ops.(timer := false))
    case ResolveChain => t.(ops := t.ops.(resolving := false))
    case MainChain =>
      var over := t.(ops := t.ops.(main := NoMain));
      if AtBackend(t.ops.main) then FinishBackend(over) else FinishClient(over)
    case UploadChain =>
      var over := t.(ops := t.ops.(upload := NoUpload));
      if t.ops.upload.RecvBody? then FinishClient(over) else FinishBackend(over)
    case OutChain =>
      var over := t.(ops := t.ops.(out := NoOut));
      if t.ops.out.TunnelIn? then FinishClient(over) else FinishBackend(over)
    case BackChain =>
      var over := t.(ops := t.ops.(back := NoBack));
      if t.ops.back.TunnelDown? then FinishClient(over) else FinishBackend(over)
    case ErrorChain => FinishClient(t.(errors := Pred(t.errors)))
  }

  predicate Outstanding(ops: Ops, errors: nat, chain: Chain) {
    match chain
    case PermitChain => ops.awaitPermit
    case TimerChain => ops.timer
    case ResolveChain => ops.resolving
    case MainChain => !ops.main.NoMain?
    case UploadChain => !ops.upload.NoUpload?
    case OutChain => !ops.out.NoOut?
    case BackChain => !ops.back.NoBack?
    case ErrorChain => errors > 0
  }

  function HandleMain(d: Tx, op: MainOp, r: Reply): (s: Tx)
    ensures s.config == d.config
  {
    match op
    case NoMain => d
    case Connect => OnConnect(d, r)
    case Handshake => OnHandshake(d, r)
    case SendHeader => OnRequestHeaderWritten(d, r)
    case SendContinue => OnContinueWritten(d, r)
    case ReadHead => OnResponseHeader(d, r)
    case SendHead => OnHeaderWritten(d, r)
    case ReadBody => OnBodyRead(d, r)
    case SendBody => OnBodyWritten(d, r)
    case ReadUpgrade => OnUpgradeResponse(d, r)
    case SendUpgrade => OnUpgradeWritten(d, r)
    case FlushUp => OnClientBufferFlushed(d, r)
    case FlushDown => OnBackendBufferFlushed(d, r)
  }

  function HandleUpload(d: Tx, op: UploadOp, r: Reply): (s: Tx)
    ensures s.config == d.config
  {
    match op
    case NoUpload => d
    case RecvBody => OnRequestBodyRead(d, r)
    case SendChunk(bytes) => OnRequestBodyWritten(d, bytes, r)
    case SendLastChunk => OnRequestBodyFinished(d, r)
  }

  /** The callback of the operation that was outstanding in `t`. */
  function Handle(t: Tx, chain: Chain, r: Reply): (s: Tx)
    ensures s.config == t.config
  {
    var d := Return(t, chain);
    match chain
    case PermitChain => OnPermit(d, r)
    case TimerChain => OnConnectTimeout(d, r)
    case ResolveChain => OnResolved(d, r)
    case MainChain => HandleMain(d, t.ops.main, r)
    case UploadChain => HandleUpload(d, t.ops.upload, r)
    case OutChain => if t.ops.out.TunnelIn? then OnClientTunnelRead(d, r) else OnBackendTunnelWritten(d, r)
    case BackChain => if t.ops.back.TunnelDown? then OnClientTunnelWritten(d, r) else OnBackendTunnelRead(d, r)
    case ErrorChain => OnErrorWritten(d, r)
  }

  /** `Threw` is a handler that throws before it starts anything. */
  function Step(t: Tx, e: Event): (s: Tx)
    ensures s.config == t.config
  {
    match e
    case Done(chain, r) => Handle(t, chain, r)
    case CancelRequested => OnCancel(t)
    case Threw(chain) => Abort(Return(t, chain))
  }

  /**
   What the environment guarantees: only outstanding operations complete; the serializer asks for another
   buffer only while the body has more to come, and is done only when it has no more; a body is complete
   only when it was read without error. A faulty transaction has undefined behaviour and takes no step.
   */
  predicate Enabled(t: Tx, e: Event) {
    && t.faults == {}
    && match e
       case Done(chain, r) =>
         && Outstanding(t.ops, t.errors, chain)
         && (chain.MainChain? && t.ops.main.SendBody? && r.needBuffer ==> !t.down.done)
         && (chain.MainChain? && (t.ops.main.SendHead? || t.ops.main.SendBody?) && r.serialized ==> t.down.done)
         && (chain.UploadChain? && r.done ==> r.ok)
       case CancelRequested => true
       case Threw(chain) => Outstanding(t.ops, t.errors, chain)
  }

  ghost predicate Run(ts: seq<Tx>, events: seq<Event>, c: Config) {
    && |ts| == |events| + 1
    && ts[0] == Initial(c)
    && forall i :: 0 <= i < |events| ==> Enabled(ts[i], events[i]) && ts[i + 1] == Step(ts[i], events[i])
  }
}
