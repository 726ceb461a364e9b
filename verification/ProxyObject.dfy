/**
 The transaction as the object it is in the program: fields changed in place by its callbacks. The outstanding
 operations, the faults and the calls of the completion handler are ghost, so no callback can read them; the
 runtime, which holds the handlers, tells `Dispatch` which of them to call. `Dispatch` is proved to keep the
 invariant, and `Drive` carries the theorems about runs over to the object.
 */
module ProxyObject {
  import opened Options
  import opened ProxyTransaction
  import opened ProxyInvariant
  import opened ProxyTheorems

  class Transaction {
    const config: Config
    var clientPending: nat
    var backendPending: nat
    var status: nat
    var backend: Backend
    var life: Life
    var up: Upload
    var down: Download
    var link: Link
    ghost var ops: Ops
    ghost var errors: nat
    ghost var completions: nat
    ghost var unsent: nat
    ghost var faults: set<Fault>

    ghost function View(): Tx
      reads this
    {
      Tx(config, ops, errors, clientPending, backendPending, completions, unsent, status,
         backend, life, up, down, link, faults)
    }

    ghost predicate Valid()
      reads this
    {
      Inv(View())
    }

    constructor (c: Config)
      ensures Valid() && View() == Initial(c)
    {
      config := c;
      clientPending, backendPending, status := 0, 0, 0;
      backend := Backend(false, false);
      life := Life(false, false, None, false, false, None);
      up := Upload(false, false, false, c.bodyComplete, false);
      down := Download(false, false, c.clientKeepAlive, false, false, false, false, false);
      link := Link(false, false, false, false);
      ops := Ops(true, false, false, NoMain, NoUpload, NoOut, NoBack);
      errors, completions, unsent := 0, 0, 0;
      faults := {};
      new;
      Starts(c);
    }

    // -------------------------------------------------------------- counters and the stream

    ghost method Blame(wrong: bool, fault: Fault)
      modifies this
      ensures View() == ProxyTransaction.Blame(old(View()), wrong, fault)
    {
      if wrong {
        faults := faults + {fault};
      }
    }

    method ResetStream()
      modifies this
      ensures View() == ProxyTransaction.ResetStream(old(View()))
    {
      Blame(backend.stream && BackendOps(ops) > 0, DestroyedInUse);
      backend := backend.(stream := false);
    }

    method EmplaceStream()
      modifies this
      ensures View() == ProxyTransaction.EmplaceStream(old(View()))
    {
      ResetStream();
      backend := Backend(true, false);
    }

    method StartBackendOperation()
      modifies this
      ensures View() == StartBackend(old(View()))
    {
      Blame(!backend.stream, NullStream);
      backendPending := backendPending + 1;
    }

    method StartClientOperation()
      modifies this
      ensures View() == StartClient(old(View()))
    {
      clientPending := clientPending + 1;
    }

    method MaybeReleaseClosedBackend()
      modifies this
      ensures View() == MaybeReleaseClosed(old(View()))
    {
      if backend.closeRequested && backendPending == 0 {
        ResetStream();
      }
    }

    method FinishBackendOperation()
      modifies this
      ensures View() == FinishBackend(old(View()))
    {
      if backendPending != 0 {
        backendPending := backendPending - 1;
      }
      MaybeReleaseClosedBackend();
    }

    method FinishClientOperation()
      modifies this
      ensures View() == FinishClient(old(View()))
    {
      if clientPending != 0 {
        clientPending := clientPending - 1;
      }
    }

    method CloseBackend()
      modifies this
      ensures View() == ProxyTransaction.CloseBackend(old(View()))
    {
      if !backend.stream {
        return;
      }
      backend := backend.(closeRequested := true);
      MaybeReleaseClosedBackend();
    }

    method StartMain(ghost op: MainOp, atBackend: bool)
      requires atBackend == AtBackend(op)
      modifies this
      ensures View() == ProxyTransaction.StartMain(old(View()), op)
    {
      Blame(!ops.main.NoMain?, Overlap);
      ops := ops.(main := op);
      if atBackend {
        StartBackendOperation();
      } else {
        StartClientOperation();
      }
    }

    // -------------------------------------------------------------- finishing

    method Finish(status: nat, keepAlive: bool)
      modifies this
      ensures View() == FinishNow(old(View()), ProxyTransaction.Finish(status, keepAlive))
    {
      if life.completed {
        return;
      }
      Blame(BackendOps(ops) + ClientOps(ops, errors) > 0, CompletedInUse);
      life := life.(completed := true, connecting := false, permit := false,
                    result := Some(ProxyTransaction.Finish(status, keepAlive)));
      completions := completions + 1;
    }

    method MaybeFinishDeferred()
      modifies this
      ensures View() == ProxyTransaction.MaybeFinishDeferred(old(View()))
    {
      if life.deferred.None? || clientPending != 0 || backendPending != 0 {
        return;
      }
      MaybeReleaseClosedBackend();
      var deferred := life.deferred.value;
      life := life.(deferred := None);
      Finish(deferred.status, deferred.keepAlive);
    }

    method FinishWhenIoQuiesced(status: nat, keepAlive: bool)
      modifies this
      ensures View() == FinishWhenQuiet(old(View()), ProxyTransaction.Finish(status, keepAlive))
    {
      if life.completed {
        return;
      }
      life := life.(deferred := Some(ProxyTransaction.Finish(status, keepAlive)));
      if clientPending != 0 && !life.clientCancelRequested {
        life := life.(clientCancelRequested := true);
      }
      MaybeFinishDeferred();
    }

    method SendError(code: nat)
      modifies this
      ensures View() == Respond(old(View()), code)
    {
      var keepAlive := ErrorKeepsAlive(down, up, code);
      CloseBackend();
      status := code;
      down := down.(errorKeepAlive := keepAlive);
      errors := errors + 1;
      StartClientOperation();
    }

    method Fail(timeout: bool)
      modifies this
      ensures View() == ProxyTransaction.Fail(old(View()), timeout)
    {
      if life.completed {
        return;
      }
      life := life.(connecting := false);
      SendError(if timeout then 504 else 502);
    }

    method FailAfterHeader()
      modifies this
      ensures View() == ProxyTransaction.FailAfterHeader(old(View()))
    {
      if life.completed {
        return;
      }
      CloseBackend();
      FinishWhenIoQuiesced(if status == 0 then 502 else status, false);
    }

    method FinishTunnel()
      modifies this
      ensures View() == ProxyTransaction.FinishTunnel(old(View()))
    {
      if life.completed {
        return;
      }
      CloseBackend();
      FinishWhenIoQuiesced(101, false);
    }

    method AbortFromException()
      modifies this
      ensures View() == Abort(old(View()))
    {
      var alreadyStarted := life.completed;
      life := life.(connecting := false);
      CloseBackend();
      if alreadyStarted {
        return;
      }
      life := life.(deferred := Some(ProxyTransaction.Finish(if status == 0 then 500 else status, false)),
                    clientCancelRequested := true);
      MaybeFinishDeferred();
    }

    method FinishNormal(socketOpen: bool)
      modifies this
      ensures View() == ProxyTransaction.FinishNormal(old(View()), socketOpen)
    {
      if down.early || !up.complete {
        CloseBackend();
        FinishWhenIoQuiesced(status, false);
        return;
      }
      var reusable := config.keepAliveWanted && down.backendKeepAlive && backend.stream && socketOpen;
      if reusable {
        Blame(BackendOps(ops) > 0, PooledInUse);
        Blame(!(RequestSent(config, up, unsent) && down.done), PooledUnfinished);
        backend := backend.(stream := false);
      } else {
        CloseBackend();
      }
      Finish(status, down.clientKeepAlive);
    }

    // -------------------------------------------------------------- setting up

    method OnBackendPermit(r: Reply)
      modifies this
      ensures View() == OnPermit(Return(old(View()), PermitChain), r)
    {
      ops := ops.(awaitPermit := false);
      if life.completed {
        return;
      }
      if !r.ok {
        SendError(503);
        return;
      }
      life := life.(permit := true);
      if !config.websocket {
        if !r.memory {
          SendError(503);
          return;
        }
        link := link.(httpBuffer := true);
      }
      UseOrConnect(r);
    }

    method UseOrConnect(r: Reply)
      modifies this
      ensures View() == ProxyTransaction.UseOrConnect(old(View()), r)
    {
      if config.keepAliveWanted && !config.websocket && r.pooled {
        EmplaceStream();
        link := link.(fromPool := true);
      }
      if backend.stream {
        WriteRequestHeader();
      } else {
        ConnectBackend(r);
      }
    }

    method ConnectBackend(r: Reply)
      modifies this
      ensures View() == ProxyTransaction.ConnectBackend(old(View()), r)
    {
      link := link.(fromPool := false);
      EmplaceStream();
      if config.https && !r.sniAccepted {
        Fail(false);
        return;
      }
      life := life.(connecting := true);
      Blame(ops.resolving || ops.timer, Overlap);
      ops := ops.(timer := true, resolving := true);
    }

    method OnConnectTimeout(r: Reply)
      modifies this
      ensures View() == ProxyTransaction.OnConnectTimeout(Return(old(View()), TimerChain), r)
    {
      ops := ops.(timer := false);
      if !r.ok || !life.connecting || life.completed {
        return;
      }
      life := life.(connecting := false);
      CloseBackend();
      Fail(true);
    }

    method OnResolved(r: Reply)
      modifies this
      ensures View() == ProxyTransaction.OnResolved(Return(old(View()), ResolveChain), r)
    {
      ops := ops.(resolving := false);
      if !life.connecting || life.completed {
        return;
      }
      if !r.ok {
        life := life.(connecting := false);
        Fail(r.timeout);
        return;
      }
      StartMain(Connect, true);
    }

    method OnConnect(r: Reply)
      requires ops.main.Connect?
      modifies this
      ensures View() == ProxyTransaction.OnConnect(Return(old(View()), MainChain), r)
    {
      ops := ops.(main := NoMain);
      FinishBackendOperation();
      if life.deferred.Some? || backend.closeRequested || life.completed {
        MaybeFinishDeferred();
        return;
      }
      if !life.connecting {
        return;
      }
      if !r.ok {
        Fail(r.timeout);
        return;
      }
      if config.https {
        StartMain(Handshake, true);
        return;
      }
      life := life.(connecting := false);
      WriteRequestHeader();
    }

    method OnTlsHandshake(r: Reply)
      requires ops.main.Handshake?
      modifies this
      ensures View() == ProxyTransaction.OnHandshake(Return(old(View()), MainChain), r)
    {
      ops := ops.(main := NoMain);
      FinishBackendOperation();
      if life.deferred.Some? || backend.closeRequested || life.completed {
        MaybeFinishDeferred();
        return;
      }
      if !life.connecting {
        return;
      }
      life := life.(connecting := false);
      if !r.ok {
        Fail(r.timeout);
        return;
      }
      WriteRequestHeader();
    }

    method WriteRequestHeader()
      modifies this
      ensures View() == ProxyTransaction.WriteRequestHeader(old(View()))
    {
      StartMain(SendHeader, true);
    }

    method OnRequestHeaderWritten(r: Reply)
      requires ops.main.SendHeader?
      modifies this
      ensures View() == ProxyTransaction.OnRequestHeaderWritten(Return(old(View()), MainChain), r)
    {
      ops := ops.(main := NoMain);
      FinishBackendOperation();
      if life.deferred.Some? || backend.closeRequested || life.completed {
        MaybeFinishDeferred();
        return;
      }
      if !r.ok {
        if link.fromPool && !link.retried && r.nothingSent {
          link := link.(retried := true);
          CloseBackend();
          ConnectBackend(r);
          return;
        }
        Fail(r.timeout);
        return;
      }
      link := link.(fromPool := false);
      if config.websocket {
        StartMain(ReadUpgrade, true);
        return;
      }
      if !up.parserDone {
        if config.expectContinue {
          StartMain(SendContinue, false);
          return;
        }
        ReadResponseHeader();
        ReadRequestBodyChunk();
        return;
      }
      up := up.(complete := true);
      ReadResponseHeader();
    }

    method OnContinueWritten(r: Reply)
      requires ops.main.SendContinue?
      modifies this
      ensures View() == ProxyTransaction.OnContinueWritten(Return(old(View()), MainChain), r)
    {
      ops := ops.(main := NoMain);
      FinishClientOperation();
      if life.deferred.Some? || life.completed {
        MaybeFinishDeferred();
        return;
      }
      if !r.ok {
        Fail(r.timeout);
        return;
      }
      ReadResponseHeader();
      ReadRequestBodyChunk();
    }

    // -------------------------------------------------------------- uploading

    method StartUpload(ghost op: UploadOp, atBackend: bool)
      requires atBackend == !op.RecvBody?
      modifies this
      ensures View() == ProxyTransaction.StartUpload(old(View()), op)
    {
      Blame(!ops.upload.NoUpload?, Overlap);
      ops := ops.(upload := op);
      if atBackend {
        StartBackendOperation();
      } else {
        StartClientOperation();
      }
    }

    method ReadRequestBodyChunk()
      modifies this
      ensures View() == ProxyTransaction.ReadRequestBodyChunk(old(View()))
    {
      if life.completed || up.stop {
        return;
      }
      Blame(!link.httpBuffer, NullBuffer);
      StartUpload(RecvBody, false);
    }

    method OnRequestBodyRead(r: Reply)
      requires ops.upload.RecvBody?
      modifies this
      ensures View() == ProxyTransaction.OnRequestBodyRead(Return(old(View()), UploadChain), r)
    {
      ops := ops.(upload := NoUpload);
      FinishClientOperation();
      assert View() == Return(old(View()), UploadChain);
      up := up.(parserDone := up.parserDone || r.done);
      if life.deferred.Some? {
        MaybeFinishDeferred();
        return;
      }
      if life.completed || up.stop {
        return;
      }
      if !r.ok {
        SendError(if r.tooLarge then 413 else if r.timeout then 408 else 400);
        return;
      }
      ForwardBody(r.produced);
    }

    method ForwardBody(produced: nat)
      modifies this
      ensures View() == ProxyTransaction.ForwardBody(old(View()), produced)
    {
      up := up.(bodyRead := up.parserDone);
      unsent := unsent + produced;
      if produced == 0 {
        if up.bodyRead {
          FinishRequestBody();
        } else {
          ReadRequestBodyChunk();
        }
        return;
      }
      StartUpload(SendChunk(produced), true);
    }

    method OnRequestBodyWritten(ghost bytes: nat, r: Reply)
      requires ops.upload == SendChunk(bytes)
      modifies this
      ensures View() == ProxyTransaction.OnRequestBodyWritten(Return(old(View()), UploadChain), bytes, r)
    {
      ops := ops.(upload := NoUpload);
      FinishBackendOperation();
      unsent := LeftOver(unsent, bytes, r.ok);
      if life.deferred.Some? {
        MaybeFinishDeferred();
        return;
      }
      if life.completed || up.stop {
        return;
      }
      if !r.ok {
        Fail(r.timeout);
        return;
      }
      if up.bodyRead {
        FinishRequestBody();
      } else {
        ReadRequestBodyChunk();
      }
    }

    method FinishRequestBody()
      modifies this
      ensures View() == ProxyTransaction.FinishRequestBody(old(View()))
    {
      if life.completed || up.stop {
        return;
      }
      if !config.chunked {
        up := up.(complete := true);
        return;
      }
      StartUpload(SendLastChunk, true);
    }

    method OnRequestBodyFinished(r: Reply)
      requires ops.upload.SendLastChunk?
      modifies this
      ensures View() == ProxyTransaction.OnRequestBodyFinished(Return(old(View()), UploadChain), r)
    {
      ops := ops.(upload := NoUpload);
      FinishBackendOperation();
      assert View() == Return(old(View()), UploadChain);
      up := up.(lastChunkSent := up.lastChunkSent || r.ok);
      if life.deferred.Some? {
        MaybeFinishDeferred();
        return;
      }
      if life.completed || up.stop {
        return;
      }
      if !r.ok {
        Fail(r.timeout);
        return;
      }
      up := up.(complete := true);
    }

    // -------------------------------------------------------------- the response

    method ReadResponseHeader()
      modifies this
      ensures View() == ProxyTransaction.ReadResponseHeader(old(View()))
    {
      if down.headStarted || life.completed {
        return;
      }
      down := down.(headStarted := true);
      StartMain(ReadHead, true);
    }

    method OnResponseHeader(r: Reply)
      requires ops.main.ReadHead?
      modifies this
      ensures View() == ProxyTransaction.OnResponseHeader(Return(old(View()), MainChain), r)
    {
      ops := ops.(main := NoMain);
      FinishBackendOperation();
      if backend.closeRequested || life.completed {
        MaybeFinishDeferred();
        return;
      }
      if !r.ok {
        Fail(r.timeout);
        return;
      }
      if 100 <= r.status < 200 && r.status != 101 {
        down := down.(headStarted := false);
        ReadResponseHeader();
        return;
      }
      if r.status == 101 {
        SendError(502);
        return;
      }
      AcceptResponse(r);
    }

    method MarkEarly()
      modifies this
      ensures View() == Seen(old(View()))
    {
      down := down.(early := !up.complete);
      up := up.(stop := down.early);
      if down.early {
        down := down.(clientKeepAlive := false);
      }
    }

    method AcceptResponse(r: Reply)
      modifies this
      ensures View() == ProxyTransaction.AcceptResponse(old(View()), r)
    {
      MarkEarly();
      if down.early && !r.done {
        if !r.memory {
          SendError(503);
          return;
        }
        down := down.(ownBuffer := true);
      }
      status := r.status;
      down := down.(backendKeepAlive := r.keepAlive && !down.early, done := r.done, buffered := false);
      StartMain(SendHead, false);
    }

    method OnHeaderWritten(r: Reply)
      requires ops.main.SendHead?
      modifies this
      ensures View() == ProxyTransaction.OnHeaderWritten(Return(old(View()), MainChain), r)
    {
      ops := ops.(main := NoMain);
      FinishClientOperation();
      if life.deferred.Some? || life.completed {
        MaybeFinishDeferred();
        return;
      }
      if !r.ok {
        FailAfterHeader();
        return;
      }
      if down.done {
        if r.serialized {
          FinishNormal(r.socketOpen);
        } else {
          StartMain(SendBody, false);
        }
        return;
      }
      ReadBodyChunk();
    }

    method ReadBodyChunk()
      modifies this
      ensures View() == ProxyTransaction.ReadBodyChunk(old(View()))
    {
      Blame(!down.ownBuffer && !link.httpBuffer, NullBuffer);
      StartMain(ReadBody, true);
    }

    method OnBodyRead(r: Reply)
      requires ops.main.ReadBody?
      modifies this
      ensures View() == ProxyTransaction.OnBodyRead(Return(old(View()), MainChain), r)
    {
      ops := ops.(main := NoMain);
      FinishBackendOperation();
      if backend.closeRequested || life.completed {
        MaybeFinishDeferred();
        return;
      }
      if !r.ok {
        FailAfterHeader();
        return;
      }
      down := down.(done := r.done, buffered := true);
      StartMain(SendBody, false);
    }

    method OnBodyWritten(r: Reply)
      requires ops.main.SendBody?
      modifies this
      ensures View() == ProxyTransaction.OnBodyWritten(Return(old(View()), MainChain), r)
    {
      ops := ops.(main := NoMain);
      FinishClientOperation();
      if life.deferred.Some? || life.completed {
        MaybeFinishDeferred();
        return;
      }
      if r.needBuffer {
        if down.done && r.serialized {
          FinishNormal(r.socketOpen);
        } else {
          ReadBodyChunk();
        }
        return;
      }
      if !r.ok {
        FailAfterHeader();
        return;
      }
      if r.serialized {
        FinishNormal(r.socketOpen);
        return;
      }
      StartMain(SendBody, false);
    }

    method OnErrorWritten(r: Reply)
      requires errors > 0
      modifies this
      ensures View() == ProxyTransaction.OnErrorWritten(Return(old(View()), ErrorChain), r)
    {
      errors := errors - 1;
      FinishClientOperation();
      if life.deferred.Some? || life.completed {
        MaybeFinishDeferred();
        return;
      }
      FinishWhenIoQuiesced(status, r.ok && down.errorKeepAlive);
    }

    // -------------------------------------------------------------- the tunnel

    method OnUpgradeResponse(r: Reply)
      requires ops.main.ReadUpgrade?
      modifies this
      ensures View() == ProxyTransaction.OnUpgradeResponse(Return(old(View()), MainChain), r)
    {
      ops := ops.(main := NoMain);
      FinishBackendOperation();
      if life.deferred.Some? || backend.closeRequested || life.completed {
        MaybeFinishDeferred();
        return;
      }
      if !r.ok {
        Fail(r.timeout);
        return;
      }
      if r.status != 101 {
        SendError(502);
        return;
      }
      if !r.memory {
        SendError(503);
        return;
      }
      link := link.(tunnelBuffers := true);
      status := 101;
      Blame(!backend.stream, NullStream);
      StartMain(SendUpgrade, false);
    }

    method OnUpgradeWritten(r: Reply)
      requires ops.main.SendUpgrade?
      modifies this
      ensures View() == ProxyTransaction.OnUpgradeWritten(Return(old(View()), MainChain), r)
    {
      ops := ops.(main := NoMain);
      FinishClientOperation();
      if life.deferred.Some? || life.completed {
        MaybeFinishDeferred();
        return;
      }
      if !r.ok {
        Fail(r.timeout);
        return;
      }
      if r.clientBufferEmpty {
        FlushBackendBuffer(r);
      } else {
        StartMain(FlushUp, true);
      }
    }

    method OnClientBufferFlushed(r: Reply)
      requires ops.main.FlushUp?
      modifies this
      ensures View() == ProxyTransaction.OnClientBufferFlushed(Return(old(View()), MainChain), r)
    {
      ops := ops.(main := NoMain);
      FinishBackendOperation();
      if life.deferred.Some? || backend.closeRequested || life.completed {
        MaybeFinishDeferred();
        return;
      }
      if !r.ok {
        Fail(r.timeout);
        return;
      }
      FlushBackendBuffer(r);
    }

    method FlushBackendBuffer(r: Reply)
      modifies this
      ensures View() == ProxyTransaction.FlushBackendBuffer(old(View()), r)
    {
      if r.backendBufferEmpty {
        StartTunnel();
      } else {
        StartMain(FlushDown, false);
      }
    }

    method OnBackendBufferFlushed(r: Reply)
      requires ops.main.FlushDown?
      modifies this
      ensures View() == ProxyTransaction.OnBackendBufferFlushed(Return(old(View()), MainChain), r)
    {
      ops := ops.(main := NoMain);
      FinishClientOperation();
      if life.deferred.Some? || life.completed {
        MaybeFinishDeferred();
        return;
      }
      if !r.ok {
        Fail(r.timeout);
        return;
      }
      StartTunnel();
    }

    method StartTunnel()
      modifies this
      ensures View() == ProxyTransaction.StartTunnel(old(View()))
    {
      ReadFromClient();
      ReadFromBackend();
    }

    method ReadFromClient()
      modifies this
      ensures View() == ProxyTransaction.ReadFromClient(old(View()))
    {
      Blame(!link.tunnelBuffers, NullBuffer);
      StartOut(TunnelIn, false);
    }

    method ReadFromBackend()
      modifies this
      ensures View() == ProxyTransaction.ReadFromBackend(old(View()))
    {
      Blame(!link.tunnelBuffers, NullBuffer);
      StartBack(TunnelRecv, true);
    }

    method StartOut(ghost op: OutOp, atBackend: bool)
      requires atBackend == !op.TunnelIn?
      modifies this
      ensures View() == ProxyTransaction.StartOut(old(View()), op)
    {
      Blame(!ops.out.NoOut?, Overlap);
      ops := ops.(out := op);
      if atBackend {
        StartBackendOperation();
      } else {
        StartClientOperation();
      }
    }

    method StartBack(ghost op: BackOp, atBackend: bool)
      requires atBackend == !op.TunnelDown?
      modifies this
      ensures View() == ProxyTransaction.StartBack(old(View()), op)
    {
      Blame(!ops.back.NoBack?, Overlap);
      ops := ops.(back := op);
      if atBackend {
        StartBackendOperation();
      } else {
        StartClientOperation();
      }
    }

    method OnClientTunnelRead(r: Reply)
      requires ops.out.TunnelIn?
      modifies this
      ensures View() == ProxyTransaction.OnClientTunnelRead(Return(old(View()), OutChain), r)
    {
      ops := ops.(out := NoOut);
      FinishClientOperation();
      if life.deferred.Some? || life.completed {
        MaybeFinishDeferred();
        return;
      }
      if !r.ok {
        FinishTunnel();
        return;
      }
      StartOut(TunnelUp(r.produced), true);
    }

    method OnBackendTunnelWritten(r: Reply)
      requires ops.out.TunnelUp?
      modifies this
      ensures View() == ProxyTransaction.OnBackendTunnelWritten(Return(old(View()), OutChain), r)
    {
      ops := ops.(out := NoOut);
      FinishBackendOperation();
      if life.deferred.Some? || backend.closeRequested || life.completed {
        MaybeFinishDeferred();
        return;
      }
      if !r.ok {
        FinishTunnel();
        return;
      }
      ReadFromClient();
    }

    method OnBackendTunnelRead(r: Reply)
      requires ops.back.TunnelRecv?
      modifies this
      ensures View() == ProxyTransaction.OnBackendTunnelRead(Return(old(View()), BackChain), r)
    {
      ops := ops.(back := NoBack);
      FinishBackendOperation();
      if life.deferred.Some? || backend.closeRequested || life.completed {
        MaybeFinishDeferred();
        return;
      }
      if !r.ok {
        FinishTunnel();
        return;
      }
      StartBack(TunnelDown(r.produced), false);
    }

    method OnClientTunnelWritten(r: Reply)
      requires ops.back.TunnelDown?
      modifies this
      ensures View() == ProxyTransaction.OnClientTunnelWritten(Return(old(View()), BackChain), r)
    {
      ops := ops.(back := NoBack);
      FinishClientOperation();
      if life.deferred.Some? || life.completed {
        MaybeFinishDeferred();
        return;
      }
      if !r.ok {
        FinishTunnel();
        return;
      }
      ReadFromBackend();
    }

    method Cancel()
      modifies this
      ensures View() == OnCancel(old(View()))
    {
      if life.completed {
        return;
      }
      life := life.(connecting := false);
      CloseBackend();
      FinishWhenIoQuiesced(if status == 0 then 499 else status, false);
    }

    // -------------------------------------------------------------- the runtime

    /** A handler of a chain throws before it starts anything. */
    method Throw(chain: Chain, outstanding: Ops)
      requires outstanding == ops && Outstanding(ops, errors, chain)
      modifies this
      ensures View() == Abort(Return(old(View()), chain))
    {
      EndOperation(chain, outstanding);
      AbortFromException();
    }

    method EndOperation(chain: Chain, outstanding: Ops)
      requires outstanding == ops && Outstanding(ops, errors, chain)
      modifies this
      ensures View() == Return(old(View()), chain)
    {
      match chain
      case PermitChain => ops := ops.(awaitPermit := false);
      case TimerChain => ops := ops.(timer := false);
      case ResolveChain => ops := ops.(resolving := false);
      case MainChain =>
        ops := ops.(main := NoMain);
        FinishOperation(AtBackend(outstanding.main));
      case UploadChain =>
        ops := ops.(upload := NoUpload);
        FinishOperation(!outstanding.upload.RecvBody?);
      case OutChain =>
        ops := ops.(out := NoOut);
        FinishOperation(!outstanding.out.TunnelIn?);
      case BackChain =>
        ops := ops.(back := NoBack);
        FinishOperation(!outstanding.back.TunnelDown?);
      case ErrorChain =>
        errors := errors - 1;
        FinishClientOperation();
    }

    method FinishOperation(atBackend: bool)
      modifies this
      ensures View() == if atBackend then FinishBackend(old(View())) else FinishClient(old(View()))
    {
      if atBackend {
        FinishBackendOperation();
      } else {
        FinishClientOperation();
      }
    }

    method CallMain(op: MainOp, r: Reply)
      requires op == ops.main && !op.NoMain?
      modifies this
      ensures View() == HandleMain(Return(old(View()), MainChain), op, r)
    {
      match op
      case Connect => OnConnect(r);
      case Handshake => OnTlsHandshake(r);
      case SendHeader => OnRequestHeaderWritten(r);
      case SendContinue => OnContinueWritten(r);
      case ReadHead => OnResponseHeader(r);
      case SendHead => OnHeaderWritten(r);
      case ReadBody => OnBodyRead(r);
      case SendBody => OnBodyWritten(r);
      case ReadUpgrade => OnUpgradeResponse(r);
      case SendUpgrade => OnUpgradeWritten(r);
      case FlushUp => OnClientBufferFlushed(r);
      case FlushDown => OnBackendBufferFlushed(r);
    }

    method CallUpload(op: UploadOp, r: Reply)
      requires op == ops.upload && !op.NoUpload?
      modifies this
      ensures View() == HandleUpload(Return(old(View()), UploadChain), op, r)
    {
      match op
      case RecvBody => OnRequestBodyRead(r);
      case SendChunk(bytes) => OnRequestBodyWritten(bytes, r);
      case SendLastChunk => OnRequestBodyFinished(r);
    }

    method CallTunnel(chain: Chain, outstanding: Ops, r: Reply)
      requires outstanding == ops && (chain.OutChain? || chain.BackChain?) && Outstanding(ops, errors, chain)
      modifies this
      ensures View() == Handle(old(View()), chain, r)
    {
      if chain.OutChain? {
        if outstanding.out.TunnelIn? {
          OnClientTunnelRead(r);
        } else {
          OnBackendTunnelWritten(r);
        }
      } else if outstanding.back.TunnelDown? {
        OnClientTunnelWritten(r);
      } else {
        OnBackendTunnelRead(r);
      }
    }

    method Call(chain: Chain, outstanding: Ops, r: Reply)
      requires outstanding == ops && Outstanding(ops, errors, chain)
      modifies this
      ensures View() == Handle(old(View()), chain, r)
    {
      match chain
      case PermitChain => OnBackendPermit(r);
      case TimerChain => OnConnectTimeout(r);
      case ResolveChain => OnResolved(r);
      case MainChain => CallMain(outstanding.main, r);
      case UploadChain => CallUpload(outstanding.upload, r);
      case OutChain => CallTunnel(chain, outstanding, r);
      case BackChain => CallTunnel(chain, outstanding, r);
      case ErrorChain => OnErrorWritten(r);
    }

    method Handler(e: Event, outstanding: Ops)
      requires Enabled(View(), e) && outstanding == ops
      modifies this
      ensures View() == Step(old(View()), e)
    {
      match e
      case Done(chain, r) => Call(chain, outstanding, r);
      case CancelRequested => Cancel();
      case Threw(chain) => Throw(chain, outstanding);
    }

    /**
     One event of the runtime. The invariant is kept unless an upload uses a stream that is gone; from the moment
     the end is decided nothing is started and each returning operation brings the completion closer by one; a
     completed transaction keeps its result and calls its completion handler no more.
     */
    method Dispatch(e: Event, outstanding: Ops)
      requires Valid() && Enabled(View(), e) && outstanding == ops
      modifies this
      ensures View() == Step(old(View()), e)
      ensures Valid() || (IsUpload(e) && !NothingToUpload(config) && faults == {NullStream})
      ensures old(life.deferred.Some?) ==> Valid() && Drained(old(View()), View(), One(e))
      ensures old(life.completed) ==> Valid() && SameEnd(old(View()), View()) && NothingStarted(old(View()), View())
    {
      ghost var before := View();
      StepOfObject(before, e);
      Handler(e, outstanding);
    }

    /**
     The events of a run, in any order the runtime may choose: the object goes through the states of the run, so
     what holds of every run holds of it.
     */
    method Drive(schedule: seq<Event>, outstanding: seq<Ops>, ghost ts: seq<Tx>)
      requires View() == Initial(config) && Run(ts, schedule, config)
      requires |outstanding| == |schedule| && forall i :: 0 <= i < |schedule| ==> outstanding[i] == ts[i].ops
      modifies this
      ensures View() == ts[|schedule|]
      ensures faults <= {NullStream} && (NothingToUpload(config) ==> faults == {})
      ensures faults == {} ==> Valid() && completions == (if life.completed then 1 else 0)
      ensures faults == {} && life.completed ==> clientPending == 0 && backendPending == 0
    {
      var n := 0;
      while n < |schedule|
        invariant n <= |schedule| && View() == ts[n]
      {
        RunGood(ts, schedule, config, n);
        Dispatch(schedule[n], outstanding[n]);
        n := n + 1;
      }
      RunGood(ts, schedule, config, n);
    }
  }

  lemma StepOfObject(t: Tx, e: Event)
    requires Inv(t) && Enabled(t, e)
    ensures Inv(Step(t, e)) || (IsUpload(e) && !NothingToUpload(t.config) && Step(t, e).faults == {NullStream})
    ensures t.life.deferred.Some? ==> Inv(Step(t, e)) && Drained(t, Step(t, e), One(e))
    ensures t.life.completed ==> Inv(Step(t, e)) && SameEnd(t, Step(t, e)) && NothingStarted(t, Step(t, e))
  {
    StepKeeps(t, e);
    if !IsUpload(e) {
      StepKeepsInv(t, e);
    }
    if t.life.deferred.Some? {
      DecidedStep(t, e);
    }
    if t.life.completed {
      CompletedStep(t, e);
    }
  }
}
