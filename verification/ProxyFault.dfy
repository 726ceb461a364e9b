/**
 An error response does not stop an upload that is in progress. For every configuration with a body to upload a run
 is constructed that uses the missing stream, and one that writes two error responses at once; so the transactions
 that never do either are exactly those without an upload.
 */
module ProxyFault {
  import opened ProxyTransaction
  import opened ProxyInvariant
  import opened ProxyTheorems

  ghost predicate Reachable(c: Config, t: Tx) {
    exists ts, events :: Run(ts, events, c) && t == ts[|ts| - 1]
  }

  lemma InitialReachable(c: Config)
    ensures Reachable(c, Initial(c))
  {
    var ts, events: seq<Event> := [Initial(c)], [];
    assert Run(ts, events, c);
  }

  lemma StepReachable(c: Config, t: Tx, e: Event)
    requires Reachable(c, t) && Enabled(t, e)
    ensures Reachable(c, Step(t, e))
  {
    var ts, events :| Run(ts, events, c) && t == ts[|ts| - 1];
    var s := Step(t, e);
    RunExtends(ts, events, c, e, s);
  }

  lemma RunExtends(ts: seq<Tx>, events: seq<Event>, c: Config, e: Event, s: Tx)
    requires Run(ts, events, c) && Enabled(ts[|ts| - 1], e) && s == Step(ts[|ts| - 1], e)
    ensures Run(ts + [s], events + [e], c) && (ts + [s])[|ts + [s]| - 1] == s
  {
    var us, es := ts + [s], events + [e];
    forall i | 0 <= i < |es| ensures Enabled(us[i], es[i]) && us[i + 1] == Step(us[i], es[i]) {
      StepOfExtended(ts, events, c, e, s, i);
    }
  }

  lemma StepOfExtended(ts: seq<Tx>, events: seq<Event>, c: Config, e: Event, s: Tx, i: nat)
    requires Run(ts, events, c) && Enabled(ts[|ts| - 1], e) && s == Step(ts[|ts| - 1], e) && i <= |events|
    ensures var us, es := ts + [s], events + [e]; Enabled(us[i], es[i]) && us[i + 1] == Step(us[i], es[i])
  {
  }

  /** A reply that lets every callback go on, with a byte of the body. */
  predicate Success(r: Reply) {
    r.ok && r.memory && !r.pooled && r.sniAccepted && !r.done && r.produced > 0
  }

  predicate GoingOn(t: Tx) { Undecided(t.life) && t.errors == 0 && !NothingToUpload(t.config) }

  lemma PermitGoes(t: Tx, r: Reply)
    requires Inv(t) && GoingOn(t) && t.ops.awaitPermit && Success(r)
    ensures var s := OnPermit(Return(t, PermitChain), r); GoingOn(s) && s.life.connecting && s.ops.resolving
  {
  }

  lemma ResolveGoes(t: Tx, r: Reply)
    requires Inv(t) && GoingOn(t) && t.life.connecting && t.ops.resolving && Success(r)
    ensures var s := OnResolved(Return(t, ResolveChain), r); GoingOn(s) && s.ops.main.Connect?
  {
  }

  lemma ConnectGoes(t: Tx, r: Reply)
    requires Inv(t) && GoingOn(t) && t.ops.main.Connect? && Success(r)
    ensures var s := OnConnect(Return(t, MainChain), r);
      GoingOn(s) && (if t.config.https then s.ops.main.Handshake? else s.ops.main.SendHeader?)
  {
    MainGoesOn(t);
  }

  lemma HandshakeGoes(t: Tx, r: Reply)
    requires Inv(t) && GoingOn(t) && t.ops.main.Handshake? && Success(r)
    ensures var s := OnHandshake(Return(t, MainChain), r); GoingOn(s) && s.ops.main.SendHeader?
  {
    MainGoesOn(t);
  }

  /** Both chains of an upload are running. */
  predicate AtUpload(t: Tx) { GoingOn(t) && t.ops.main.ReadHead? && t.ops.upload.RecvBody? }

  lemma RequestGoes(d: Tx)
    requires Core(d) && Free(d) && Fresh(d) && GoingOn(d)
    ensures AtUpload(ReadRequestBodyChunk(ReadResponseHeader(d)))
  {
  }

  lemma HeaderGoes(t: Tx, r: Reply)
    requires Inv(t) && GoingOn(t) && t.ops.main.SendHeader? && Success(r)
    ensures var s := OnRequestHeaderWritten(Return(t, MainChain), r);
      if t.config.expectContinue then GoingOn(s) && s.ops.main.SendContinue? else AtUpload(s)
  {
    MainGoesOn(t);
    var d := Return(t, MainChain);
    var written := d.(link := d.link.(fromPool := false));
    assert Core(written);
    RequestGoes(written);
  }

  lemma ContinueGoes(t: Tx, r: Reply)
    requires Inv(t) && GoingOn(t) && t.ops.main.SendContinue? && Success(r)
    ensures AtUpload(OnContinueWritten(Return(t, MainChain), r))
  {
    MainGoesOn(t);
    RequestGoes(Return(t, MainChain));
  }

  /** The read of the response header fails: the stream is gone and the upload goes on without it. */
  predicate Orphaned(t: Tx) {
    Undecided(t.life) && t.errors == 1 && t.ops.upload.RecvBody? && !t.backend.stream && !t.up.stop
  }

  lemma HeadFails(t: Tx, r: Reply)
    requires Inv(t) && AtUpload(t) && !r.ok
    ensures Orphaned(OnResponseHeader(Return(t, MainChain), r))
  {
    MainGoesOn(t);
  }

  lemma UploadFaults(t: Tx, r: Reply)
    requires Inv(t) && Orphaned(t) && Success(r)
    ensures OnRequestBodyRead(Return(t, UploadChain), r).faults == {NullStream}
  {
  }

  lemma SecondError(t: Tx, r: Reply)
    requires Inv(t) && Orphaned(t) && !r.ok
    ensures OnRequestBodyRead(Return(t, UploadChain), r).errors == 2
  {
  }

  // ---------------------------------------------------------------- the run

  /** A transaction of configuration `c` that some run reaches without a fault. */
  ghost predicate Reached(c: Config, t: Tx) { Reachable(c, t) && Inv(t) && t.config == c }

  lemma Next(c: Config, t: Tx, chain: Chain, r: Reply) returns (s: Tx)
    requires Reached(c, t) && Enabled(t, Done(chain, r)) && !chain.UploadChain?
    ensures s == Handle(t, chain, r) && Reached(c, s)
  {
    s := Handle(t, chain, r);
    StepReachable(c, t, Done(chain, r));
    StepKeepsInv(t, Done(chain, r));
  }

  lemma ReachStart(c: Config) returns (t: Tx)
    requires !NothingToUpload(c)
    ensures Reached(c, t) && GoingOn(t) && t.ops.awaitPermit
  {
    InitialReachable(c);
    Starts(c);
    t := Initial(c);
  }

  lemma ReachResolve(c: Config, r: Reply) returns (t: Tx)
    requires !NothingToUpload(c) && Success(r)
    ensures Reached(c, t) && GoingOn(t) && t.life.connecting && t.ops.resolving
  {
    t := ReachStart(c);
    PermitGoes(t, r);
    t := Next(c, t, PermitChain, r);
  }

  lemma ReachConnect(c: Config, r: Reply) returns (t: Tx)
    requires !NothingToUpload(c) && Success(r)
    ensures Reached(c, t) && GoingOn(t) && t.ops.main.Connect?
  {
    t := ReachResolve(c, r);
    ResolveGoes(t, r);
    t := Next(c, t, ResolveChain, r);
  }

  lemma ReachHeader(c: Config, r: Reply) returns (t: Tx)
    requires !NothingToUpload(c) && Success(r)
    ensures Reached(c, t) && GoingOn(t) && t.ops.main.SendHeader?
  {
    t := ReachConnect(c, r);
    ConnectGoes(t, r);
    t := Next(c, t, MainChain, r);
    if c.https {
      HandshakeGoes(t, r);
      t := Next(c, t, MainChain, r);
    }
  }

  lemma ReachUpload(c: Config, r: Reply) returns (t: Tx)
    requires !NothingToUpload(c) && Success(r)
    ensures Reached(c, t) && AtUpload(t)
  {
    t := ReachHeader(c, r);
    HeaderGoes(t, r);
    t := Next(c, t, MainChain, r);
    if c.expectContinue {
      ContinueGoes(t, r);
      t := Next(c, t, MainChain, r);
    }
  }

  lemma Replies() returns (good: Reply, bad: Reply)
    ensures Success(good) && !bad.ok && !bad.done
  {
    good := Reply(true, false, false, 1, false, false, 200, true, false, false, true, false, true, true, true, true);
    bad := good.(ok := false);
  }

  lemma ReachOrphaned(c: Config, good: Reply, bad: Reply) returns (t: Tx)
    requires !NothingToUpload(c) && Success(good) && !bad.ok
    ensures Reached(c, t) && Orphaned(t)
  {
    t := ReachUpload(c, good);
    HeadFails(t, bad);
    t := Next(c, t, MainChain, bad);
  }

  /** Every configuration with a body to upload has a run that uses the stream after it was destroyed. */
  lemma UploadCanFault(c: Config)
    requires !NothingToUpload(c)
    ensures exists t :: Reachable(c, t) && NullStream in t.faults
  {
    var good, bad := Replies();
    var t := ReachOrphaned(c, good, bad);
    UploadFaults(t, good);
    StepReachable(c, t, Done(UploadChain, good));
  }

  /** And one that writes two error responses to the client at once. */
  lemma UploadCanWriteTwice(c: Config)
    requires !NothingToUpload(c)
    ensures exists t :: Reachable(c, t) && t.faults == {} && ClientWriters(t.ops, t.errors) > 1
  {
    var good, bad := Replies();
    var t := ReachOrphaned(c, good, bad);
    SecondError(t, bad);
    StepReachable(c, t, Done(UploadChain, bad));
    var s := OnRequestBodyRead(Return(t, UploadChain), bad);
    UploadKeeps(t, bad);
  }

  lemma ReachableIsGood(c: Config, t: Tx)
    requires Reachable(c, t)
    ensures Good(t) && t.config == c
  {
    var ts, events :| Run(ts, events, c) && t == ts[|ts| - 1];
    RunGood(ts, events, c, |ts| - 1);
  }

  /** The stream is present at every use, in every run, exactly for the transactions without an upload. */
  lemma FaultFreeIff(c: Config)
    ensures (forall t :: Reachable(c, t) ==> t.faults == {}) <==> c.websocket || c.bodyComplete
  {
    if NothingToUpload(c) {
      forall t | Reachable(c, t) ensures t.faults == {} {
        ReachableIsGood(c, t);
      }
    } else {
      UploadCanFault(c);
    }
  }

  /** One operation at a time writes to the client, in every run, exactly for the transactions without an upload. */
  lemma OneClientWriterIff(c: Config)
    ensures (forall t :: Reachable(c, t) && t.faults == {} ==> ClientWriters(t.ops, t.errors) <= 1)
            <==> c.websocket || c.bodyComplete
  {
    if NothingToUpload(c) {
      forall t | Reachable(c, t) && t.faults == {} ensures ClientWriters(t.ops, t.errors) <= 1 {
        ReachableIsGood(c, t);
        Directions(t);
      }
    } else {
      UploadCanWriteTwice(c);
    }
  }
}
