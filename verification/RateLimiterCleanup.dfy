/**
 The periodic cleanup cannot be observed while all clients fit in the map, and the list is in the order of the last
 checks.
 */
module RateLimiterCleanup {
  import opened Options
  import opened RateLimiter
  import opened RateLimiterRuns

  // ---------------------------------------------------------------- a limiter that never cleans up

  function PlainCheck(l: Limits, s: State, client: Client, now: real): (State, Option<nat>)
    requires Accepted(l)
  {
    if !l.enabled then (s, None) else Admit(l, Counted(s), client, now)
  }

  predicate PlainStepAt(l: Limits, tr: Trace, i: nat)
    requires Accepted(l) && i < |tr.calls| && |tr.states| == |tr.calls| + 1 && |tr.answers| == |tr.calls|
  {
    (tr.states[i + 1], tr.answers[i]) == PlainCheck(l, tr.states[i], tr.calls[i].client, tr.calls[i].now)
  }

  ghost predicate PlainRun(l: Limits, tr: Trace)
    requires Accepted(l)
  {
    && InOrder(tr.calls) && |tr.states| == |tr.calls| + 1 && |tr.answers| == |tr.calls|
    && tr.states[0] == EMPTY
    && forall i {:trigger PlainStepAt(l, tr, i)} :: 0 <= i < |tr.calls| ==> PlainStepAt(l, tr, i)
  }

  /** `a` is `b` without some of its stale entries. */
  ghost predicate Shadows(l: Limits, a: State, b: State, now: real) {
    && a.count == b.count
    && (forall k :: k in a.entries ==> k in b.entries && a.entries[k] == b.entries[k])
    && (forall k :: k in b.entries && k !in a.entries ==> Stale(l, b.entries[k], now))
  }

  lemma ShadowsLater(l: Limits, a: State, b: State, now: real, later: real)
    requires Shadows(l, a, b, now) && now <= later
    ensures Shadows(l, a, b, later)
  {
  }

  lemma ShadowsCleaned(l: Limits, a: State, b: State, now: real)
    requires Shadows(l, a, b, now)
    ensures Shadows(l, Cleared(l, a, now), Counted(b), now)
  {
  }

  predicate Fits(s: State, client: Client) { client in s.entries || |s.entries| < MAX_ENTRIES }

  /** A client whose entry was dropped is answered as if it had been kept, and gets the same new entry. */
  lemma ShadowsAdmit(l: Limits, a: State, b: State, client: Client, now: real)
    requires Accepted(l) && Paced(l) && l.enabled && EntriesOk(l, b, now)
    requires Shadows(l, a, b, now) && Fits(a, client) && Fits(b, client)
    ensures var x, y := Admit(l, a, client, now), Admit(l, b, client, now);
      x.1 == y.1 && Shadows(l, x.0, y.0, now)
  {
    if client in b.entries && client !in a.entries {
      StaleIsNew(l, b.entries[client], now);
    }
  }

  lemma ShadowsStep(l: Limits, a: State, b: State, client: Client, now: real)
    requires Accepted(l) && Paced(l) && EntriesOk(l, b, now)
    requires Shadows(l, a, b, now) && (l.enabled ==> Fits(Cleared(l, a, now), client) && Fits(b, client))
    ensures var x, y := Check(l, a, client, now), PlainCheck(l, b, client, now);
      x.1 == y.1 && Shadows(l, x.0, y.0, now)
  {
    if l.enabled {
      ShadowsCleaned(l, a, b, now);
      ShadowsAdmit(l, Cleared(l, a, now), Counted(b), client, now);
    }
  }

  // ---------------------------------------------------------------- how many entries there can be

  function Clients(calls: seq<Call>, m: nat): set<Client>
    requires m <= |calls|
  {
    if m == 0 then {} else Clients(calls, m - 1) + {calls[m - 1].client}
  }

  lemma {:induction false} ClientsGrow(calls: seq<Call>, m: nat, n: nat)
    requires m <= n <= |calls|
    ensures Clients(calls, m) <= Clients(calls, n)
  {
    if m < n {
      ClientsGrow(calls, m, n - 1);
    }
  }

  lemma AdmitKeys(l: Limits, s: State, client: Client, now: real)
    requires Accepted(l) && l.enabled
    ensures Admit(l, s, client, now).0.entries.Keys <= s.entries.Keys + {client}
  {
  }

  lemma {:induction false} KnownClients(l: Limits, tr: Trace, m: nat)
    requires Accepted(l) && (Run(l, tr) || PlainRun(l, tr)) && m < |tr.states|
    ensures tr.states[m].entries.Keys <= Clients(tr.calls, m)
  {
    if m > 0 {
      KnownClients(l, tr, m - 1);
      var s, call := tr.states[m - 1], tr.calls[m - 1];
      if l.enabled {
        AdmitKeys(l, Cleared(l, s, call.now), call.client, call.now);
        AdmitKeys(l, Counted(s), call.client, call.now);
      }
      assert Run(l, tr) ==> StepAt(l, tr, m - 1);
      assert PlainRun(l, tr) ==> PlainStepAt(l, tr, m - 1);
    }
  }

  lemma SmallerSet(a: set<Client>, b: set<Client>)
    requires a <= b
    ensures |a| <= |b|
  {
    assert b == a + (b - a);
    assert |b| == |a| + |b - a|;
  }

  lemma EntriesFit(entries: map<Client, Entry>, calls: seq<Call>, m: nat)
    requires m < |calls| && entries.Keys <= Clients(calls, m) && |Clients(calls, |calls|)| <= MAX_ENTRIES
    ensures calls[m].client in entries || |entries| < MAX_ENTRIES
  {
    var client := calls[m].client;
    if client !in entries {
      ClientsGrow(calls, m + 1, |calls|);
      SmallerSet(entries.Keys + {client}, Clients(calls, |calls|));
      assert |entries.Keys + {client}| == |entries.Keys| + 1;
      assert |entries| == |entries.Keys|;
    }
  }

  lemma {:induction false} PlainStatesOk(l: Limits, tr: Trace, m: nat)
    requires Accepted(l) && Paced(l) && PlainRun(l, tr) && m < |tr.states|
    ensures EntriesOk(l, tr.states[m], Clock(tr.calls, m))
  {
    if m > 0 {
      var s, call := tr.states[m - 1], tr.calls[m - 1];
      PlainStatesOk(l, tr, m - 1);
      assert PlainStepAt(l, tr, m - 1);
      assert 0.0 <= Clock(tr.calls, m - 1) <= call.now;
      if l.enabled {
        AdmitKeeps(l, Counted(s), call.client, call.now);
      }
    }
  }

  lemma AllFit(l: Limits, tr: Trace, m: nat)
    requires Accepted(l) && (Run(l, tr) || PlainRun(l, tr)) && m < |tr.calls|
    requires |Clients(tr.calls, |tr.calls|)| <= MAX_ENTRIES
    ensures Fits(Cleared(l, tr.states[m], tr.calls[m].now), tr.calls[m].client)
    ensures Fits(tr.states[m], tr.calls[m].client)
  {
    KnownClients(l, tr, m);
    EntriesFit(Cleared(l, tr.states[m], tr.calls[m].now).entries, tr.calls, m);
    EntriesFit(tr.states[m].entries, tr.calls, m);
  }

  lemma {:induction false} ShadowsAt(l: Limits, tr: Trace, plain: Trace, m: nat)
    requires Accepted(l) && Paced(l) && Run(l, tr) && PlainRun(l, plain) && tr.calls == plain.calls
    requires |Clients(tr.calls, |tr.calls|)| <= MAX_ENTRIES && m < |tr.states|
    ensures Shadows(l, tr.states[m], plain.states[m], Clock(tr.calls, m))
    ensures m > 0 ==> tr.answers[m - 1] == plain.answers[m - 1]
  {
    if m > 0 {
      var a, b, call := tr.states[m - 1], plain.states[m - 1], tr.calls[m - 1];
      ShadowsAt(l, tr, plain, m - 1);
      var before := Clock(tr.calls, m - 1);
      assert 0.0 <= before <= call.now;
      ShadowsLater(l, a, b, before, call.now);
      PlainStatesOk(l, plain, m - 1);
      AllFit(l, tr, m - 1);
      AllFit(l, plain, m - 1);
      assert StepAt(l, tr, m - 1) && PlainStepAt(l, plain, m - 1);
      ShadowsStep(l, a, b, call.client, call.now);
    }
  }

  /** With at most 65536 clients, every answer is that of a limiter that never cleans up. */
  lemma CleanupIsInvisible(l: Limits, tr: Trace, plain: Trace)
    requires Accepted(l) && Paced(l) && Run(l, tr) && PlainRun(l, plain) && tr.calls == plain.calls
    requires |Clients(tr.calls, |tr.calls|)| <= MAX_ENTRIES
    ensures tr.answers == plain.answers
  {
    forall m | 0 <= m < |tr.answers| ensures tr.answers[m] == plain.answers[m] {
      ShadowsAt(l, tr, plain, m + 1);
    }
  }

  // ---------------------------------------------------------------- the order of the list

  /** The number of the last of the first `m` checks that was for `k`, or -1. */
  function LastCall(calls: seq<Call>, m: nat, k: Client): int
    requires m <= |calls|
  {
    if m == 0 then -1 else if calls[m - 1].client == k then m - 1 else LastCall(calls, m - 1, k)
  }

  lemma {:induction false} LastCallBefore(calls: seq<Call>, m: nat, k: Client)
    requires m <= |calls|
    ensures LastCall(calls, m, k) < m
  {
    if m > 0 {
      LastCallBefore(calls, m - 1, k);
    }
  }

  /** From the client checked longest ago to the one checked last. */
  ghost predicate InCheckOrder(q: seq<Client>, calls: seq<Call>, m: nat)
    requires m <= |calls|
  {
    q == [] ||
    ((forall x :: x in q[1..] ==> LastCall(calls, m, q[0]) < LastCall(calls, m, x)) && InCheckOrder(q[1..], calls, m))
  }

  lemma {:induction false} RemoveInOrder(q: seq<Client>, calls: seq<Call>, m: nat, k: Client)
    requires m <= |calls| && InCheckOrder(q, calls, m)
    ensures InCheckOrder(Remove(q, k), calls, m)
  {
    if q != [] && q[0] != k {
      RemoveInOrder(q[1..], calls, m, k);
      assert Remove(q, k)[1..] == Remove(q[1..], k);
    }
  }

  lemma {:induction false} KeepInOrder(q: seq<Client>, calls: seq<Call>, m: nat, kept: set<Client>)
    requires m <= |calls| && InCheckOrder(q, calls, m)
    ensures InCheckOrder(Keep(q, kept), calls, m)
  {
    if q != [] {
      KeepInOrder(q[1..], calls, m, kept);
      assert q[0] in kept ==> Keep(q, kept)[1..] == Keep(q[1..], kept);
    }
  }

  /** The client of check `m` goes to the end. */
  lemma {:induction false} AppendInOrder(q: seq<Client>, calls: seq<Call>, m: nat)
    requires m < |calls| && InCheckOrder(q, calls, m) && calls[m].client !in q
    ensures InCheckOrder(q + [calls[m].client], calls, m + 1)
  {
    var k := calls[m].client;
    var all := q + [k];
    assert LastCall(calls, m + 1, k) == m;
    if q == [] {
      assert all[1..] == [] && InCheckOrder(all[1..], calls, m + 1);
    } else {
      AppendInOrder(q[1..], calls, m);
      assert all[1..] == q[1..] + [k];
      LastCallBefore(calls, m, q[0]);
      forall x | x in all[1..] ensures LastCall(calls, m + 1, q[0]) < LastCall(calls, m + 1, x) {
        assert x != k ==> x in q[1..] && x in q;
      }
    }
  }

  lemma AdmitInOrder(l: Limits, s: State, calls: seq<Call>, m: nat)
    requires Accepted(l) && l.enabled && m < |calls| && InCheckOrder(s.lru, calls, m) && Listed(s)
    ensures InCheckOrder(Admit(l, s, calls[m].client, calls[m].now).0.lru, calls, m + 1)
  {
    var k := calls[m].client;
    if k in s.entries {
      RemoveInOrder(s.lru, calls, m, k);
      RemoveKeepsOthers(s.lru, k);
      AppendInOrder(Remove(s.lru, k), calls, m);
    } else {
      var r := if |s.entries| >= MAX_ENTRIES then EvictOldest(s) else s;
      EvictKeepsListed(s);
      AppendInOrder(r.lru, calls, m);
    }
  }

  lemma CheckInOrder(l: Limits, s: State, calls: seq<Call>, m: nat)
    requires Accepted(l) && l.enabled && m < |calls| && InCheckOrder(s.lru, calls, m) && Listed(s)
    ensures InCheckOrder(Check(l, s, calls[m].client, calls[m].now).0.lru, calls, m + 1)
  {
    var now := calls[m].now;
    CleanupKeepsListed(l, Counted(s), now);
    KeepInOrder(s.lru, calls, m, Fresh(l, s.entries, now).Keys);
    AdmitInOrder(l, Cleared(l, s, now), calls, m);
  }

  /** In every state the list holds the clients of the map, each once, in the order of their last checks. */
  lemma {:induction false} ListIsInCheckOrder(l: Limits, tr: Trace, m: nat)
    requires Accepted(l) && Paced(l) && Run(l, tr) && m < |tr.states| && l.enabled
    ensures Listed(tr.states[m]) && InCheckOrder(tr.states[m].lru, tr.calls, m)
  {
    StatesOk(l, tr, m);
    if m > 0 {
      ListIsInCheckOrder(l, tr, m - 1);
      assert StepAt(l, tr, m - 1);
      CheckInOrder(l, tr.states[m - 1], tr.calls, m - 1);
    }
  }

  lemma EvictedIsFirst(l: Limits, r: State, client: Client, now: real, k: Client)
    requires Accepted(l) && l.enabled && Listed(r) && k in r.entries && k !in Admit(l, r, client, now).0.entries
    ensures |r.entries| >= MAX_ENTRIES && r.lru != [] && r.lru[0] == k
    ensures forall x :: x in Admit(l, r, client, now).0.entries && x != client ==> x in r.lru[1..]
  {
    forall x | x in Admit(l, r, client, now).0.entries && x != client ensures x in r.lru[1..] {
      assert x in r.entries && x in r.lru && r.lru == [k] + r.lru[1..];
    }
  }

  /** Who is gone after a check, other than by the cleanup, is the one checked longest ago, and the map was full. */
  lemma EvictsTheOldest(l: Limits, tr: Trace, m: nat, k: Client)
    requires Accepted(l) && Paced(l) && l.enabled && Run(l, tr) && m < |tr.calls|
    requires k in tr.states[m].entries && k !in tr.states[m + 1].entries
    requires !Stale(l, tr.states[m].entries[k], tr.calls[m].now)
    ensures |Cleared(l, tr.states[m], tr.calls[m].now).entries| >= MAX_ENTRIES
    ensures forall x :: x in tr.states[m + 1].entries && x != tr.calls[m].client ==>
      LastCall(tr.calls, m, k) < LastCall(tr.calls, m, x)
  {
    var s, now := tr.states[m], tr.calls[m].now;
    ListIsInCheckOrder(l, tr, m);
    assert StepAt(l, tr, m);
    var r := Cleared(l, s, now);
    assert k in r.entries;
    CleanupKeepsListed(l, Counted(s), now);
    KeepInOrder(s.lru, tr.calls, m, Fresh(l, s.entries, now).Keys);
    EvictedIsFirst(l, r, tr.calls[m].client, now, k);
  }

  // ---------------------------------------------------------------- how large the map becomes

  lemma AdmitStaysSmall(l: Limits, s: State, client: Client, now: real)
    requires Accepted(l) && l.enabled && Listed(s) && |s.entries| <= MAX_ENTRIES
    ensures |Admit(l, s, client, now).0.entries| <= MAX_ENTRIES
  {
    var after := Admit(l, s, client, now).0.entries;
    if client in s.entries {
      assert after.Keys == s.entries.Keys;
      SmallerMap(after, s.entries);
    } else {
      var r := if |s.entries| >= MAX_ENTRIES then EvictOldest(s) else s;
      if |s.entries| >= MAX_ENTRIES {
        EvictMakesRoom(s);
      }
      OneMore(r.entries, client, NewEntry(l, now));
    }
  }

  lemma SmallerMap(a: map<Client, Entry>, b: map<Client, Entry>)
    requires a.Keys <= b.Keys
    ensures |a| <= |b|
  {
    SmallerSet(a.Keys, b.Keys);
    assert |a| == |a.Keys| && |b| == |b.Keys|;
  }

  lemma OneMore(entries: map<Client, Entry>, client: Client, e: Entry)
    ensures |entries[client := e]| <= |entries| + 1
  {
    assert entries[client := e].Keys == entries.Keys + {client};
    assert |entries.Keys + {client}| <= |entries.Keys| + 1;
    assert |entries[client := e]| == |entries[client := e].Keys| && |entries| == |entries.Keys|;
  }

  lemma EvictMakesRoom(s: State)
    requires Listed(s) && |s.entries| >= MAX_ENTRIES
    ensures |EvictOldest(s).entries| == |s.entries| - 1
  {
    assert |s.entries| == |s.entries.Keys|;
    assert s.entries.Keys != {};
    var known: Client :| known in s.entries;
    assert known in s.lru;
    var oldest, left := s.lru[0], s.entries - {s.lru[0]};
    assert oldest in s.entries && left.Keys == s.entries.Keys - {oldest};
    assert |left| == |left.Keys|;
  }

  /** In every run the map never has more than 65536 entries. */
  lemma {:induction false} MapStaysSmall(l: Limits, tr: Trace, m: nat)
    requires Accepted(l) && Paced(l) && l.enabled && Run(l, tr) && m < |tr.states|
    ensures |tr.states[m].entries| <= 65536 && tr.states[m].count == m
  {
    if m > 0 {
      var s, call := tr.states[m - 1], tr.calls[m - 1];
      MapStaysSmall(l, tr, m - 1);
      StatesOk(l, tr, m - 1);
      assert StepAt(l, tr, m - 1);
      CleanupKeepsListed(l, Counted(s), call.now);
      SmallerMap(Cleared(l, s, call.now).entries, s.entries);
      AdmitStaysSmall(l, Cleared(l, s, call.now), call.client, call.now);
    }
  }

  /** After every 1024th check only its client and clients that are banned or came not long ago have an entry. */
  lemma CleanupIsRegular(l: Limits, tr: Trace, m: nat, k: Client)
    requires Accepted(l) && Paced(l) && l.enabled && Run(l, tr) && m < |tr.calls| && (m + 1) % 1024 == 0
    requires k in tr.states[m + 1].entries && k != tr.calls[m].client
    ensures var e, now := tr.states[m + 1].entries[k], tr.calls[m].now;
      e.banned > now || now - e.updated <= (l.window + l.ban + 1) as real
  {
    MapStaysSmall(l, tr, m);
    assert StepAt(l, tr, m);
    CleanedIsFresh(l, tr.states[m], tr.calls[m].client, tr.calls[m].now, k);
  }

  lemma CleanedIsFresh(l: Limits, s: State, client: Client, now: real, k: Client)
    requires Accepted(l) && l.enabled && (s.count + 1) % 1024 == 0
    requires k in Check(l, s, client, now).0.entries && k != client
    ensures !Stale(l, Check(l, s, client, now).0.entries[k], now)
  {
    assert k in Cleared(l, s, now).entries;
  }
}
