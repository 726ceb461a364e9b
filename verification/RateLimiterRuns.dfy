/**
 How many requests the rate limiter admits, over all its runs. A run is a sequence of checks with a clock that never
 goes back. What its cleanup does is in RateLimiterCleanup.dfy, what its answers promise in RateLimiterRetry.dfy.
 */
module RateLimiterRuns {
  import opened Options
  import opened RateLimiter

  datatype Call = Call(client: Client, now: real)

  predicate InOrder(calls: seq<Call>) {
    forall i, j :: 0 <= i <= j < |calls| ==> 0.0 <= calls[i].now <= calls[j].now
  }

  /** The checks of a run, the states before and after them, and their answers. */
  datatype Trace = Trace(calls: seq<Call>, states: seq<State>, answers: seq<Option<nat>>)

  predicate StepAt(l: Limits, tr: Trace, i: nat)
    requires Accepted(l) && i < |tr.calls| && |tr.states| == |tr.calls| + 1 && |tr.answers| == |tr.calls|
  {
    (tr.states[i + 1], tr.answers[i]) == Check(l, tr.states[i], tr.calls[i].client, tr.calls[i].now)
  }

  ghost predicate Run(l: Limits, tr: Trace)
    requires Accepted(l)
  {
    && InOrder(tr.calls) && |tr.states| == |tr.calls| + 1 && |tr.answers| == |tr.calls|
    && tr.states[0] == EMPTY
    && forall i {:trigger StepAt(l, tr, i)} :: 0 <= i < |tr.calls| ==> StepAt(l, tr, i)
  }

  // ---------------------------------------------------------------- entries

  predicate EntryOk(l: Limits, e: Entry, now: real) {
    && 0.0 <= e.tokens <= l.maxRequests as real && 0.0 <= e.updated <= now
    && (e.banned != 0.0 ==> l.ban > 0 && e.banned == e.updated + l.ban as real)
  }

  predicate EntriesOk(l: Limits, s: State, now: real) {
    forall k :: k in s.entries ==> EntryOk(l, s.entries[k], now)
  }

  // What refilling amounts to: these four facts are all that the proofs below use of it.

  lemma RefillAdds(l: Limits, x: real, y: real, sum: real)
    requires Paced(l) && l.window > 0 && sum == x + y
    ensures l.refill(sum) == l.refill(x) + l.refill(y)
  {
    assert PacedAt(l, x) && PacedAt(l, y) && PacedAt(l, sum);
  }

  lemma RefillNonNegative(l: Limits, x: real)
    requires Paced(l) && l.window > 0 && x >= 0.0
    ensures l.refill(x) >= 0.0
  {
    assert PacedAt(l, x);
    var rate := l.maxRequests as real / l.window as real;
    assert rate >= 0.0;
    assert x * rate >= 0.0;
  }

  lemma RefillGrows(l: Limits, x: real, y: real)
    requires Paced(l) && l.window > 0 && x <= y
    ensures l.refill(x) <= l.refill(y)
  {
    RefillAdds(l, x, y - x, y);
    RefillNonNegative(l, y - x);
  }

  lemma RefillWindow(l: Limits)
    requires Paced(l) && l.window > 0
    ensures l.refill(l.window as real) == l.maxRequests as real && l.refill(0.0) == 0.0
  {
    assert PacedAt(l, l.window as real) && PacedAt(l, 0.0);
  }

  lemma RefillKeeps(l: Limits, e: Entry, now: real)
    requires Accepted(l) && Paced(l) && l.enabled && EntryOk(l, e, now)
    ensures var f := Refilled(l, e, now); EntryOk(l, f.(banned := 0.0), now) && f.tokens >= e.tokens
  {
    RefillNonNegative(l, now - e.updated);
  }

  lemma TakeKeeps(l: Limits, e: Entry, now: real)
    requires Accepted(l) && Paced(l) && l.enabled && EntryOk(l, e, now)
    ensures EntryOk(l, Take(l, e, now).0, now)
  {
    if e.banned <= now {
      RefillKeeps(l, Unbanned(l, e, now), now);
    }
  }

  lemma EntryLater(l: Limits, e: Entry, now: real, later: real)
    requires EntryOk(l, e, now) && now <= later
    ensures EntryOk(l, e, later)
  {
  }

  lemma StaleIsLong(l: Limits, e: Entry, now: real)
    requires Accepted(l) && Paced(l) && l.enabled && Stale(l, e, now)
    ensures l.refill(now - e.updated) >= l.maxRequests as real
  {
    RefillWindow(l);
    assert (l.window + l.ban + 1) as real == l.window as real + l.ban as real + 1.0;
    RefillGrows(l, l.window as real, now - e.updated);
  }

  /** What is entered for a client that is not known is what a stale entry would have become. */
  lemma StaleIsNew(l: Limits, e: Entry, now: real)
    requires Accepted(l) && Paced(l) && l.enabled && EntryOk(l, e, now) && Stale(l, e, now)
    ensures Take(l, e, now) == (NewEntry(l, now), None)
  {
    StaleIsLong(l, e, now);
    RefillWindow(l);
    assert now - now == 0.0;
  }

  // ---------------------------------------------------------------- how many requests are admitted

  /** How many requests could be admitted at `t`, as far as the bound is concerned. */
  function LevelOf(l: Limits, e: Entry, t: real): real {
    var full := l.maxRequests as real;
    if e.banned == 0.0 then Min(full, e.tokens + l.refill(t - e.updated))
    else if e.banned <= t then full
    else Left(full - l.refill(e.banned - t))
  }

  function Left(x: real): real { if x < 0.0 then 0.0 else x }

  function Level(l: Limits, s: State, k: Client, t: real): real
  {
    if k in s.entries then LevelOf(l, s.entries[k], t) else l.maxRequests as real
  }

  lemma LevelGrows(l: Limits, e: Entry, t: real, later: real)
    requires Accepted(l) && Paced(l) && l.enabled && t <= later
    ensures LevelOf(l, e, later) <= LevelOf(l, e, t) + l.refill(later - t)
  {
    RefillNonNegative(l, later - t);
    if e.banned == 0.0 {
      RefillAdds(l, t - e.updated, later - t, later - e.updated);
    } else if e.banned > later {
      RefillAdds(l, e.banned - later, later - t, e.banned - t);
    } else if e.banned > t {
      RefillGrows(l, e.banned - t, later - t);
    }
  }

  predicate LongBan(l: Limits) { l.ban == 0 || l.ban >= l.window }

  lemma BanStarts(l: Limits, e: Entry, now: real)
    requires Accepted(l) && Paced(l) && l.enabled && l.ban != 0 && LongBan(l) && now >= 0.0
    ensures LevelOf(l, e.(banned := now + l.ban as real), now) == 0.0
  {
    RefillWindow(l);
    RefillGrows(l, l.window as real, l.ban as real);
    var banned := now + l.ban as real;
    assert banned - now == l.ban as real;
  }

  lemma TakeLevel(l: Limits, e: Entry, now: real)
    requires Accepted(l) && l.enabled && EntryOk(l, e, now) && Paced(l) && LongBan(l)
    ensures var (f, answer) := Take(l, e, now);
      LevelOf(l, f, now) + (if answer.None? then 1.0 else 0.0) <= LevelOf(l, e, now)
  {
    if e.banned <= now {
      var f := Refilled(l, Unbanned(l, e, now), now);
      RefillKeeps(l, Unbanned(l, e, now), now);
      RefillWindow(l);
      assert now - now == 0.0;
      assert f.tokens == LevelOf(l, e, now) && f.banned == 0.0;
      if l.ban != 0 {
        BanStarts(l, f, now);
      }
    }
  }

  lemma StaleLevel(l: Limits, e: Entry, now: real)
    requires Accepted(l) && Paced(l) && l.enabled && EntryOk(l, e, now) && Stale(l, e, now)
    ensures LevelOf(l, e, now) == l.maxRequests as real
  {
    StaleIsLong(l, e, now);
  }

  // ---------------------------------------------------------------- the bound over runs

  /** The client is banned at that time. */
  predicate Banned(s: State, client: Client, t: real) { client in s.entries && s.entries[client].banned > t }

  lemma TakeAdmitsIff(l: Limits, e: Entry, now: real)
    requires Accepted(l) && Paced(l) && l.enabled && EntryOk(l, e, now) && e.banned <= now
    ensures Take(l, e, now).1.None? <==> LevelOf(l, e, now) >= 1.0
  {
    RefillWindow(l);
    assert now - now == 0.0;
  }

  lemma TakeLevelExact(l: Limits, e: Entry, now: real)
    requires Accepted(l) && Paced(l) && l.enabled && EntryOk(l, e, now) && e.banned <= now
    ensures var (f, answer) := Take(l, e, now);
      && (answer.None? || l.ban == 0 ==> f.banned == 0.0 && LevelOf(l, f, now) == LevelOf(l, e, now) - Charge(answer))
      && (answer.Some? && l.ban > 0 ==> f.banned == now + l.ban as real && answer == Some(l.ban))
  {
    RefillWindow(l);
    RefillKeeps(l, Unbanned(l, e, now), now);
    assert now - now == 0.0;
  }

  function Charge(answer: Option<nat>): real { if answer.None? then 1.0 else 0.0 }

  lemma NewEntryLevel(l: Limits, now: real)
    requires Accepted(l) && Paced(l) && l.enabled
    ensures LevelOf(l, NewEntry(l, now), now) == l.maxRequests as real - 1.0
  {
    RefillWindow(l);
    assert now - now == 0.0;
  }

  /** A check admits its client exactly if it is not banned and a whole token is there, and takes exactly that token. */
  lemma CheckAdmitsIff(l: Limits, s: State, client: Client, now: real)
    requires Accepted(l) && Paced(l) && l.enabled && EntriesOk(l, s, now)
    ensures var (after, answer) := Check(l, s, client, now);
      && (answer.None? <==> !Banned(s, client, now) && Level(l, s, client, now) >= 1.0)
      && (answer.None? || (l.ban == 0 && !Banned(s, client, now)) ==>
            Level(l, after, client, now) == Level(l, s, client, now) - Charge(answer))
      && (answer.Some? && l.ban > 0 && !Banned(s, client, now) ==>
            answer == Some(l.ban) && forall t :: Banned(after, client, t) <==> t < now + l.ban as real)
      && (Banned(s, client, now) ==>
            client in after.entries && after.entries[client] == s.entries[client])
  {
    ClearedKeeps(l, s, now, client);
    var r := Cleared(l, s, now);
    assert Banned(s, client, now) ==> Banned(r, client, now) && r.entries[client] == s.entries[client];
    if client in r.entries {
      if r.entries[client].banned <= now {
        TakeAdmitsIff(l, r.entries[client], now);
        TakeLevelExact(l, r.entries[client], now);
      }
    } else {
      NewEntryLevel(l, now);
    }
  }

  /** And leaves every other client alone, unless it evicts it. */
  lemma CheckLeavesOthers(l: Limits, s: State, client: Client, now: real, k: Client)
    requires Accepted(l) && Paced(l) && l.enabled && EntriesOk(l, s, now) && Listed(s) && k != client
    requires !Evicts(l, s, client, now, k)
    ensures Level(l, Check(l, s, client, now).0, k, now) == Level(l, s, k, now)
  {
    ClearedKeeps(l, s, now, k);
    CleanupKeepsListed(l, Counted(s), now);
  }

  /** The state in which check `m` looks its client up. */
  function Cleared(l: Limits, s: State, now: real): State { Cleaned(l, Counted(s), now) }

  /** The check of `client` evicts `k`. */
  predicate Evicts(l: Limits, s: State, client: Client, now: real, k: Client) {
    var r := Cleared(l, s, now);
    client !in r.entries && |r.entries| >= MAX_ENTRIES && r.lru != [] && r.lru[0] == k
  }

  lemma ClearedKeeps(l: Limits, s: State, now: real, k: Client)
    requires Accepted(l) && Paced(l) && l.enabled && EntriesOk(l, s, now)
    ensures EntriesOk(l, Cleared(l, s, now), now) && Level(l, Cleared(l, s, now), k, now) == Level(l, s, k, now)
  {
    if k in s.entries && Stale(l, s.entries[k], now) {
      StaleLevel(l, s.entries[k], now);
    }
  }

  lemma AdmitKeeps(l: Limits, s: State, client: Client, now: real)
    requires Accepted(l) && Paced(l) && l.enabled && EntriesOk(l, s, now) && now >= 0.0
    ensures EntriesOk(l, Admit(l, s, client, now).0, now)
  {
    if client in s.entries {
      TakeKeeps(l, s.entries[client], now);
    }
  }

  lemma CheckKeeps(l: Limits, s: State, client: Client, now: real)
    requires Accepted(l) && Paced(l) && EntriesOk(l, s, now) && now >= 0.0
    ensures EntriesOk(l, Check(l, s, client, now).0, now)
  {
    if l.enabled {
      ClearedKeeps(l, s, now, client);
      AdmitKeeps(l, Cleared(l, s, now), client, now);
    }
  }

  lemma AdmitLevel(l: Limits, s: State, client: Client, now: real, k: Client)
    requires Accepted(l) && l.enabled && EntriesOk(l, s, now) && Paced(l) && LongBan(l) && Listed(s)
    requires client in s.entries || |s.entries| < MAX_ENTRIES || s.lru == [] || s.lru[0] != k
    ensures var (after, answer) := Admit(l, s, client, now);
      Level(l, after, k, now) + (if client == k && answer.None? then 1.0 else 0.0) <= Level(l, s, k, now)
  {
    if client in s.entries {
      TakeLevel(l, s.entries[client], now);
    } else {
      RefillWindow(l);
      assert now - now == 0.0;
    }
  }

  lemma CheckLevel(l: Limits, s: State, client: Client, now: real, k: Client)
    requires Accepted(l) && Paced(l) && l.enabled && EntriesOk(l, s, now) && LongBan(l) && Listed(s)
    requires !Evicts(l, s, client, now, k)
    ensures var (after, answer) := Check(l, s, client, now);
      Level(l, after, k, now) + (if client == k && answer.None? then 1.0 else 0.0) <= Level(l, s, k, now)
  {
    ClearedKeeps(l, s, now, k);
    CleanupKeepsListed(l, Counted(s), now);
    AdmitLevel(l, Cleared(l, s, now), client, now, k);
  }

  /** The time of the last of the first `m` checks. */
  function Clock(calls: seq<Call>, m: nat): real
    requires m <= |calls|
  {
    if m == 0 then 0.0 else calls[m - 1].now
  }

  lemma {:induction false} StatesOk(l: Limits, tr: Trace, m: nat)
    requires Accepted(l) && Paced(l) && Run(l, tr) && m < |tr.states|
    ensures EntriesOk(l, tr.states[m], Clock(tr.calls, m)) && Listed(tr.states[m])
  {
    if m > 0 {
      var s, call := tr.states[m - 1], tr.calls[m - 1];
      StatesOk(l, tr, m - 1);
      assert StepAt(l, tr, m - 1);
      assert Clock(tr.calls, m - 1) <= call.now;
      CheckKeeps(l, s, call.client, call.now);
      CheckKeepsListed(l, s, call.client, call.now);
    }
  }

  /** How many of the checks from `i` and before `j` admitted `k`. */
  function Admitted(tr: Trace, k: Client, i: nat, j: nat): nat
    requires i <= j <= |tr.calls| == |tr.answers|
  {
    if i == j then 0 else Admitted(tr, k, i, j - 1) + AdmittedBy(tr, k, j - 1)
  }

  predicate NeverEvicted(l: Limits, tr: Trace, k: Client, i: nat, j: nat)
    requires i <= j <= |tr.calls| < |tr.states|
  {
    forall m :: i <= m < j ==> !Evicts(l, tr.states[m], tr.calls[m].client, tr.calls[m].now, k)
  }

  /** A full bucket, and what `seconds` refill. */
  function Bound(l: Limits, seconds: real): real
    requires l.window > 0
  {
    l.maxRequests as real + seconds * (l.maxRequests as real / l.window as real)
  }

  /** One if check `m` admitted `k`. */
  function AdmittedBy(tr: Trace, k: Client, m: nat): nat
    requires m < |tr.calls| == |tr.answers|
  {
    if tr.calls[m].client == k && tr.answers[m].None? then 1 else 0
  }

  lemma LevelFalls(l: Limits, tr: Trace, k: Client, m: nat)
    requires Accepted(l) && l.enabled && Paced(l) && LongBan(l) && Run(l, tr) && m < |tr.calls|
    requires !Evicts(l, tr.states[m], tr.calls[m].client, tr.calls[m].now, k)
    ensures Level(l, tr.states[m + 1], k, tr.calls[m].now) + AdmittedBy(tr, k, m) as real
            <= Level(l, tr.states[m], k, tr.calls[m].now)
  {
    StatesOk(l, tr, m);
    assert Clock(tr.calls, m) <= tr.calls[m].now;
    assert StepAt(l, tr, m);
    CheckLevel(l, tr.states[m], tr.calls[m].client, tr.calls[m].now, k);
  }

  lemma StateLevelGrows(l: Limits, s: State, k: Client, t: real, later: real)
    requires Accepted(l) && Paced(l) && l.enabled && t <= later
    ensures Level(l, s, k, later) <= Level(l, s, k, t) + l.refill(later - t)
  {
    if k in s.entries {
      LevelGrows(l, s.entries[k], t, later);
    } else {
      RefillNonNegative(l, later - t);
    }
  }

  lemma EntryLevelRange(l: Limits, e: Entry, t: real)
    requires Accepted(l) && Paced(l) && l.enabled && EntryOk(l, e, t)
    ensures 0.0 <= LevelOf(l, e, t) <= l.maxRequests as real
  {
    RefillNonNegative(l, t - e.updated);
    if e.banned > t {
      RefillNonNegative(l, e.banned - t);
    }
  }

  lemma LevelRange(l: Limits, tr: Trace, k: Client, m: nat, t: real)
    requires Accepted(l) && Paced(l) && l.enabled && Run(l, tr) && m < |tr.states| && Clock(tr.calls, m) <= t
    ensures 0.0 <= Level(l, tr.states[m], k, t) <= l.maxRequests as real
  {
    StatesOk(l, tr, m);
    var s := tr.states[m];
    if k in s.entries {
      EntryLater(l, s.entries[k], Clock(tr.calls, m), t);
      EntryLevelRange(l, s.entries[k], t);
    }
  }

  lemma {:induction false} LevelsFall(l: Limits, tr: Trace, k: Client, i: nat, j: nat)
    requires Accepted(l) && l.enabled && Paced(l) && LongBan(l) && Run(l, tr) && i < j <= |tr.calls|
    requires NeverEvicted(l, tr, k, i, j)
    ensures Admitted(tr, k, i, j) as real + Level(l, tr.states[j], k, tr.calls[j - 1].now)
            <= Level(l, tr.states[i], k, tr.calls[i].now) + l.refill(tr.calls[j - 1].now - tr.calls[i].now)
  {
    var first, now := tr.calls[i].now, tr.calls[j - 1].now;
    LevelFalls(l, tr, k, j - 1);
    if i < j - 1 {
      var before := tr.calls[j - 2].now;
      LevelsFall(l, tr, k, i, j - 1);
      StateLevelGrows(l, tr.states[j - 1], k, before, now);
      RefillAdds(l, before - first, now - before, now - first);
    } else {
      RefillWindow(l);
    }
  }

  /** A client that is not evicted gets at most a full bucket plus what the interval refills. */
  lemma AdmissionBound(l: Limits, tr: Trace, k: Client, i: nat, j: nat)
    requires Accepted(l) && l.enabled && Paced(l) && LongBan(l) && Run(l, tr) && i < j <= |tr.calls|
    requires NeverEvicted(l, tr, k, i, j)
    ensures Admitted(tr, k, i, j) as real <= Bound(l, tr.calls[j - 1].now - tr.calls[i].now)
  {
    LevelsFall(l, tr, k, i, j);
    LevelRange(l, tr, k, i, tr.calls[i].now);
    LevelRange(l, tr, k, j, tr.calls[j - 1].now);
    assert PacedAt(l, tr.calls[j - 1].now - tr.calls[i].now);
  }

  // ---------------------------------------------------------------- when the bound does not hold

  /** `maxRequests + 1` checks of one client at one moment, and `maxRequests` more when its ban is over. */
  function BurstCall(l: Limits, m: nat): Call {
    Call(0, if m <= l.maxRequests then 1.0 else 1.0 + l.ban as real)
  }

  function BurstEntry(l: Limits, m: nat): Entry {
    if m <= l.maxRequests then Entry((l.maxRequests - m) as real, 1.0, 0.0)
    else if m == l.maxRequests + 1 then Entry(0.0, 1.0, 1.0 + l.ban as real)
    else Entry((2 * l.maxRequests + 1 - m) as real, 1.0 + l.ban as real, 0.0)
  }

  function BurstState(l: Limits, m: nat): State {
    if m == 0 then EMPTY else State(map[0 := BurstEntry(l, m)], [0], m)
  }

  function BurstAnswer(l: Limits, m: nat): Option<nat> { if m == l.maxRequests then Some(l.ban) else None }

  function Burst(l: Limits): Trace {
    var n := 2 * l.maxRequests + 1;
    Trace(seq(n, m requires 0 <= m < n => BurstCall(l, m)),
          seq(n + 1, m requires 0 <= m <= n => BurstState(l, m)),
          seq(n, m requires 0 <= m < n => BurstAnswer(l, m)))
  }

  predicate ShortBan(l: Limits) { l.enabled && 0 < l.ban < l.window }

  lemma BurstTake(l: Limits, m: nat)
    requires Accepted(l) && Paced(l) && l.enabled && l.ban > 0 && 0 < m < 2 * l.maxRequests + 1
    ensures Take(l, BurstEntry(l, m), BurstCall(l, m).now) == (BurstEntry(l, m + 1), BurstAnswer(l, m))
  {
    RefillWindow(l);
    var now := BurstCall(l, m).now;
    assert now - now == 0.0;
  }

  lemma NothingStale(l: Limits, k: Client, e: Entry, count: nat, now: real)
    requires !Stale(l, e, now)
    ensures var s := State(map[k := e], [k], count); Cleaned(l, s, now) == s
  {
    assert Fresh(l, map[k := e], now) == map[k := e];
    KeepAll([k], map[k := e].Keys);
  }

  lemma BurstStep(l: Limits, m: nat)
    requires Accepted(l) && Paced(l) && l.enabled && l.ban > 0 && m < 2 * l.maxRequests + 1
    ensures Check(l, BurstState(l, m), 0, BurstCall(l, m).now) == (BurstState(l, m + 1), BurstAnswer(l, m))
  {
    if m == 0 {
      var first := Counted(EMPTY);
      assert first.entries[0 := NewEntry(l, 1.0)] == map[0 := NewEntry(l, 1.0)] && first.lru + [0] == [0];
      assert BurstEntry(l, 1) == NewEntry(l, 1.0);
    } else {
      var e, now := BurstEntry(l, m), BurstCall(l, m).now;
      NothingStale(l, 0, e, m + 1, now);
      BurstTake(l, m);
      assert map[0 := e][0 := BurstEntry(l, m + 1)] == map[0 := BurstEntry(l, m + 1)];
      assert Remove([0], 0) + [0] == [0];
    }
  }

  lemma BurstIsRun(l: Limits)
    requires Accepted(l) && Paced(l) && ShortBan(l)
    ensures Run(l, Burst(l))
  {
    var tr := Burst(l);
    forall i | 0 <= i < |tr.calls| ensures StepAt(l, tr, i) {
      BurstStep(l, i);
    }
  }

  lemma BurstStays(l: Limits)
    ensures NeverEvicted(l, Burst(l), 0, 0, 2 * l.maxRequests + 1)
  {
    var tr := Burst(l);
    forall m | 0 <= m < |tr.calls| ensures !Evicts(l, tr.states[m], tr.calls[m].client, tr.calls[m].now, 0) {
      BurstFits(l, m);
    }
  }

  lemma BurstFits(l: Limits, m: nat)
    requires m < 2 * l.maxRequests + 1
    ensures !Evicts(l, BurstState(l, m), 0, BurstCall(l, m).now, 0)
  {
    var s, now := BurstState(l, m), BurstCall(l, m).now;
    var r := Cleared(l, s, now);
    assert r.entries.Keys <= {0};
    SetSmall(r.entries);
  }

  lemma SetSmall(entries: map<Client, Entry>)
    requires entries.Keys <= {0}
    ensures |entries| <= 1
  {
    if 0 in entries {
      assert entries.Keys == {0};
      assert |entries| == |entries.Keys|;
    } else {
      assert entries.Keys == {};
      assert |entries| == |entries.Keys|;
    }
  }

  lemma {:induction false} BurstAdmits(l: Limits, j: nat)
    requires j <= 2 * l.maxRequests + 1
    ensures Admitted(Burst(l), 0, 0, j) == if j <= l.maxRequests then j else j - 1
  {
    if j > 0 {
      BurstAdmits(l, j - 1);
    }
  }

  lemma BurstExceeds(l: Limits)
    requires Accepted(l) && ShortBan(l)
    ensures (2 * l.maxRequests) as real > Bound(l, l.ban as real)
  {
    var full, window, ban := l.maxRequests as real, l.window as real, l.ban as real;
    var rate := full / window;
    assert window * rate == full;
    assert (window - ban) * rate > 0.0;
  }

  ghost predicate BoundAt(l: Limits, tr: Trace, k: Client, i: nat, j: nat)
    requires Accepted(l) && l.enabled
  {
    Run(l, tr) && i < j <= |tr.calls| && NeverEvicted(l, tr, k, i, j) ==>
      Admitted(tr, k, i, j) as real <= Bound(l, tr.calls[j - 1].now - tr.calls[i].now)
  }

  lemma LongBanBound(l: Limits, tr: Trace, k: Client, i: nat, j: nat)
    requires Accepted(l) && l.enabled && Paced(l) && LongBan(l)
    ensures BoundAt(l, tr, k, i, j)
  {
    if Run(l, tr) && i < j <= |tr.calls| && NeverEvicted(l, tr, k, i, j) {
      AdmissionBound(l, tr, k, i, j);
    }
  }

  lemma ShortBanExceeds(l: Limits)
    requires Accepted(l) && Paced(l) && ShortBan(l)
    ensures !BoundAt(l, Burst(l), 0, 0, 2 * l.maxRequests + 1)
  {
    var tr, n := Burst(l), 2 * l.maxRequests + 1;
    BurstIsRun(l);
    BurstStays(l);
    BurstAdmits(l, n);
    BurstExceeds(l);
    assert tr.calls[n - 1].now - tr.calls[0].now == l.ban as real;
  }

  /** The bound holds in every run exactly when a ban lasts at least as long as the window, or there is none. */
  lemma BoundIff(l: Limits)
    requires Accepted(l) && l.enabled && Paced(l)
    ensures (forall tr: Trace, k: Client, i: nat, j: nat :: BoundAt(l, tr, k, i, j))
            <==> l.ban == 0 || l.ban >= l.window
  {
    if LongBan(l) {
      forall tr: Trace, k: Client, i: nat, j: nat ensures BoundAt(l, tr, k, i, j) {
        LongBanBound(l, tr, k, i, j);
      }
    } else {
      ShortBanExceeds(l);
    }
  }
}
