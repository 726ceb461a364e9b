/**
 What the answers of the rate limiter promise: whether a refused client that waits as long as it was told is admitted
 at its next check, whatever other clients, the cleanup and evictions do meanwhile.
 */
module RateLimiterRetry {
  import opened Options
  import opened RateLimiter
  import opened RateLimiterRuns

  // ---------------------------------------------------------------- one bucket

  lemma CeilCovers(x: real)
    ensures Ceil(x) as real >= x > Ceil(x) as real - 1.0
  {
  }

  lemma RefillUnit(l: Limits, tokens: real, seconds: real)
    requires Accepted(l) && Paced(l) && l.enabled && seconds >= WaitForToken(l, tokens) as real
    ensures tokens + l.refill(seconds) >= 1.0
  {
    var rate := l.refill(1.0);
    assert PacedAt(l, 1.0) && PacedAt(l, seconds);
    assert rate > 0.0;
    CeilCovers((1.0 - tokens) / rate);
    var wait := (1.0 - tokens) / rate;
    assert wait * rate == 1.0 - tokens;
    assert seconds >= wait;
    assert (seconds - wait) * rate >= 0.0;
    assert l.refill(seconds) == seconds * rate;
  }

  /** The milliseconds that a ban still lasts, rounded down as the answer rounds them. */
  function Milliseconds(e: Entry, now: real): int { ((e.banned - now) * 1000.0).Floor }

  /** The answer is rounded down to a millisecond before it is rounded up to a second. */
  lemma Rounding(left: real, ms: int, n: nat)
    requires left > 0.0 && ms == (left * 1000.0).Floor
    requires n == var seconds := (ms + 999) / 1000; if seconds < 1 then 1 else seconds
    ensures left <= n as real <==> !(ms >= 1000 && ms % 1000 == 0 && left * 1000.0 > ms as real)
  {
    var whole, part := ms / 1000, ms % 1000;
    assert ms == 1000 * whole + part && 0 <= part < 1000 && ms >= 0;
    assert ms as real <= left * 1000.0 < ms as real + 1.0;
    if part == 0 {
      assert (ms + 999) / 1000 == whole;
      assert ms as real == 1000.0 * whole as real;
    } else {
      assert (ms + 999) / 1000 == whole + 1;
      assert ms as real + 1.0 <= 1000.0 * (whole + 1) as real;
    }
  }

  lemma AdmittedAfterBan(l: Limits, e: Entry, later: real)
    requires Accepted(l) && Paced(l) && l.enabled && e.banned != 0.0 && e.banned <= later
    ensures Take(l, e, later).1 == None
  {
    RefillWindow(l);
    assert later - later == 0.0;
  }

  /**
   A check during a ban: waiting as long as the answer says is enough exactly unless the ban lasts a whole number of
   seconds and a part of a millisecond.
   */
  lemma BanAnswerSufficesIff(l: Limits, e: Entry, now: real)
    requires Accepted(l) && Paced(l) && l.enabled && e.banned > now >= 0.0
    ensures var answer := Take(l, e, now).1;
      answer.Some? &&
      (Take(l, e, now + answer.value as real).1 == None <==>
       !(Milliseconds(e, now) >= 1000 && Milliseconds(e, now) % 1000 == 0
         && (e.banned - now) * 1000.0 > Milliseconds(e, now) as real))
  {
    var n := SecondsUntil(e.banned, now);
    Rounding(e.banned - now, Milliseconds(e, now), n);
    var later := now + n as real;
    if e.banned <= later {
      AdmittedAfterBan(l, e, later);
    }
  }

  lemma ShortBanAnswer(l: Limits, e: Entry, now: real)
    requires EntryOk(l, e, now) && l.ban <= 1 && e.banned > now
    ensures e.banned <= now + SecondsUntil(e.banned, now) as real
  {
    Rounding(e.banned - now, Milliseconds(e, now), SecondsUntil(e.banned, now));
  }

  /** Without bans, and with bans of one second, the answer is enough. */
  lemma WaitSuffices(l: Limits, e: Entry, now: real, later: real)
    requires Accepted(l) && Paced(l) && l.enabled && l.ban <= 1 && EntryOk(l, e, now)
    ensures var (f, answer) := Take(l, e, now);
      answer.Some? && later >= now + answer.value as real ==> Take(l, f, later).1 == None
  {
    var (f, answer) := Take(l, e, now);
    if answer.Some? && later >= now + answer.value as real {
      TakeKeeps(l, e, now);
      if e.banned > now {
        ShortBanAnswer(l, e, now);
        AdmittedAfterBan(l, f, later);
      } else if l.ban == 1 {
        AdmittedAfterBan(l, f, later);
      } else {
        RefillUnit(l, f.tokens, answer.value as real);
        RefillGrows(l, answer.value as real, later - now);
      }
    }
  }

  // ---------------------------------------------------------------- the answer is the least

  lemma TokenNotYet(l: Limits, tokens: real, seconds: real)
    requires Accepted(l) && Paced(l) && l.enabled && tokens < 1.0
    requires WaitForToken(l, tokens) > 1 && seconds <= (WaitForToken(l, tokens) - 1) as real
    ensures tokens + l.refill(seconds) < 1.0
  {
    var rate := l.refill(1.0);
    assert PacedAt(l, 1.0) && PacedAt(l, seconds);
    assert rate > 0.0;
    var wait := (1.0 - tokens) / rate;
    CeilCovers(wait);
    assert wait * rate == 1.0 - tokens;
    assert seconds < wait;
    assert (wait - seconds) * rate > 0.0;
    assert l.refill(seconds) == seconds * rate;
  }

  lemma StillBannedBefore(deadline: real, now: real, later: real)
    requires deadline > now && later <= now + (SecondsUntil(deadline, now) - 1) as real
    ensures deadline > later
  {
    var ms := ((deadline - now) * 1000.0).Floor;
    assert ms as real <= (deadline - now) * 1000.0;
    var n := SecondsUntil(deadline, now);
    if n > 1 {
      assert 1000 * (n - 1) < ms;
      assert (1000 * (n - 1)) as real == 1000.0 * (n - 1) as real;
    }
  }

  /** A refused client that comes back a second or more before the time it was told is refused again. */
  lemma WaitIsLeast(l: Limits, e: Entry, now: real, later: real)
    requires Accepted(l) && Paced(l) && l.enabled && EntryOk(l, e, now) && now <= later
    ensures var (f, answer) := Take(l, e, now);
      answer.Some? ==>
        && answer.value >= 1
        && (later <= now + answer.value as real - 1.0 && answer.value > 1 ==> Take(l, f, later).1.Some?)
  {
    var (f, answer) := Take(l, e, now);
    if answer.Some? && later <= now + answer.value as real - 1.0 && answer.value > 1 {
      if e.banned > now {
        StillBannedBefore(e.banned, now, later);
      } else if l.ban == 0 {
        TakeKeeps(l, e, now);
        TokenNotYet(l, f.tokens, later - now);
      }
    }
  }

  // ---------------------------------------------------------------- runs

  /** Check `n` is the next one of the client of check `m`, which was refused and has waited as long as it was told. */
  predicate Waited(tr: Trace, m: nat, n: nat) {
    && m < n < |tr.calls| && |tr.answers| == |tr.calls|
    && tr.calls[n].client == tr.calls[m].client
    && (forall j :: m < j < n ==> tr.calls[j].client != tr.calls[m].client)
    && tr.answers[m].Some? && tr.calls[n].now >= tr.calls[m].now + tr.answers[m].value as real
  }

  ghost predicate RetryAdmitted(l: Limits, tr: Trace, m: nat, n: nat)
    requires Accepted(l)
  {
    Run(l, tr) && Waited(tr, m, n) ==> tr.answers[n] == None
  }

  /** The entry of `k` is `e`, or there is none. */
  predicate AtMost(s: State, k: Client, e: Entry) { k in s.entries ==> s.entries[k] == e }

  lemma OthersKeep(l: Limits, s: State, client: Client, now: real, k: Client, e: Entry)
    requires Accepted(l) && l.enabled && AtMost(s, k, e) && client != k
    ensures AtMost(Check(l, s, client, now).0, k, e)
  {
    assert AtMost(Cleared(l, s, now), k, e);
  }

  lemma {:induction false} KeptMeanwhile(l: Limits, tr: Trace, k: Client, e: Entry, m: nat, n: nat)
    requires Accepted(l) && l.enabled && Run(l, tr) && m <= n < |tr.states| && AtMost(tr.states[m], k, e)
    requires forall j :: m <= j < n ==> tr.calls[j].client != k
    ensures AtMost(tr.states[n], k, e)
  {
    if m < n {
      KeptMeanwhile(l, tr, k, e, m, n - 1);
      assert StepAt(l, tr, n - 1);
      OthersKeep(l, tr.states[n - 1], tr.calls[n - 1].client, tr.calls[n - 1].now, k, e);
    }
  }

  /** A refused client is known afterwards, and its entry is what `Take` made of the one it had. */
  lemma RefusedEntry(l: Limits, s: State, client: Client, now: real) returns (e: Entry)
    requires Accepted(l) && Paced(l) && l.enabled && EntriesOk(l, s, now) && Check(l, s, client, now).1.Some?
    ensures EntryOk(l, e, now) && Check(l, s, client, now).1 == Take(l, e, now).1
    ensures AtMost(Check(l, s, client, now).0, client, Take(l, e, now).0)
  {
    var r := Cleared(l, s, now);
    ClearedKeeps(l, s, now, client);
    e := r.entries[client];
  }

  lemma AdmittedIf(l: Limits, s: State, client: Client, now: real, f: Entry)
    requires Accepted(l) && l.enabled && AtMost(s, client, f) && Take(l, f, now).1 == None
    ensures Check(l, s, client, now).1 == None
  {
    assert AtMost(Cleared(l, s, now), client, f);
  }

  /** A ban of at most a second: a refused client that waits as long as it was told is admitted next time. */
  lemma RetrySucceeds(l: Limits, tr: Trace, m: nat, n: nat)
    requires Accepted(l) && Paced(l) && l.enabled && l.ban <= 1 && Run(l, tr) && Waited(tr, m, n)
    ensures tr.answers[n] == None
  {
    var k, now, later := tr.calls[m].client, tr.calls[m].now, tr.calls[n].now;
    StatesOk(l, tr, m);
    assert EntriesOk(l, tr.states[m], now) by {
      assert Clock(tr.calls, m) <= now;
    }
    assert StepAt(l, tr, m) && StepAt(l, tr, n);
    var e := RefusedEntry(l, tr.states[m], k, now);
    var f := Take(l, e, now).0;
    WaitSuffices(l, e, now, later);
    KeptMeanwhile(l, tr, k, f, m + 1, n);
    AdmittedIf(l, tr.states[n], k, later, f);
  }

  /** Check `n` is the next one of the client of check `m`, which was refused, and comes a second or more too early. */
  predicate TooEarly(tr: Trace, m: nat, n: nat) {
    && m < n < |tr.calls| && |tr.answers| == |tr.calls|
    && tr.calls[n].client == tr.calls[m].client
    && (forall j :: m < j < n ==> tr.calls[j].client != tr.calls[m].client)
    && tr.answers[m].Some? && tr.answers[m].value > 1
    && tr.calls[n].now <= tr.calls[m].now + tr.answers[m].value as real - 1.0
  }

  predicate Known(s: State, k: Client, e: Entry) { k in s.entries && s.entries[k] == e }

  /** An entry that was refused is not stale before its time. */
  lemma RefusedIsFresh(l: Limits, e: Entry, now: real, later: real)
    requires Accepted(l) && Paced(l) && l.enabled && EntryOk(l, e, now)
    requires var (f, answer) := Take(l, e, now);
      answer.Some? && answer.value > 1 && later <= now + answer.value as real - 1.0
    ensures !Stale(l, Take(l, e, now).0, later)
  {
    var (f, answer) := Take(l, e, now);
    if e.banned > now {
      StillBannedBefore(e.banned, now, later);
    } else if l.ban == 0 {
      TakeKeeps(l, e, now);
      WaitWithinWindow(l, f.tokens);
    }
  }

  lemma NonNegative(x: real, rate: real)
    requires rate > 0.0 && x * rate >= 0.0
    ensures x >= 0.0
  {
  }

  lemma QuotientWithin(x: real, rate: real, window: real)
    requires rate > 0.0 && x <= window * rate
    ensures x / rate <= window
  {
    var q := x / rate;
    assert q * rate == x;
    assert (window - q) * rate == window * rate - q * rate;
    NonNegative(window - q, rate);
  }

  lemma WaitWithinWindow(l: Limits, tokens: real)
    requires Accepted(l) && Paced(l) && l.enabled && 0.0 <= tokens < 1.0
    ensures WaitForToken(l, tokens) <= l.window
  {
    var rate, window := l.refill(1.0), l.window as real;
    RefillWindow(l);
    assert PacedAt(l, 1.0) && PacedAt(l, window);
    assert rate > 0.0 && window * rate >= 1.0;
    QuotientWithin(1.0 - tokens, rate, window);
    CeilCovers((1.0 - tokens) / rate);
  }

  lemma OthersKeepKnown(l: Limits, s: State, client: Client, now: real, k: Client, e: Entry)
    requires Accepted(l) && l.enabled && Known(s, k, e) && client != k && !Stale(l, e, now) && Listed(s)
    requires !Evicts(l, s, client, now, k)
    ensures Known(Check(l, s, client, now).0, k, e)
  {
    assert Known(Cleared(l, s, now), k, e);
    CleanupKeepsListed(l, Counted(s), now);
  }

  lemma {:induction false} KnownMeanwhile(l: Limits, tr: Trace, k: Client, e: Entry, m: nat, n: nat)
    requires Accepted(l) && Paced(l) && l.enabled && Run(l, tr) && m <= n < |tr.states| && Known(tr.states[m], k, e)
    requires forall j :: m <= j < n ==> tr.calls[j].client != k && !Stale(l, e, tr.calls[j].now)
    requires NeverEvicted(l, tr, k, m, n)
    ensures Known(tr.states[n], k, e)
  {
    if m < n {
      KnownMeanwhile(l, tr, k, e, m, n - 1);
      StatesOk(l, tr, n - 1);
      assert StepAt(l, tr, n - 1);
      OthersKeepKnown(l, tr.states[n - 1], tr.calls[n - 1].client, tr.calls[n - 1].now, k, e);
    }
  }

  lemma RefusedIsKnown(l: Limits, s: State, client: Client, now: real) returns (e: Entry)
    requires Accepted(l) && Paced(l) && l.enabled && EntriesOk(l, s, now) && Check(l, s, client, now).1.Some?
    ensures EntryOk(l, e, now) && Check(l, s, client, now).1 == Take(l, e, now).1
    ensures Known(Check(l, s, client, now).0, client, Take(l, e, now).0)
  {
    ClearedKeeps(l, s, now, client);
    e := Cleared(l, s, now).entries[client];
  }

  lemma RefusedIf(l: Limits, s: State, client: Client, now: real, f: Entry)
    requires Accepted(l) && l.enabled && Known(s, client, f) && !Stale(l, f, now) && Take(l, f, now).1.Some?
    ensures Check(l, s, client, now).1.Some?
  {
    assert Known(Cleared(l, s, now), client, f);
  }

  /** In every run a client that is not evicted meanwhile and comes back a second or more too early is refused. */
  lemma EarlyIsRefused(l: Limits, tr: Trace, m: nat, n: nat)
    requires Accepted(l) && Paced(l) && l.enabled && Run(l, tr) && TooEarly(tr, m, n)
    requires NeverEvicted(l, tr, tr.calls[m].client, m + 1, n)
    ensures tr.answers[n].Some?
  {
    var k, now, later := tr.calls[m].client, tr.calls[m].now, tr.calls[n].now;
    StatesOk(l, tr, m);
    assert EntriesOk(l, tr.states[m], now) by {
      assert Clock(tr.calls, m) <= now;
    }
    assert StepAt(l, tr, m) && StepAt(l, tr, n);
    var e := RefusedIsKnown(l, tr.states[m], k, now);
    var f := Take(l, e, now).0;
    WaitIsLeast(l, e, now, later);
    forall j | m + 1 <= j < n ensures !Stale(l, f, tr.calls[j].now) {
      RefusedIsFresh(l, e, now, tr.calls[j].now);
    }
    RefusedIsFresh(l, e, now, later);
    KnownMeanwhile(l, tr, k, f, m + 1, n);
    RefusedIf(l, tr.states[n], k, later, f);
  }

  // ---------------------------------------------------------------- when waiting is not enough

  /** `maxRequests + 1` checks at one moment, one when the ban has 1.0005 seconds left, and one a second later. */
  function EarlyCall(l: Limits, m: nat): Call {
    Call(0, if m <= l.maxRequests then 1.0
            else if m == l.maxRequests + 1 then l.ban as real - 0.0005 else l.ban as real + 0.9995)
  }

  function EarlyState(l: Limits, m: nat): State {
    if m <= l.maxRequests + 1 then BurstState(l, m)
    else State(map[0 := BurstEntry(l, l.maxRequests + 1)], [0], m)
  }

  function EarlyAnswer(l: Limits, m: nat): Option<nat> {
    if m <= l.maxRequests then BurstAnswer(l, m) else Some(1)
  }

  function Early(l: Limits): Trace {
    var n := l.maxRequests + 3;
    Trace(seq(n, m requires 0 <= m < n => EarlyCall(l, m)),
          seq(n + 1, m requires 0 <= m <= n => EarlyState(l, m)),
          seq(n, m requires 0 <= m < n => EarlyAnswer(l, m)))
  }

  lemma StillBanned(l: Limits, e: Entry, count: nat, now: real)
    requires Accepted(l) && l.enabled && e.banned > now
    ensures Check(l, State(map[0 := e], [0], count), 0, now)
            == (State(map[0 := e], [0], count + 1), Some(SecondsUntil(e.banned, now)))
  {
    NothingStale(l, 0, e, count + 1, now);
    assert map[0 := e][0 := e] == map[0 := e];
    assert Remove([0], 0) + [0] == [0];
  }

  lemma EarlyStep(l: Limits, m: nat)
    requires Accepted(l) && Paced(l) && l.enabled && l.ban >= 2 && m < l.maxRequests + 3
    ensures Check(l, EarlyState(l, m), 0, EarlyCall(l, m).now) == (EarlyState(l, m + 1), EarlyAnswer(l, m))
  {
    if m <= l.maxRequests {
      BurstStep(l, m);
    } else {
      var e, now := BurstEntry(l, l.maxRequests + 1), EarlyCall(l, m).now;
      var left := e.banned - now;
      assert left == (if m == l.maxRequests + 1 then 1.0005 else 0.0005);
      assert (left * 1000.0).Floor == (if m == l.maxRequests + 1 then 1000 else 0);
      StillBanned(l, e, m, now);
    }
  }

  /** For every longer ban there is a run in which a client that waits as long as it was told is refused again. */
  lemma BanAnswerCanBeShort(l: Limits)
    requires Accepted(l) && Paced(l) && l.enabled && l.ban >= 2
    ensures !RetryAdmitted(l, Early(l), l.maxRequests + 1, l.maxRequests + 2)
  {
    var tr := Early(l);
    forall i | 0 <= i < |tr.calls| ensures StepAt(l, tr, i) {
      EarlyStep(l, i);
    }
  }

  /** Every refused client that waits as long as it was told is admitted next, in every run, iff bans last a second. */
  lemma RetryIff(l: Limits)
    requires Accepted(l) && l.enabled && Paced(l)
    ensures (forall tr: Trace, m: nat, n: nat :: RetryAdmitted(l, tr, m, n)) <==> l.ban <= 1
  {
    if l.ban <= 1 {
      forall tr: Trace, m: nat, n: nat ensures RetryAdmitted(l, tr, m, n) {
        if Run(l, tr) && Waited(tr, m, n) {
          RetrySucceeds(l, tr, m, n);
        }
      }
    } else {
      BanAnswerCanBeShort(l);
    }
  }
}
