/**
 The per-client rate limiter of a request policy: a token bucket with bans, a map of entries, a list of clients in
 the order of their last check, a cleanup every 1024 checks and an eviction when the map is full. Time and tokens
 are real numbers. Theorems about runs are in RateLimiterRuns.dfy.
 */
module RateLimiter {
  import opened Options

  /** A client address. */
  type Client = nat

  /** The settings of a limiter; `refill(d)` is the number of tokens that `d` seconds refill. */
  datatype Limits = Limits(enabled: bool, window: nat, maxRequests: nat, ban: nat, refill: real -> real)

  predicate InRange(enabled: bool, window: nat, maxRequests: nat, ban: nat) {
    enabled ==> 1 <= window <= 3600 && 1 <= maxRequests <= 1000000 && ban <= 86400
  }

  /** What the constructor accepts. */
  predicate Accepted(l: Limits) { InRange(l.enabled, l.window, l.maxRequests, l.ban) }

  /** Tokens come in at `maxRequests / window` a second. */
  predicate PacedAt(l: Limits, d: real) {
    l.window > 0 ==> l.refill(d) == d * (l.maxRequests as real / l.window as real)
  }

  ghost predicate Paced(l: Limits) { forall d {:trigger PacedAt(l, d)} :: PacedAt(l, d) }

  /** `banned == 0.0` is the default time point: no ban. */
  datatype Entry = Entry(tokens: real, updated: real, banned: real)

  datatype State = State(entries: map<Client, Entry>, lru: seq<Client>, count: nat)

  const MAX_ENTRIES := 65536

  function Min(a: real, b: real): real { if b < a then b else a }

  function Ceil(x: real): int { -((-x).Floor) }

  function SecondsUntil(deadline: real, now: real): nat {
    var milliseconds := ((deadline - now) * 1000.0).Floor;
    var seconds := (milliseconds + 999) / 1000;
    if seconds < 1 then 1 else seconds
  }

  // ---------------------------------------------------------------- one bucket

  function NewEntry(l: Limits, now: real): Entry { Entry(l.maxRequests as real - 1.0, now, 0.0) }

  /** An entry whose ban is over starts with a full bucket. */
  function Unbanned(l: Limits, e: Entry, now: real): Entry {
    if e.banned != 0.0 then Entry(l.maxRequests as real, now, 0.0) else e
  }

  function Refilled(l: Limits, e: Entry, now: real): Entry {
    Entry(Min(l.maxRequests as real, e.tokens + l.refill(now - e.updated)), now, e.banned)
  }

  /** The check of a known client: its new entry, and the seconds to wait unless it is admitted. */
  function Take(l: Limits, e: Entry, now: real): (Entry, Option<nat>)
    requires Accepted(l) && l.enabled
  {
    if e.banned > now then (e, Some(SecondsUntil(e.banned, now)))
    else
      var f := Refilled(l, Unbanned(l, e, now), now);
      if f.tokens >= 1.0 then (f.(tokens := f.tokens - 1.0), None)
      else if l.ban != 0 then (f.(banned := now + l.ban as real), Some(l.ban))
      else (f, Some(WaitForToken(l, f.tokens)))
  }

  function WaitForToken(l: Limits, tokens: real): nat {
    var rate := l.refill(1.0);
    var seconds := if rate == 0.0 then 0 else Ceil((1.0 - tokens) / rate);
    if seconds < 1 then 1 else seconds
  }

  // ---------------------------------------------------------------- the list

  /** The list without its first `k`. */
  function Remove(q: seq<Client>, k: Client): (r: seq<Client>)
    ensures forall x :: x in r ==> x in q
    ensures k in q ==> |r| == |q| - 1
  {
    if q == [] then [] else if q[0] == k then q[1..] else [q[0]] + Remove(q[1..], k)
  }

  function Keep(q: seq<Client>, kept: set<Client>): (r: seq<Client>)
    ensures forall x :: x in r <==> x in q && x in kept
  {
    if q == [] then [] else if q[0] in kept then [q[0]] + Keep(q[1..], kept) else Keep(q[1..], kept)
  }

  predicate Distinct(q: seq<Client>) { q == [] || (q[0] !in q[1..] && Distinct(q[1..])) }

  ghost predicate Lists(q: seq<Client>, keys: set<Client>) {
    Distinct(q) && forall x :: x in q <==> x in keys
  }

  // ---------------------------------------------------------------- the limiter

  predicate Stale(l: Limits, e: Entry, now: real) {
    e.banned <= now && now - e.updated > (l.window + l.ban + 1) as real
  }

  function Fresh(l: Limits, entries: map<Client, Entry>, now: real): map<Client, Entry> {
    map k | k in entries && !Stale(l, entries[k], now) :: entries[k]
  }

  function Cleanup(l: Limits, s: State, now: real): State {
    var kept := Fresh(l, s.entries, now);
    s.(entries := kept, lru := Keep(s.lru, kept.Keys))
  }

  function EvictOldest(s: State): State {
    if s.lru == [] then s else s.(entries := s.entries - {s.lru[0]}, lru := s.lru[1..])
  }

  /** The check once the periodic cleanup is out of the way. */
  function Admit(l: Limits, s: State, client: Client, now: real): (State, Option<nat>)
    requires Accepted(l) && l.enabled
  {
    if client in s.entries then
      var (e, answer) := Take(l, s.entries[client], now);
      (s.(entries := s.entries[client := e], lru := Remove(s.lru, client) + [client]), answer)
    else
      var r := if |s.entries| >= MAX_ENTRIES then EvictOldest(s) else s;
      (r.(entries := r.entries[client := NewEntry(l, now)], lru := r.lru + [client]), None)
  }

  function Counted(s: State): State { s.(count := s.count + 1) }

  function Cleaned(l: Limits, s: State, now: real): State {
    if s.count % 1024 == 0 then Cleanup(l, s, now) else s
  }

  function Check(l: Limits, s: State, client: Client, now: real): (State, Option<nat>)
    requires Accepted(l)
  {
    if !l.enabled then (s, None) else Admit(l, Cleaned(l, Counted(s), now), client, now)
  }

  const EMPTY := State(map[], [], 0)

  // ---------------------------------------------------------------- facts about the list

  lemma {:induction false} RemoveAbsent(q: seq<Client>, k: Client)
    requires k !in q
    ensures Remove(q, k) == q
  {
    if q != [] {
      RemoveAbsent(q[1..], k);
    }
  }

  lemma {:induction false} RemoveKeepsOthers(q: seq<Client>, k: Client)
    requires Distinct(q)
    ensures Distinct(Remove(q, k)) && forall x :: x in Remove(q, k) <==> x in q && x != k
  {
    if q != [] {
      RemoveKeepsOthers(q[1..], k);
      assert q == [q[0]] + q[1..];
      assert q[0] != k ==> Remove(q, k)[1..] == Remove(q[1..], k);
    }
  }

  lemma {:induction false} KeepDistinct(q: seq<Client>, kept: set<Client>)
    requires Distinct(q)
    ensures Distinct(Keep(q, kept))
  {
    if q != [] {
      KeepDistinct(q[1..], kept);
      assert q[0] in kept ==> Keep(q, kept)[1..] == Keep(q[1..], kept);
    }
  }

  lemma {:induction false} RemoveFromKept(q: seq<Client>, kept: set<Client>, k: Client)
    requires Distinct(q)
    ensures Remove(Keep(q, kept), k) == Keep(q, kept - {k})
  {
    if q != [] {
      RemoveFromKept(q[1..], kept, k);
      assert q[0] in kept ==> Keep(q, kept)[1..] == Keep(q[1..], kept);
      if q[0] == k {
        RemoveAbsent(Keep(q[1..], kept), k);
      }
    }
  }

  lemma {:induction false} KeepAll(q: seq<Client>, kept: set<Client>)
    requires forall x :: x in q ==> x in kept
    ensures Keep(q, kept) == q
  {
    if q != [] {
      KeepAll(q[1..], kept);
    }
  }

  // ---------------------------------------------------------------- the list agrees with the map

  ghost predicate Listed(s: State) { Lists(s.lru, s.entries.Keys) }

  lemma {:induction false} AppendDistinct(q: seq<Client>, k: Client)
    requires Distinct(q) && k !in q
    ensures Distinct(q + [k])
  {
    if q != [] {
      AppendDistinct(q[1..], k);
      assert (q + [k])[1..] == q[1..] + [k];
    }
  }

  lemma AppendLists(q: seq<Client>, keys: set<Client>, k: Client)
    requires Lists(q, keys) && k !in keys
    ensures Lists(q + [k], keys + {k})
  {
    AppendDistinct(q, k);
  }

  lemma RemoveLists(q: seq<Client>, keys: set<Client>, k: Client)
    requires Lists(q, keys)
    ensures Lists(Remove(q, k), keys - {k})
  {
    RemoveKeepsOthers(q, k);
  }

  lemma EvictKeepsListed(s: State)
    requires Listed(s)
    ensures Listed(EvictOldest(s)) && forall k :: k in EvictOldest(s).entries ==> k in s.entries
  {
    if s.lru != [] {
      var oldest := s.lru[0];
      assert Remove(s.lru, oldest) == s.lru[1..];
      RemoveLists(s.lru, s.entries.Keys, oldest);
      assert EvictOldest(s).entries.Keys == s.entries.Keys - {oldest};
    }
  }

  lemma CleanupKeepsListed(l: Limits, s: State, now: real)
    requires Listed(s)
    ensures Listed(Cleanup(l, s, now))
  {
    KeepDistinct(s.lru, Fresh(l, s.entries, now).Keys);
  }

  /** Enters `client`, which is not there, or moves it to the end. */
  lemma MoveKeepsListed(s: State, client: Client, e: Entry)
    requires Listed(s)
    ensures Listed(s.(entries := s.entries[client := e], lru := Remove(s.lru, client) + [client]))
  {
    RemoveLists(s.lru, s.entries.Keys, client);
    AppendLists(Remove(s.lru, client), s.entries.Keys - {client}, client);
    assert s.entries[client := e].Keys == s.entries.Keys - {client} + {client};
  }

  lemma AdmitKeepsListed(l: Limits, s: State, client: Client, now: real)
    requires Accepted(l) && l.enabled && Listed(s)
    ensures Listed(Admit(l, s, client, now).0)
  {
    if client in s.entries {
      MoveKeepsListed(s, client, Take(l, s.entries[client], now).0);
    } else {
      EvictKeepsListed(s);
      var r := if |s.entries| >= MAX_ENTRIES then EvictOldest(s) else s;
      RemoveAbsent(r.lru, client);
      MoveKeepsListed(r, client, NewEntry(l, now));
    }
  }

  /** The list always holds exactly the clients of the map, each once. */
  lemma CheckKeepsListed(l: Limits, s: State, client: Client, now: real)
    requires Accepted(l) && Listed(s)
    ensures Listed(Check(l, s, client, now).0)
  {
    if l.enabled {
      CleanupKeepsListed(l, Counted(s), now);
      AdmitKeepsListed(l, Cleaned(l, Counted(s), now), client, now);
    }
  }

  // ---------------------------------------------------------------- the cleanup loop

  /** The entries that are left when those in `todo` have not been looked at. */
  function Swept(l: Limits, all: map<Client, Entry>, todo: set<Client>, now: real): map<Client, Entry> {
    map k | k in all && (k in todo || !Stale(l, all[k], now)) :: all[k]
  }

  /** The loop has looked at every entry of `all` but those in `todo`. */
  ghost predicate SweptSoFar(
    l: Limits, all: map<Client, Entry>, order: seq<Client>, todo: set<Client>, now: real,
    entries: map<Client, Entry>, lru: seq<Client>)
  {
    todo <= all.Keys && Distinct(order) && entries == Swept(l, all, todo, now) && lru == Keep(order, entries.Keys)
  }

  lemma SweepStarts(l: Limits, all: map<Client, Entry>, order: seq<Client>, now: real)
    requires Lists(order, all.Keys)
    ensures SweptSoFar(l, all, order, all.Keys, now, all, order)
  {
    assert Swept(l, all, all.Keys, now) == all;
    KeepAll(order, all.Keys);
  }

  lemma SweepEnds(l: Limits, s: State, now: real, entries: map<Client, Entry>, lru: seq<Client>)
    requires SweptSoFar(l, s.entries, s.lru, {}, now, entries, lru)
    ensures Cleanup(l, s, now) == State(entries, lru, s.count)
  {
    assert Swept(l, s.entries, {}, now) == Fresh(l, s.entries, now);
  }

  lemma SweepNext(l: Limits, all: map<Client, Entry>, order: seq<Client>, todo: set<Client>, k: Client, now: real,
                  entries: map<Client, Entry>, lru: seq<Client>)
    requires SweptSoFar(l, all, order, todo, now, entries, lru) && k in todo
    ensures k in entries && entries[k] == all[k]
    ensures if Stale(l, all[k], now) then SweptSoFar(l, all, order, todo - {k}, now, entries - {k}, Remove(lru, k))
            else SweptSoFar(l, all, order, todo - {k}, now, entries, lru)
  {
    var after := Swept(l, all, todo - {k}, now);
    if Stale(l, all[k], now) {
      assert after == entries - {k};
      assert after.Keys == entries.Keys - {k};
      RemoveFromKept(order, entries.Keys, k);
    } else {
      assert after == entries;
    }
  }

  // ---------------------------------------------------------------- the object

  /** A limiter for settings that are in range, and none for any other. */
  method Create(enabled: bool, window: nat, maxRequests: nat, ban: nat) returns (limiter: Option<Limiter>)
    ensures limiter.Some? <==> InRange(enabled, window, maxRequests, ban)
    ensures limiter.Some? ==>
      && fresh(limiter.value) && limiter.value.Valid() && limiter.value.View() == EMPTY && Paced(limiter.value.limits)
      && limiter.value.limits == Limits(enabled, window, maxRequests, ban, limiter.value.limits.refill)
  {
    if enabled {
      if window == 0 || window > 3600 {
        return None;
      }
      if maxRequests == 0 || maxRequests > 1000000 {
        return None;
      }
      if ban > 86400 {
        return None;
      }
    }
    var made := new Limiter(enabled, window, maxRequests, ban);
    limiter := Some(made);
  }

  class Limiter {
    const limits: Limits
    var entries: map<Client, Entry>
    var lru: seq<Client>
    var count: nat

    ghost predicate Valid()
      reads this
    {
      Accepted(limits) && Listed(View())
    }

    ghost function View(): State
      reads this
    {
      State(entries, lru, count)
    }

    constructor (enabled: bool, window: nat, maxRequests: nat, ban: nat)
      requires InRange(enabled, window, maxRequests, ban)
      ensures Valid() && View() == EMPTY && Paced(limits)
      ensures limits == Limits(enabled, window, maxRequests, ban, limits.refill)
    {
      var rate := if window == 0 then 0.0 else maxRequests as real / window as real;
      limits := Limits(enabled, window, maxRequests, ban, d => d * rate);
      entries, lru, count := map[], [], 0;
    }

    method CleanUp(now: real)
      requires Valid()
      modifies this`entries, this`lru
      ensures Valid() && View() == Cleanup(limits, old(View()), now)
    {
      var todo := entries.Keys;
      ghost var all, order := entries, lru;
      CleanupKeepsListed(limits, View(), now);
      SweepStarts(limits, all, order, now);
      while todo != {}
        invariant SweptSoFar(limits, all, order, todo, now, entries, lru) && count == old(count)
        decreases todo
      {
        var k :| k in todo;
        SweepNext(limits, all, order, todo, k, now, entries, lru);
        if Stale(limits, entries[k], now) {
          lru := Remove(lru, k);
          entries := entries - {k};
        }
        todo := todo - {k};
      }
      SweepEnds(limits, old(View()), now, entries, lru);
    }

    method EvictTheOldest()
      modifies this`entries, this`lru
      ensures View() == EvictOldest(old(View()))
    {
      if lru == [] {
        return;
      }
      entries := entries - {lru[0]};
      lru := lru[1..];
    }

    /** The seconds to wait before the next try, unless the request is admitted. */
    method CheckRequest(client: Client, now: real) returns (answer: Option<nat>)
      requires Valid()
      modifies this
      ensures Valid() && (View(), answer) == Check(limits, old(View()), client, now)
    {
      CheckKeepsListed(limits, View(), client, now);
      if !limits.enabled {
        return None;
      }
      count := count + 1;
      assert View() == Counted(old(View()));
      if count % 1024 == 0 {
        CleanUp(now);
      }
      assert View() == Cleaned(limits, Counted(old(View())), now);
      answer := AdmitRequest(client, now);
    }

    method AdmitRequest(client: Client, now: real) returns (answer: Option<nat>)
      requires Accepted(limits) && limits.enabled
      modifies this`entries, this`lru
      ensures (View(), answer) == Admit(limits, old(View()), client, now)
    {
      if client !in entries {
        if |entries| >= MAX_ENTRIES {
          EvictTheOldest();
        }
        entries := entries[client := NewEntry(limits, now)];
        lru := lru + [client];
        return None;
      }
      var entry := entries[client];
      lru := Remove(lru, client) + [client];
      entry, answer := TakeToken(entry, now);
      entries := entries[client := entry];
    }

    method TakeToken(known: Entry, now: real) returns (entry: Entry, answer: Option<nat>)
      requires Accepted(limits) && limits.enabled
      ensures (entry, answer) == Take(limits, known, now)
    {
      entry := known;
      if entry.banned > now {
        return entry, Some(SecondsUntil(entry.banned, now));
      }
      if entry.banned != 0.0 {
        entry := Entry(limits.maxRequests as real, now, 0.0);
      }
      entry := Refilled(limits, entry, now);
      if entry.tokens >= 1.0 {
        return entry.(tokens := entry.tokens - 1.0), None;
      }
      if limits.ban != 0 {
        return entry.(banned := now + limits.ban as real), Some(limits.ban);
      }
      answer := Some(WaitForToken(limits, entry.tokens));
    }
  }
}
