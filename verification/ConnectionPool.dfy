/**
 The pool of idle backend connections. Every critical section of its mutex is one step; what happens to a connection
 outside the mutex, between taking it and deciding what to do with it, is a step of its own. A ledger says where each
 stream is, and the invariant ties it to the pool's lists.
 */
module ConnectionPool {
  import opened Options

  type Key = string

  type Stream = nat

  type Call = nat

  /** An idle connection: since when, and until when it may be used. */
  datatype Conn = Conn(stream: Stream, released: real, expires: real)

  /** A connection that a call of `acquire` has taken and not decided about. */
  datatype Flight = Flight(key: Key, ttl: real, conn: Conn)

  datatype Place = Out | Idle(key: Key) | Taken(call: Call) | Closed

  datatype Pool = Pool(idle: map<Key, seq<Conn>>, next: Option<real>, stopping: bool)

  datatype World = World(pool: Pool, flights: map<Call, Flight>, ledger: map<Stream, Place>)

  // ---------------------------------------------------------------- the critical sections

  /** `acquire` takes the connection that was released last. */
  function Popped(p: Pool, key: Key): Pool
    requires key in p.idle && p.idle[key] != []
  {
    var list := p.idle[key];
    var rest, conn := list[..|list| - 1], list[|list| - 1];
    p.(idle := if rest == [] then p.idle - {key} else p.idle[key := rest],
       next := if p.next.Some? && conn.expires <= p.next.value then None else p.next)
  }

  function ListOf(p: Pool, key: Key): seq<Conn> { if key in p.idle then p.idle[key] else [] }

  function Pushed(p: Pool, key: Key, conn: Conn): Pool {
    p.(idle := p.idle[key := ListOf(p, key) + [conn]],
       next := if p.next.None? || conn.expires < p.next.value then Some(conn.expires) else p.next)
  }

  function Live(list: seq<Conn>, now: real): (r: seq<Conn>)
    ensures forall c :: c in r <==> c in list && c.expires > now
  {
    if list == [] then []
    else if list[0].expires > now then [list[0]] + Live(list[1..], now)
    else Live(list[1..], now)
  }

  function Swept(idle: map<Key, seq<Conn>>, now: real): map<Key, seq<Conn>> {
    map k | k in idle && Live(idle[k], now) != [] :: Live(idle[k], now)
  }

  ghost predicate IdleConn(idle: map<Key, seq<Conn>>, k: Key, c: Conn) { k in idle && c in idle[k] }

  /** `d` is the earliest deadline. */
  ghost predicate Earliest(idle: map<Key, seq<Conn>>, d: real) {
    (exists k, c :: IdleConn(idle, k, c) && c.expires == d) && (forall k, c :: IdleConn(idle, k, c) ==> d <= c.expires)
  }

  // ---------------------------------------------------------------- steps

  datatype Event =
    | Open(stream: Stream)                       // a transaction connects
    | Take(call: Call, key: Key, ttl: real)      // the locked part of acquire
    | Settle(call: Call, now: real, reusable: bool)
    | Release(stream: Stream, key: Key, maximum: nat, ttl: real, now: real, reusable: bool)
    | Clear
    | Stop
    | Recompute(deadline: real)                  // the reaper looks for the next deadline
    | Sweep(now: real)                           // the reaper's wait timed out

  predicate Usable(f: Flight, now: real, reusable: bool) {
    f.ttl > 0.0 && now <= f.conn.expires && now - f.conn.released <= f.ttl && reusable
  }

  predicate Retained(p: Pool, e: Event)
    requires e.Release?
  {
    e.maximum > 0 && e.ttl > 0.0 && e.reusable && !p.stopping && |ListOf(p, e.key)| < e.maximum
  }

  ghost predicate Enabled(w: World, e: Event) {
    match e
    case Open(x) => x !in w.ledger
    case Take(call, _, _) => call !in w.flights
    case Settle(call, _, _) => call in w.flights
    case Release(x, _, _, _, _, _) => x in w.ledger && w.ledger[x] == Out
    case Clear => true
    case Stop => true
    case Recompute(d) => !w.pool.stopping && w.pool.next.None? && Earliest(w.pool.idle, d)
    case Sweep(_) => true
  }

  function CloseAll(ledger: map<Stream, Place>, gone: set<Stream>): map<Stream, Place> {
    map x | x in ledger :: if x in gone then Closed else ledger[x]
  }

  function StreamsOf(list: seq<Conn>): set<Stream> { set c | c in list :: c.stream }

  ghost function IdleStreams(ledger: map<Stream, Place>): set<Stream> { set x | x in ledger && ledger[x].Idle? }

  /** The idle streams that a sweep removes. */
  ghost function ExpiredStreams(w: World, now: real): set<Stream> {
    set x | x in w.ledger && w.ledger[x].Idle?
      && w.ledger[x].key in w.pool.idle && x !in StreamsOf(Live(w.pool.idle[w.ledger[x].key], now))
  }

  ghost function Step(w: World, e: Event): World
    requires Enabled(w, e)
  {
    match e
    case Open(x) => w.(ledger := w.ledger[x := Out])
    case Take(call, key, ttl) =>
      if key !in w.pool.idle || w.pool.idle[key] == [] then w
      else
        var conn := w.pool.idle[key][|w.pool.idle[key]| - 1];
        World(Popped(w.pool, key), w.flights[call := Flight(key, ttl, conn)], w.ledger[conn.stream := Taken(call)])
    case Settle(call, now, reusable) =>
      var f := w.flights[call];
      w.(flights := w.flights - {call},
         ledger := w.ledger[f.conn.stream := if Usable(f, now, reusable) then Out else Closed])
    case Release(x, key, _, ttl, now, _) =>
      if Retained(w.pool, e) then
        w.(pool := Pushed(w.pool, key, Conn(x, now, now + ttl)), ledger := w.ledger[x := Idle(key)])
      else w.(ledger := w.ledger[x := Closed])
    case Clear =>
      w.(pool := w.pool.(idle := map[], next := None), ledger := CloseAll(w.ledger, IdleStreams(w.ledger)))
    case Stop => w.(pool := w.pool.(stopping := true))
    case Recompute(d) => w.(pool := w.pool.(next := Some(d)))
    case Sweep(now) =>
      w.(pool := w.pool.(idle := Swept(w.pool.idle, now), next := None),
         ledger := CloseAll(w.ledger, ExpiredStreams(w, now)))
  }

  // ---------------------------------------------------------------- the invariant

  ghost predicate Distinct(list: seq<Conn>) {
    forall i, j :: 0 <= i < j < |list| ==> list[i].stream != list[j].stream
  }

  /** No key has an empty list. */
  ghost predicate NoEmptyLists(p: Pool) { forall k :: k in p.idle ==> p.idle[k] != [] }

  /** A deadline that is set is that of an idle connection. */
  ghost predicate Witnessed(p: Pool) {
    p.next.Some? ==> exists k, c :: IdleConn(p.idle, k, c) && c.expires == p.next.value
  }

  /** The lists hold exactly the streams that the ledger has there, each once. */
  ghost predicate ListsMatch(idle: map<Key, seq<Conn>>, ledger: map<Stream, Place>) {
    && (forall k :: k in idle ==> Distinct(idle[k]))
    && (forall k, c :: IdleConn(idle, k, c) ==> c.stream in ledger && ledger[c.stream] == Idle(k))
    && (forall x :: x in ledger && ledger[x].Idle? ==> ledger[x].key in idle && x in StreamsOf(idle[ledger[x].key]))
  }

  ghost predicate FlightsMatch(flights: map<Call, Flight>, ledger: map<Stream, Place>) {
    && (forall call :: call in flights ==>
          flights[call].conn.stream in ledger && ledger[flights[call].conn.stream] == Taken(call))
    && (forall x :: x in ledger && ledger[x].Taken? ==>
          ledger[x].call in flights && flights[ledger[x].call].conn.stream == x)
  }

  ghost predicate Inv(w: World) {
    && NoEmptyLists(w.pool) && Witnessed(w.pool)
    && ListsMatch(w.pool.idle, w.ledger) && FlightsMatch(w.flights, w.ledger)
  }

  // ---------------------------------------------------------------- taking

  /** What is idle after a connection was taken: the same without it. */
  lemma PopIdle(p: Pool, key: Key, ledger: map<Stream, Place>, k: Key, c: Conn)
    requires NoEmptyLists(p) && ListsMatch(p.idle, ledger) && key in p.idle
    ensures var conn := p.idle[key][|p.idle[key]| - 1];
      IdleConn(Popped(p, key).idle, k, c) <==> IdleConn(p.idle, k, c) && c.stream != conn.stream
  {
    var list, after := p.idle[key], Popped(p, key).idle;
    var rest, conn := list[..|list| - 1], list[|list| - 1];
    assert list == rest + [conn];
    assert IdleConn(p.idle, key, conn) && Distinct(list);
  }

  lemma PopLists(p: Pool, key: Key, ledger: map<Stream, Place>, place: Place)
    requires NoEmptyLists(p) && ListsMatch(p.idle, ledger) && key in p.idle && !place.Idle?
    ensures var conn := p.idle[key][|p.idle[key]| - 1];
      NoEmptyLists(Popped(p, key)) && ListsMatch(Popped(p, key).idle, ledger[conn.stream := place])
  {
    var after := Popped(p, key).idle;
    var conn := p.idle[key][|p.idle[key]| - 1];
    forall k | k in after ensures Distinct(after[k]) {
      assert Distinct(p.idle[k]);
    }
    forall k, c | IdleConn(after, k, c) ensures c.stream != conn.stream && IdleConn(p.idle, k, c) {
      PopIdle(p, key, ledger, k, c);
    }
    forall x | x in ledger && ledger[x].Idle? && x != conn.stream
      ensures ledger[x].key in after && x in StreamsOf(after[ledger[x].key])
    {
      var k := ledger[x].key;
      var c :| c in p.idle[k] && c.stream == x;
      PopIdle(p, key, ledger, k, c);
      assert IdleConn(after, k, c);
    }
  }

  lemma PopWitness(p: Pool, key: Key)
    requires key in p.idle && p.idle[key] != [] && Witnessed(p)
    ensures Witnessed(Popped(p, key))
  {
    var after := Popped(p, key);
    if after.next.Some? {
      var list := p.idle[key];
      var conn := list[|list| - 1];
      var k, c :| IdleConn(p.idle, k, c) && c.expires == p.next.value;
      assert c != conn && list == list[..|list| - 1] + [conn];
      assert IdleConn(after.idle, k, c);
    }
  }

  lemma TakeKeeps(w: World, call: Call, key: Key, ttl: real)
    requires Inv(w) && Enabled(w, Take(call, key, ttl))
    ensures Inv(Step(w, Take(call, key, ttl)))
  {
    if key in w.pool.idle {
      PopLists(w.pool, key, w.ledger, Taken(call));
      PopWitness(w.pool, key);
      var list := w.pool.idle[key];
      assert IdleConn(w.pool.idle, key, list[|list| - 1]);
    }
  }

  // ---------------------------------------------------------------- giving back

  lemma PushLists(p: Pool, key: Key, ledger: map<Stream, Place>, conn: Conn)
    requires NoEmptyLists(p) && ListsMatch(p.idle, ledger)
    requires conn.stream in ledger && !ledger[conn.stream].Idle?
    ensures NoEmptyLists(Pushed(p, key, conn))
    ensures ListsMatch(Pushed(p, key, conn).idle, ledger[conn.stream := Idle(key)])
  {
    var list, after := ListOf(p, key), Pushed(p, key, conn).idle;
    forall k, c | IdleConn(p.idle, k, c) ensures c.stream != conn.stream {
    }
    forall i | 0 <= i < |list| ensures list[i].stream != conn.stream {
      assert IdleConn(p.idle, key, list[i]);
    }
    forall k, c | IdleConn(after, k, c) ensures IdleConn(p.idle, k, c) || (k == key && c == conn) {
    }
    forall x | x in ledger && ledger[x].Idle? ensures x in StreamsOf(after[ledger[x].key]) {
      var c :| c in p.idle[ledger[x].key] && c.stream == x;
      assert c in after[ledger[x].key];
    }
    assert conn in after[key];
  }

  lemma PushWitness(p: Pool, key: Key, conn: Conn)
    requires Witnessed(p)
    ensures Witnessed(Pushed(p, key, conn))
  {
    var after := Pushed(p, key, conn);
    if after.next == p.next {
      if p.next.Some? {
        var k, c :| IdleConn(p.idle, k, c) && c.expires == p.next.value;
        assert IdleConn(after.idle, k, c);
      }
    } else {
      assert IdleConn(after.idle, key, conn);
    }
  }

  lemma ReleaseKeeps(w: World, e: Event)
    requires Inv(w) && Enabled(w, e) && e.Release?
    ensures Inv(Step(w, e))
  {
    if Retained(w.pool, e) {
      var conn := Conn(e.stream, e.now, e.now + e.ttl);
      PushLists(w.pool, e.key, w.ledger, conn);
      PushWitness(w.pool, e.key, conn);
    }
  }

  // ---------------------------------------------------------------- the reaper

  lemma {:induction false} LiveDistinct(list: seq<Conn>, now: real)
    requires Distinct(list)
    ensures Distinct(Live(list, now))
  {
    if list != [] {
      LiveDistinct(list[1..], now);
      assert forall c :: c in list[1..] ==> c.stream != list[0].stream;
    }
  }

  lemma SweepLists(w: World, now: real)
    requires ListsMatch(w.pool.idle, w.ledger)
    ensures ListsMatch(Swept(w.pool.idle, now), CloseAll(w.ledger, ExpiredStreams(w, now)))
  {
    var idle, after := w.pool.idle, Swept(w.pool.idle, now);
    forall k | k in after ensures Distinct(after[k]) {
      LiveDistinct(idle[k], now);
    }
    forall k, c | IdleConn(after, k, c) ensures IdleConn(idle, k, c) && c.stream !in ExpiredStreams(w, now) {
      assert c in Live(idle[k], now) && IdleConn(idle, k, c);
      assert c.stream in StreamsOf(Live(idle[k], now));
    }
    forall x | x in w.ledger && w.ledger[x].Idle? && x !in ExpiredStreams(w, now)
      ensures w.ledger[x].key in after && x in StreamsOf(after[w.ledger[x].key])
    {
    }
  }

  lemma StepKeeps(w: World, e: Event)
    requires Inv(w) && Enabled(w, e)
    ensures Inv(Step(w, e))
  {
    match e {
      case Take(call, key, ttl) => TakeKeeps(w, call, key, ttl);
      case Release(_, _, _, _, _, _) => ReleaseKeeps(w, e);
      case Sweep(now) => SweepLists(w, now);
      case _ =>
    }
  }

  // ---------------------------------------------------------------- all runs

  const EMPTY := World(Pool(map[], None, false), map[], map[])

  ghost predicate Run(ws: seq<World>, events: seq<Event>) {
    && |ws| == |events| + 1 && ws[0] == EMPTY
    && forall i :: 0 <= i < |events| ==> Enabled(ws[i], events[i]) && ws[i + 1] == Step(ws[i], events[i])
  }

  lemma {:induction false} RunInv(ws: seq<World>, events: seq<Event>, i: nat)
    requires Run(ws, events) && i < |ws|
    ensures Inv(ws[i])
  {
    if i > 0 {
      RunInv(ws, events, i - 1);
      assert Enabled(ws[i - 1], events[i - 1]) && ws[i] == Step(ws[i - 1], events[i - 1]);
      StepKeeps(ws[i - 1], events[i - 1]);
    }
  }

  /**
   In every state of every run a stream that was opened is in exactly one place: the ledger gives it one, an idle
   stream is in the list of its own key, once, and in no other list, and a taken one belongs to one call.
   */
  lemma EachStreamInOnePlace(ws: seq<World>, events: seq<Event>, i: nat, k: Key, c: Conn, other: Key, d: Conn)
    requires Run(ws, events) && i < |ws|
    requires IdleConn(ws[i].pool.idle, k, c) && IdleConn(ws[i].pool.idle, other, d) && c.stream == d.stream
    ensures k == other && c == d && c.stream in ws[i].ledger && ws[i].ledger[c.stream] == Idle(k)
    ensures forall call :: call in ws[i].flights ==> ws[i].flights[call].conn.stream != c.stream
  {
    RunInv(ws, events, i);
    assert Distinct(ws[i].pool.idle[k]);
  }

  /** No list is empty, and a deadline that is set is that of an idle connection. */
  lemma DeadlineIsWitnessed(ws: seq<World>, events: seq<Event>, i: nat)
    requires Run(ws, events) && i < |ws|
    ensures NoEmptyLists(ws[i].pool) && Witnessed(ws[i].pool)
  {
    RunInv(ws, events, i);
  }

  /** A stream leaves the pool for a transaction only before its deadline and within the caller's own limit. */
  lemma HandedOutInTime(w: World, e: Event, x: Stream)
    requires Inv(w) && Enabled(w, e) && x in w.ledger && w.ledger[x] != Out && Step(w, e).ledger[x] == Out
    ensures e.Settle? && e.reusable && w.ledger[x] == Taken(e.call)
    ensures var f := w.flights[e.call];
      f.conn.stream == x && e.now <= f.conn.expires && e.now - f.conn.released <= f.ttl
  {
  }

  /** A closed stream is never used again. */
  lemma ClosedStaysClosed(w: World, e: Event, x: Stream)
    requires Inv(w) && Enabled(w, e) && x in w.ledger && w.ledger[x] == Closed
    ensures Step(w, e).ledger[x] == Closed
  {
    if e.Take? && e.key in w.pool.idle {
      var list := w.pool.idle[e.key];
      assert IdleConn(w.pool.idle, e.key, list[|list| - 1]);
    }
  }

  /** A sweep closes exactly the idle streams whose deadline has passed. */
  lemma SweepClosesExpired(w: World, now: real, k: Key, c: Conn)
    requires Inv(w) && Enabled(w, Sweep(now)) && IdleConn(w.pool.idle, k, c)
    ensures var after := Step(w, Sweep(now));
      && (IdleConn(after.pool.idle, k, c) <==> c.expires > now)
      && (after.ledger[c.stream] == Closed <==> c.expires <= now)
  {
    if c.expires > now {
      assert c in Live(w.pool.idle[k], now);
    } else {
      assert Distinct(w.pool.idle[k]);
      assert c.stream !in StreamsOf(Live(w.pool.idle[k], now));
    }
  }

  // ---------------------------------------------------------------- what is kept, and for whom

  /** How many connections of the key are idle. */
  function Idling(p: Pool, key: Key): nat { if key in p.idle then |p.idle[key]| else 0 }

  /**
   A released stream is kept exactly if it is reusable, has time left to live, the pool goes on and fewer streams of
   its key are idle than the caller allows; it is kept with its own deadline. Otherwise it is closed and the pool stays
   as it is.
   */
  lemma ReleaseOutcome(w: World, e: Event)
    requires Inv(w) && Enabled(w, e) && e.Release?
    ensures var t := Step(w, e);
      && (t.ledger[e.stream] == Idle(e.key) <==>
            e.reusable && e.ttl > 0.0 && !w.pool.stopping && Idling(w.pool, e.key) < e.maximum)
      && (if t.ledger[e.stream] == Idle(e.key)
          then IdleConn(t.pool.idle, e.key, Conn(e.stream, e.now, e.now + e.ttl))
               && Idling(t.pool, e.key) == Idling(w.pool, e.key) + 1 <= e.maximum
          else t.ledger[e.stream] == Closed && t.pool == w.pool)
      && (forall k :: k != e.key ==> Idling(t.pool, k) == Idling(w.pool, k))
  {
  }

  /** A stream that is kept is the next one of its key to be taken, and taking it leaves the lists as they were. */
  lemma ReleaseThenTake(w: World, e: Event, call: Call, ttl: real)
    requires Inv(w) && Enabled(w, e) && e.Release? && Step(w, e).ledger[e.stream] == Idle(e.key) && call !in w.flights
    ensures var t := Step(Step(w, e), Take(call, e.key, ttl));
      && t.flights == w.flights[call := Flight(e.key, ttl, Conn(e.stream, e.now, e.now + e.ttl))]
      && t.ledger == w.ledger[e.stream := Taken(call)] && t.pool.idle == w.pool.idle
  {
    var conn, list := Conn(e.stream, e.now, e.now + e.ttl), ListOf(w.pool, e.key);
    var t := Step(w, e);
    assert t.pool.idle == w.pool.idle[e.key := list + [conn]];
    assert (list + [conn])[..|list + [conn]| - 1] == list && (list + [conn])[|list + [conn]| - 1] == conn;
    assert t.ledger[e.stream := Taken(call)] == w.ledger[e.stream := Taken(call)];
    PopRestores(w.pool.idle, e.key, list + [conn]);
  }

  lemma PopRestores(idle: map<Key, seq<Conn>>, key: Key, list: seq<Conn>)
    ensures key !in idle ==> idle[key := list] - {key} == idle
    ensures key in idle ==> idle[key := list][key := idle[key]] == idle
  {
  }

  /** A connection that was taken is used exactly if it may still live, for its owner and for the caller. */
  lemma SettleOutcome(w: World, e: Event)
    requires Inv(w) && Enabled(w, e) && e.Settle?
    ensures var f, t := w.flights[e.call], Step(w, e);
      && (t.ledger[f.conn.stream] == Out <==>
            e.reusable && f.ttl > 0.0 && e.now <= f.conn.expires && e.now <= f.conn.released + f.ttl)
      && (t.ledger[f.conn.stream] == Out || t.ledger[f.conn.stream] == Closed) && t.pool == w.pool
  {
  }

  lemma {:induction false} LiveIsShorter(list: seq<Conn>, now: real)
    ensures |Live(list, now)| <= |list|
  {
    if list != [] {
      LiveIsShorter(list[1..], now);
    }
  }

  /** Only a release makes a list longer, and not longer than it allows. */
  lemma ListGrows(w: World, e: Event, key: Key)
    requires Inv(w) && Enabled(w, e) && Idling(Step(w, e).pool, key) > Idling(w.pool, key)
    ensures e.Release? && e.key == key && Idling(Step(w, e).pool, key) <= e.maximum
  {
    match e {
      case Release(_, _, _, _, _, _) => ReleaseOutcome(w, e);
      case Sweep(now) =>
        if key in w.pool.idle {
          LiveIsShorter(w.pool.idle[key], now);
        }
      case _ =>
    }
  }

  predicate ReleasesWithin(e: Event, key: Key, bound: nat) { e.Release? && e.key == key ==> e.maximum <= bound }

  lemma WithinStep(ws: seq<World>, events: seq<Event>, i: nat, key: Key, bound: nat)
    requires Run(ws, events) && i < |events| && ReleasesWithin(events[i], key, bound)
    requires Idling(ws[i].pool, key) <= bound
    ensures Idling(ws[i + 1].pool, key) <= bound
  {
    RunInv(ws, events, i);
    if Idling(ws[i + 1].pool, key) > bound {
      ListGrows(ws[i], events[i], key);
    }
  }

  /** In every run the idle connections of a key are at most as many as the releases of that key allow. */
  lemma {:induction false} ListsStayWithin(ws: seq<World>, events: seq<Event>, i: nat, key: Key, bound: nat)
    requires Run(ws, events) && i < |ws| && forall j: nat :: j < i ==> ReleasesWithin(events[j], key, bound)
    ensures Idling(ws[i].pool, key) <= bound
  {
    if i > 0 {
      ListsStayWithin(ws, events, i - 1, key, bound);
      WithinStep(ws, events, i - 1, key, bound);
    }
  }

  // ---------------------------------------------------------------- when the deadline is the earliest

  /** A deadline that is set is not later than that of any idle connection. */
  ghost predicate NextIsEarliest(p: Pool) {
    p.next.Some? ==> forall k, c :: IdleConn(p.idle, k, c) ==> p.next.value <= c.expires
  }

  /** The release of a connection while no deadline is set and an idle one expires before it. */
  ghost predicate Overtakes(p: Pool, e: Event) {
    e.Release? && Retained(p, e) && p.next.None? && exists k, c :: IdleConn(p.idle, k, c) && c.expires < e.now + e.ttl
  }

  lemma PushEarliestIff(p: Pool, key: Key, conn: Conn)
    requires NextIsEarliest(p)
    ensures NextIsEarliest(Pushed(p, key, conn)) <==>
            !(p.next.None? && exists k, c :: IdleConn(p.idle, k, c) && c.expires < conn.expires)
  {
    var after := Pushed(p, key, conn);
    forall k, c | IdleConn(p.idle, k, c) ensures IdleConn(after.idle, k, c) {
    }
    forall k, c | IdleConn(after.idle, k, c) ensures IdleConn(p.idle, k, c) || c == conn {
    }
  }

  /** Exactly such a release makes the deadline later than the earliest. */
  lemma EarliestKeptIff(w: World, e: Event)
    requires Inv(w) && Enabled(w, e) && NextIsEarliest(w.pool)
    ensures NextIsEarliest(Step(w, e).pool) <==> !Overtakes(w.pool, e)
  {
    match e {
      case Release(x, key, _, ttl, now, _) =>
        if Retained(w.pool, e) {
          PushEarliestIff(w.pool, key, Conn(x, now, now + ttl));
        }
      case Take(call, key, ttl) =>
        if key in w.pool.idle {
          PopEarliest(w.pool, key);
        }
      case _ =>
    }
  }

  lemma PopEarliest(p: Pool, key: Key)
    requires key in p.idle && p.idle[key] != [] && NextIsEarliest(p)
    ensures NextIsEarliest(Popped(p, key))
  {
    var after := Popped(p, key);
    var list := p.idle[key];
    forall k, c | IdleConn(after.idle, k, c) ensures IdleConn(p.idle, k, c) {
      assert k == key ==> c in list[..|list| - 1] && c in list;
    }
  }

  lemma EarliestKeptAt(ws: seq<World>, events: seq<Event>, i: nat)
    requires Run(ws, events) && i < |events| && NextIsEarliest(ws[i].pool)
    ensures NextIsEarliest(ws[i + 1].pool) <==> !Overtakes(ws[i].pool, events[i])
  {
    RunInv(ws, events, i);
    EarliestKeptIff(ws[i], events[i]);
  }

  lemma {:induction false} EarliestUntil(ws: seq<World>, events: seq<Event>, i: nat)
    requires Run(ws, events) && i < |ws| && forall j: nat :: j < i ==> !Overtakes(ws[j].pool, events[j])
    ensures NextIsEarliest(ws[i].pool)
  {
    if i > 0 {
      EarliestUntil(ws, events, i - 1);
      EarliestKeptAt(ws, events, i - 1);
    }
  }

  /** The deadline is the earliest in every state of a run if and only if no step of the run overtakes. */
  lemma EarliestIff(ws: seq<World>, events: seq<Event>)
    requires Run(ws, events)
    ensures (forall i: nat :: i < |ws| ==> NextIsEarliest(ws[i].pool)) <==>
            (forall i: nat :: i < |events| ==> !Overtakes(ws[i].pool, events[i]))
  {
    if forall i: nat :: i < |events| ==> !Overtakes(ws[i].pool, events[i]) {
      forall i: nat | i < |ws| ensures NextIsEarliest(ws[i].pool) {
        EarliestUntil(ws, events, i);
      }
    } else if forall i: nat :: i < |ws| ==> NextIsEarliest(ws[i].pool) {
      var i: nat :| i < |events| && Overtakes(ws[i].pool, events[i]);
      EarliestKeptAt(ws, events, i);
    }
  }

  ghost predicate Reachable(w: World) { exists ws, events :: Run(ws, events) && w == ws[|ws| - 1] }

  lemma ReachNext(w: World, e: Event)
    requires Reachable(w) && Enabled(w, e)
    ensures Reachable(Step(w, e))
  {
    var ws, events :| Run(ws, events) && w == ws[|ws| - 1];
    assert Run(ws + [Step(w, e)], events + [e]);
  }

  lemma ReachEmpty()
    ensures Reachable(EMPTY)
  {
    var ws, events: seq<Event> := [EMPTY], [];
    assert Run(ws, events);
  }

  lemma Opened(w: World, x: Stream) returns (after: World)
    requires Reachable(w) && x !in w.ledger
    ensures Reachable(after) && after == w.(ledger := w.ledger[x := Out])
  {
    ReachNext(w, Open(x));
    after := Step(w, Open(x));
  }

  lemma Released(w: World, x: Stream, key: Key, ttl: real) returns (after: World)
    requires Reachable(w) && x in w.ledger && w.ledger[x] == Out && ttl > 0.0 && !w.pool.stopping
    ensures Reachable(after)
    ensures after == w.(pool := Pushed(w.pool, key, Conn(x, 0.0, ttl)), ledger := w.ledger[x := Idle(key)])
  {
    var e := Release(x, key, |ListOf(w.pool, key)| + 1, ttl, 0.0, true);
    ReachNext(w, e);
    after := Step(w, e);
    assert 0.0 + ttl == ttl;
  }

  /**
   The pool does reach states whose deadline is too late: of two idle connections the one that expires first is
   taken, which clears the deadline, and a third that expires last is released before the reaper looks again.
   */
  lemma DeadlineCanBeLate(key: Key, early: real, middle: real, late: real)
    requires 0.0 < early < middle < late
    ensures exists w :: Reachable(w) && !NextIsEarliest(w.pool)
  {
    ReachEmpty();
    var a, b, c: Stream := 1, 2, 3;
    var w := Opened(EMPTY, a);
    w := Opened(w, b);
    w := Opened(w, c);
    w := Released(w, a, key, middle);
    w := Released(w, b, key, early);
    var first, second := Conn(a, 0.0, middle), Conn(b, 0.0, early);
    assert w.pool.idle[key] == [first, second] && w.pool.next == Some(early);
    var e := Take(0, key, 1.0);
    ReachNext(w, e);
    w := Step(w, e);
    assert w.pool.idle[key] == [first] && w.pool.next == None;
    w := Released(w, c, key, late);
    assert IdleConn(w.pool.idle, key, first) && w.pool.next == Some(late);
  }

  // ---------------------------------------------------------------- the object

  lemma {:induction false} LiveAppend(list: seq<Conn>, c: Conn, now: real)
    ensures Live(list + [c], now) == Live(list, now) + (if c.expires > now then [c] else [])
  {
    if list != [] {
      LiveAppend(list[1..], c, now);
      assert (list + [c])[1..] == list[1..] + [c];
    }
  }

  /** The lists after the keys outside `todo` were swept. */
  function PartlySwept(idle: map<Key, seq<Conn>>, todo: set<Key>, now: real): map<Key, seq<Conn>> {
    map k | k in idle && (k in todo || Live(idle[k], now) != []) :: if k in todo then idle[k] else Live(idle[k], now)
  }

  lemma SweepNext(idle: map<Key, seq<Conn>>, todo: set<Key>, k: Key, now: real)
    requires k in todo && todo <= idle.Keys
    ensures var before, after := PartlySwept(idle, todo, now), PartlySwept(idle, todo - {k}, now);
      && k in before && before[k] == idle[k]
      && after == if Live(idle[k], now) == [] then before - {k} else before[k := Live(idle[k], now)]
  {
  }

  class Connections {
    var idle: map<Key, seq<Conn>>
    var next: Option<real>
    var stopping: bool

    ghost function View(): Pool
      reads this
    {
      Pool(idle, next, stopping)
    }

    constructor ()
      ensures View() == EMPTY.pool
    {
      idle, next, stopping := map[], None, false;
    }

    /** The locked part of `acquire`. */
    method TakeIdle(key: Key) returns (taken: Option<Conn>)
      requires NoEmptyLists(View())
      modifies this
      ensures taken.None? <==> key !in old(idle)
      ensures taken.None? ==> View() == old(View())
      ensures taken.Some? ==>
        taken.value == old(idle)[key][|old(idle)[key]| - 1] && View() == Popped(old(View()), key)
    {
      if key !in idle {
        return None;
      }
      var connections := idle[key];
      var connection := connections[|connections| - 1];
      connections := connections[..|connections| - 1];
      if connections == [] {
        idle := idle - {key};
      } else {
        idle := idle[key := connections];
      }
      if next.Some? && connection.expires <= next.value {
        next := None;
      }
      taken := Some(connection);
    }

    /** Keeps the stream, or tells the caller to close it. */
    method GiveBack(key: Key, stream: Stream, maximum: nat, ttl: real, now: real, reusable: bool)
      returns (retained: bool)
      modifies this
      ensures retained <==> reusable && ttl > 0.0 && !old(stopping) && Idling(old(View()), key) < maximum
      ensures View() == if retained then Pushed(old(View()), key, Conn(stream, now, now + ttl)) else old(View())
    {
      if maximum == 0 || ttl <= 0.0 || !reusable {
        return false;
      }
      if !stopping {
        var connections := if key in idle then idle[key] else [];
        if |connections| < maximum {
          var expires := now + ttl;
          idle := idle[key := connections + [Conn(stream, now, expires)]];
          if next.None? || expires < next.value {
            next := Some(expires);
          }
          return true;
        }
      }
      return false;
    }

    method TakeAll() returns (all: map<Key, seq<Conn>>)
      modifies this
      ensures all == old(idle) && View() == old(View()).(idle := map[], next := None)
    {
      all := idle;
      idle, next := map[], None;
    }

    /** The reaper looks for the next deadline when none is set. */
    method FindDeadline()
      requires next.None?
      modifies this`next
      ensures next.None? <==> forall k, c :: !IdleConn(idle, k, c)
      ensures next.Some? ==> Earliest(idle, next.value)
    {
      var todo := idle.Keys;
      while todo != {}
        invariant todo <= idle.Keys
        invariant next.None? ==> forall k, c :: IdleConn(idle, k, c) ==> k in todo
        invariant next.Some? ==> exists k, c :: IdleConn(idle, k, c) && c.expires == next.value
        invariant next.Some? ==> forall k, c :: IdleConn(idle, k, c) && k !in todo ==> next.value <= c.expires
        decreases todo
      {
        var key :| key in todo;
        assert forall c :: c in idle[key] ==> IdleConn(idle, key, c);
        FindDeadlineOf(key);
        todo := todo - {key};
      }
    }

    /** The inner loop: the deadline becomes the earliest of what it was and the list of `key`. */
    method FindDeadlineOf(key: Key)
      requires key in idle
      modifies this`next
      ensures old(next).Some? ==> next.Some? && next.value <= old(next).value
      ensures next.None? <==> old(next).None? && idle[key] == []
      ensures next.Some? ==> next == old(next) || exists c :: c in idle[key] && c.expires == next.value
      ensures next.Some? ==> forall c :: c in idle[key] ==> next.value <= c.expires
    {
      var list := idle[key];
      var i := 0;
      while i < |list|
        invariant 0 <= i <= |list|
        invariant old(next).Some? ==> next.Some? && next.value <= old(next).value
        invariant next.None? <==> old(next).None? && i == 0
        invariant next.Some? ==> next == old(next) || exists c :: c in list && c.expires == next.value
        invariant next.Some? ==> forall j :: 0 <= j < i ==> next.value <= list[j].expires
      {
        if next.None? || list[i].expires < next.value {
          next := Some(list[i].expires);
        }
        i := i + 1;
      }
    }

    /** Removes what has expired; the caller closes it. */
    method SweepExpired(now: real)
      modifies this
      ensures View() == old(View()).(idle := Swept(old(idle), now), next := None)
    {
      ghost var all := idle;
      var todo := idle.Keys;
      assert PartlySwept(all, todo, now) == all;
      while todo != {}
        invariant todo <= all.Keys && idle == PartlySwept(all, todo, now) && stopping == old(stopping)
        decreases todo
      {
        var key :| key in todo;
        SweepNext(all, todo, key, now);
        var live := KeepLive(idle[key], now);
        if live == [] {
          idle := idle - {key};
        } else {
          idle := idle[key := live];
        }
        todo := todo - {key};
      }
      assert PartlySwept(all, {}, now) == Swept(all, now);
      next := None;
    }

    method KeepLive(list: seq<Conn>, now: real) returns (live: seq<Conn>)
      ensures live == Live(list, now)
    {
      live := [];
      var i := 0;
      while i < |list|
        invariant 0 <= i <= |list| && live == Live(list[..i], now)
      {
        LiveAppend(list[..i], list[i], now);
        assert list[..i + 1] == list[..i] + [list[i]];
        if list[i].expires > now {
          live := live + [list[i]];
        }
        i := i + 1;
      }
      assert list[..i] == list;
    }
  }
}
