/**
 The bounded queue in front of the log writer: what it drops, what a failure of the writer loses, and that what is
 written is in order.
 */
module LogQueue {
  import opened Options

  /** Events are numbered in the order in which they are offered. */
  datatype Event = Event(access: bool, number: nat)

  /**
   The queue and its counters. `offered*`, `hand`, `written` and `lost` record what went in and what became of it:
   `hand` has the event that the writer has taken and not yet written, `lost` what was accepted and never written.
   */
  datatype Queue = Queue(
    capacity: nat, queue: seq<Event>, stopping: bool,
    acceptedAccess: nat, acceptedError: nat, droppedAccess: nat, droppedError: nat,
    offeredAccess: nat, offeredError: nat, hand: seq<Event>, written: seq<Event>, lost: seq<Event>)

  function Start(capacity: nat): Queue { Queue(capacity, [], false, 0, 0, 0, 0, 0, 0, [], [], []) }

  function Offered(q: Queue): nat { q.offeredAccess + q.offeredError }

  /** The position of the first access event, or the length. */
  function FirstAccess(events: seq<Event>, i: nat): (j: nat)
    requires i <= |events|
    ensures i <= j <= |events| && (j < |events| ==> events[j].access)
    ensures forall k :: i <= k < j ==> !events[k].access
    decreases |events| - i
  {
    if i == |events| || events[i].access then i else FirstAccess(events, i + 1)
  }

  function Dropped(q: Queue, access: bool): Queue {
    if access then q.(droppedAccess := q.droppedAccess + 1, offeredAccess := q.offeredAccess + 1)
    else q.(droppedError := q.droppedError + 1, offeredError := q.offeredError + 1)
  }

  function Accepted(q: Queue, access: bool): Queue {
    var pushed := q.(queue := q.queue + [Event(access, Offered(q))]);
    if access then pushed.(acceptedAccess := q.acceptedAccess + 1, offeredAccess := q.offeredAccess + 1)
    else pushed.(acceptedError := q.acceptedError + 1, offeredError := q.offeredError + 1)
  }

  function Without(events: seq<Event>, i: nat): seq<Event>
    requires i < |events|
  {
    events[..i] + events[i + 1..]
  }

  /** Takes the access event at `i` out of the queue: it was accepted and is dropped after all. */
  function Evicted(q: Queue, i: nat): Queue
    requires i < |q.queue|
  {
    q.(queue := Without(q.queue, i),
       acceptedAccess := if q.acceptedAccess > 0 then q.acceptedAccess - 1 else 0,
       droppedAccess := q.droppedAccess + 1)
  }

  /** An access event gives way to an error event when there is no room. */
  function Enqueue(q: Queue, access: bool): Queue {
    if q.stopping then Dropped(q, access)
    else if |q.queue| < q.capacity then Accepted(q, access)
    else if access then Dropped(q, access)
    else
      var i := FirstAccess(q.queue, 0);
      if i == |q.queue| then Dropped(q, access) else Accepted(Evicted(q, i), access)
  }

  /** The writer takes the oldest event when it has written the one before. */
  function Taken(q: Queue): Queue {
    if q.queue == [] || q.hand != [] then q else q.(queue := q.queue[1..], hand := [q.queue[0]])
  }

  /** The event that the writer has taken is in the file. */
  function Written(q: Queue): Queue { q.(hand := [], written := q.written + q.hand) }

  /** A write throws: the writer ends, the queue is emptied and closed, and no counter says so. */
  function Failed(q: Queue): Queue { q.(queue := [], hand := [], lost := q.lost + q.hand + q.queue, stopping := true) }

  // ---------------------------------------------------------------- what every step keeps

  function Count(events: seq<Event>, access: bool): nat {
    if events == [] then 0 else Count(events[1..], access) + (if events[0].access == access then 1 else 0)
  }

  /** Numbers increase and stay below the number of events offered. */
  predicate InOrder(events: seq<Event>, offered: nat) {
    && (forall i, j :: 0 <= i < j < |events| ==> events[i].number < events[j].number)
    && (forall i :: 0 <= i < |events| ==> events[i].number < offered)
  }

  /** How many events of a kind are written, being written or waiting. */
  function Kept(q: Queue, access: bool): nat {
    Count(q.written, access) + Count(q.hand, access) + Count(q.queue, access)
  }

  /** What was accepted is kept or lost, what was offered is accepted or dropped. */
  ghost predicate Counters(q: Queue) {
    && q.acceptedAccess == Kept(q, true) + Count(q.lost, true)
    && q.acceptedError == Kept(q, false) + Count(q.lost, false)
    && q.acceptedAccess + q.droppedAccess == q.offeredAccess
    && q.acceptedError + q.droppedError == q.offeredError
  }

  ghost predicate Valid(q: Queue) {
    Counters(q) && |q.queue| <= q.capacity && |q.hand| <= 1 && InOrder(q.written + q.hand + q.queue, Offered(q))
  }

  lemma {:induction false} CountAppend(a: seq<Event>, b: seq<Event>, access: bool)
    ensures Count(a + b, access) == Count(a, access) + Count(b, access)
  {
    if a == [] {
      assert a + b == b;
    } else {
      assert (a + b)[0] == a[0] && (a + b)[1..] == a[1..] + b;
      CountAppend(a[1..], b, access);
    }
  }

  lemma CountOne(e: Event, access: bool)
    ensures Count([e], access) == if e.access == access then 1 else 0
  {
    assert [e][1..] == [];
  }

  lemma AcceptKeeps(q: Queue, access: bool)
    requires Counters(q) && |q.queue| < q.capacity && |q.hand| <= 1
    requires InOrder(q.written + q.hand + q.queue, Offered(q))
    ensures Valid(Accepted(q, access))
  {
    var e := Event(access, Offered(q));
    CountAppend(q.queue, [e], true);
    CountAppend(q.queue, [e], false);
    CountOne(e, true);
    CountOne(e, false);
    var kept := q.written + q.hand + q.queue;
    assert q.written + q.hand + (q.queue + [e]) == kept + [e];
    assert forall i :: 0 <= i < |kept| ==> (kept + [e])[i] == kept[i];
  }

  lemma CountWithout(a: seq<Event>, i: nat, access: bool)
    requires i < |a|
    ensures Count(Without(a, i), access) + (if a[i].access == access then 1 else 0) == Count(a, access)
  {
    var x, y := a[..i], a[i + 1..];
    assert a == x + ([a[i]] + y);
    CountAppend(x, [a[i]] + y, access);
    CountAppend([a[i]], y, access);
    CountAppend(x, y, access);
    CountOne(a[i], access);
  }

  lemma OrderWithout(a: seq<Event>, b: seq<Event>, i: nat, offered: nat)
    requires i < |b| && InOrder(a + b, offered)
    ensures InOrder(a + Without(b, i), offered)
  {
    var all, less := a + b, a + Without(b, i);
    assert forall k :: 0 <= k < |less| ==> less[k] == all[if k < |a| + i then k else k + 1];
  }

  lemma EvictKeeps(q: Queue, i: nat)
    requires Valid(q) && i < |q.queue| && q.queue[i].access
    ensures Counters(Evicted(q, i)) && InOrder(q.written + q.hand + Evicted(q, i).queue, Offered(Evicted(q, i)))
  {
    CountWithout(q.queue, i, true);
    CountWithout(q.queue, i, false);
    OrderWithout(q.written + q.hand, q.queue, i, Offered(q));
  }

  lemma DropKeeps(q: Queue, access: bool)
    requires Valid(q)
    ensures Valid(Dropped(q, access))
  {
  }

  lemma EnqueueKeeps(q: Queue, access: bool)
    requires Valid(q)
    ensures Valid(Enqueue(q, access))
  {
    DropKeeps(q, access);
    if !q.stopping {
      if |q.queue| < q.capacity {
        AcceptKeeps(q, access);
      } else if !access {
        var i := FirstAccess(q.queue, 0);
        if i < |q.queue| {
          EvictKeeps(q, i);
          AcceptKeeps(Evicted(q, i), access);
        }
      }
    }
  }

  lemma TakeKeeps(q: Queue)
    requires Valid(q)
    ensures Valid(Taken(q))
  {
    if q.queue != [] && q.hand == [] {
      var e, rest := q.queue[0], q.queue[1..];
      assert q.queue == [e] + rest;
      assert q.written + [e] + rest == q.written + q.hand + q.queue;
      CountAppend([e], rest, true);
      CountAppend([e], rest, false);
    }
  }

  lemma WriteKeeps(q: Queue)
    requires Valid(q)
    ensures Valid(Written(q))
  {
    CountAppend(q.written, q.hand, true);
    CountAppend(q.written, q.hand, false);
    assert q.written + q.hand + [] + q.queue == q.written + q.hand + q.queue;
  }

  lemma FailCounts(q: Queue, access: bool)
    ensures Kept(Failed(q), access) + Count(Failed(q).lost, access) == Kept(q, access) + Count(q.lost, access)
  {
    CountAppend(q.lost, q.hand, access);
    CountAppend(q.lost + q.hand, q.queue, access);
  }

  lemma FailKeeps(q: Queue)
    requires Valid(q)
    ensures Valid(Failed(q))
  {
    FailCounts(q, true);
    FailCounts(q, false);
    OrderOfPrefix(q.written + q.hand, q.queue, Offered(q));
    OrderOfPrefix(q.written, q.hand, Offered(q));
    assert q.written + [] + [] == q.written;
  }

  lemma OrderOfPrefix(a: seq<Event>, b: seq<Event>, offered: nat)
    requires InOrder(a + b, offered)
    ensures InOrder(a, offered)
  {
    assert forall i :: 0 <= i < |a| ==> (a + b)[i] == a[i];
  }

  /** An error event is refused only at the end, or by a queue that is full of error events. */
  lemma ErrorsArePreferred(q: Queue)
    requires Valid(q) && Enqueue(q, false).droppedError > q.droppedError
    ensures q.stopping || (|q.queue| == q.capacity && Count(q.queue, true) == 0)
  {
    if !q.stopping {
      NoAccess(q.queue);
    }
  }

  lemma {:induction false} NoAccess(events: seq<Event>)
    ensures (forall k :: 0 <= k < |events| ==> !events[k].access) ==> Count(events, true) == 0
  {
    if events != [] {
      NoAccess(events[1..]);
    }
  }

  // ---------------------------------------------------------------- what becomes of an offer

  /** The event that is offered next. */
  function Newest(q: Queue, access: bool): Event { Event(access, Offered(q)) }

  ghost predicate HasAccess(events: seq<Event>) { exists e :: e in events && e.access }

  lemma FirstAccessIff(events: seq<Event>)
    ensures FirstAccess(events, 0) < |events| <==> HasAccess(events)
  {
    if HasAccess(events) {
      var e :| e in events && e.access;
      var i :| 0 <= i < |events| && events[i] == e;
    }
  }

  /**
   An offer is queued exactly if the queue is open and has room, or is full of events of which one is an access event
   while an error event is offered. Otherwise it is dropped, and the queue stays as it is.
   */
  lemma OfferOutcome(q: Queue, access: bool)
    requires Valid(q)
    ensures var after := Enqueue(q, access);
      && (Newest(q, access) in after.queue <==>
            !q.stopping && (|q.queue| < q.capacity || (!access && HasAccess(q.queue))))
      && (Newest(q, access) !in after.queue ==>
            after.queue == q.queue
            && after.droppedAccess == q.droppedAccess + (if access then 1 else 0)
            && after.droppedError == q.droppedError + (if access then 0 else 1))
  {
    FirstAccessIff(q.queue);
    var kept := q.written + q.hand + q.queue;
    forall e | e in q.queue ensures e.number < Offered(q) {
      var i :| 0 <= i < |q.queue| && q.queue[i] == e;
      assert kept[|q.written + q.hand| + i] == e;
    }
  }

  /** Who gives way to an error event is the oldest access event and nobody else; the rest stays in order. */
  lemma OldestAccessGivesWay(q: Queue) returns (i: nat)
    requires Valid(q) && !q.stopping && |q.queue| == q.capacity && HasAccess(q.queue)
    ensures i < |q.queue| && q.queue[i].access && forall j :: 0 <= j < i ==> !q.queue[j].access
    ensures Enqueue(q, false).queue == q.queue[..i] + q.queue[i + 1..] + [Newest(q, false)]
    ensures Enqueue(q, false).droppedAccess == q.droppedAccess + 1 && Enqueue(q, false).droppedError == q.droppedError
  {
    FirstAccessIff(q.queue);
    i := FirstAccess(q.queue, 0);
  }

  // ---------------------------------------------------------------- runs

  datatype Step = Offer(access: bool) | Take | Finish | Fail | Stop

  function Next(q: Queue, s: Step): Queue {
    match s
    case Offer(access) => Enqueue(q, access)
    case Take => Taken(q)
    case Finish => Written(q)
    case Fail => Failed(q)
    case Stop => q.(stopping := true)
  }

  function After(q: Queue, steps: seq<Step>): Queue {
    if steps == [] then q else Next(After(q, steps[..|steps| - 1]), steps[|steps| - 1])
  }

  lemma StepKeeps(q: Queue, s: Step)
    requires Valid(q)
    ensures Valid(Next(q, s))
  {
    match s
    case Offer(access) => EnqueueKeeps(q, access);
    case Take => TakeKeeps(q);
    case Finish => WriteKeeps(q);
    case Fail => FailKeeps(q);
    case Stop =>
  }

  lemma {:induction false} RunKeeps(capacity: nat, steps: seq<Step>)
    ensures Valid(After(Start(capacity), steps))
  {
    if steps != [] {
      RunKeeps(capacity, steps[..|steps| - 1]);
      StepKeeps(After(Start(capacity), steps[..|steps| - 1]), steps[|steps| - 1]);
    }
  }

  /** In every run each event offered is written, being written, waiting, counted as dropped, or lost. */
  lemma EveryEventIsAccountedFor(capacity: nat, steps: seq<Step>)
    ensures var q := After(Start(capacity), steps);
      && Kept(q, true) + q.droppedAccess + Count(q.lost, true) == q.offeredAccess
      && Kept(q, false) + q.droppedError + Count(q.lost, false) == q.offeredError
      && InOrder(q.written + q.hand + q.queue, Offered(q))
  {
    RunKeeps(capacity, steps);
  }

  /** The writer fails with nothing taken and nothing waiting. */
  predicate FailsIdle(q: Queue, s: Step) { s.Fail? ==> q.queue == [] && q.hand == [] }

  lemma StepLoses(q: Queue, s: Step)
    ensures Next(q, s).lost == [] <==> q.lost == [] && FailsIdle(q, s)
  {
    if s.Fail? {
      assert |q.lost + q.hand + q.queue| == |q.lost| + |q.hand| + |q.queue|;
    }
  }

  ghost predicate FailsIdleAt(capacity: nat, steps: seq<Step>, i: nat)
    requires i < |steps|
  {
    FailsIdle(After(Start(capacity), steps[..i]), steps[i])
  }

  lemma FailsIdleBefore(capacity: nat, steps: seq<Step>, n: nat, i: nat)
    requires i < n <= |steps|
    ensures FailsIdleAt(capacity, steps[..n], i) == FailsIdleAt(capacity, steps, i)
  {
    assert steps[..n][..i] == steps[..i];
  }

  /** The writer never fails with an event taken or waiting. */
  ghost predicate NeverFailsBusy(capacity: nat, steps: seq<Step>) {
    forall i: nat :: i < |steps| ==> FailsIdleAt(capacity, steps, i)
  }

  lemma NeverFailsBusyNext(capacity: nat, steps: seq<Step>, n: nat)
    requires n + 1 == |steps|
    ensures NeverFailsBusy(capacity, steps) <==>
            NeverFailsBusy(capacity, steps[..n]) && FailsIdle(After(Start(capacity), steps[..n]), steps[n])
  {
    forall i: nat | i < n ensures FailsIdleAt(capacity, steps[..n], i) == FailsIdleAt(capacity, steps, i) {
      FailsIdleBefore(capacity, steps, n, i);
    }
    assert FailsIdleAt(capacity, steps, n) == FailsIdle(After(Start(capacity), steps[..n]), steps[n]);
  }

  /** A run loses no event if and only if the writer never fails with an event taken or waiting. */
  lemma {:induction false} NothingIsLostIff(capacity: nat, steps: seq<Step>)
    ensures After(Start(capacity), steps).lost == [] <==> NeverFailsBusy(capacity, steps)
    decreases |steps|
  {
    if steps != [] {
      var n := |steps| - 1;
      NothingIsLostIff(capacity, steps[..n]);
      NeverFailsBusyNext(capacity, steps, n);
      StepLoses(After(Start(capacity), steps[..n]), steps[n]);
    }
  }

  function Offers(kinds: seq<bool>): seq<Step> {
    if |kinds| == 0 then [] else Offers(kinds[..|kinds| - 1]) + [Offer(kinds[|kinds| - 1])]
  }

  /** All `n` events that were offered are waiting. */
  ghost predicate AllWaiting(q: Queue, capacity: nat, n: nat) {
    && q.capacity == capacity && !q.stopping && |q.queue| == n && q.hand == [] && q.written == [] && q.lost == []
    && q.acceptedAccess + q.acceptedError == n && q.droppedAccess == q.droppedError == 0
  }

  lemma AfterOneMore(q: Queue, steps: seq<Step>, s: Step)
    ensures After(q, steps + [s]) == Next(After(q, steps), s)
  {
    assert (steps + [s])[..|steps|] == steps;
  }

  lemma {:induction false} OffersWait(capacity: nat, kinds: seq<bool>)
    requires |kinds| <= capacity
    ensures AllWaiting(After(Start(capacity), Offers(kinds)), capacity, |kinds|)
    decreases |kinds|
  {
    if |kinds| > 0 {
      var n := |kinds| - 1;
      OffersWait(capacity, kinds[..n]);
      AfterOneMore(Start(capacity), Offers(kinds[..n]), Offer(kinds[n]));
    }
  }

  /**
   A failure of the writer can lose any events that fit in the queue, of either kind: a run after which all of them
   are accepted, none is written and none is counted as dropped.
   */
  lemma FailureLosesEvents(capacity: nat, kinds: seq<bool>)
    requires |kinds| <= capacity
    ensures var q := After(Start(capacity), Offers(kinds) + [Take] + [Fail]);
      && |q.lost| == q.acceptedAccess + q.acceptedError == |kinds|
      && q.written == [] && q.droppedAccess == q.droppedError == 0
  {
    OffersWait(capacity, kinds);
    AfterOneMore(Start(capacity), Offers(kinds), Take);
    AfterOneMore(Start(capacity), Offers(kinds) + [Take], Fail);
  }

  // ---------------------------------------------------------------- flushing

  /** What `flush` waits for. */
  predicate Flushed(q: Queue) { q.queue == [] && q.hand == [] }

  lemma {:induction false} CountBoth(events: seq<Event>)
    ensures Count(events, true) + Count(events, false) == |events|
  {
    if events != [] {
      CountBoth(events[1..]);
    }
  }

  /**
   When `flush` returns, every event accepted until then has been written, if and only if the writer has never failed
   with an event taken or waiting.
   */
  lemma FlushedIsWrittenIff(capacity: nat, steps: seq<Step>)
    requires Flushed(After(Start(capacity), steps))
    ensures var q := After(Start(capacity), steps);
      (Count(q.written, true) == q.acceptedAccess && Count(q.written, false) == q.acceptedError) <==>
      NeverFailsBusy(capacity, steps)
  {
    var q := After(Start(capacity), steps);
    RunKeeps(capacity, steps);
    NothingIsLostIff(capacity, steps);
    CountBoth(q.lost);
    assert q.lost == [] <==> |q.lost| == 0;
  }

  // ---------------------------------------------------------------- the object

  /** A queue with a capacity in range, and none with any other. */
  method Create(capacity: nat) returns (queue: Option<EventQueue>)
    ensures queue.Some? <==> 2 <= capacity <= 1000000
    ensures queue.Some? ==>
      fresh(queue.value) && queue.value.View() == Start(capacity)
  {
    if capacity < 2 || capacity > 1000000 {
      return None;
    }
    var made := new EventQueue(capacity);
    queue := Some(made);
  }

  class EventQueue {
    const capacity: nat
    var queue: seq<Event>
    var stopping: bool
    var acceptedAccess: nat
    var acceptedError: nat
    var droppedAccess: nat
    var droppedError: nat
    ghost var offeredAccess: nat
    ghost var offeredError: nat
    ghost var hand: seq<Event>
    ghost var written: seq<Event>
    ghost var lost: seq<Event>

    ghost function View(): Queue
      reads this
    {
      Queue(capacity, queue, stopping, acceptedAccess, acceptedError, droppedAccess, droppedError,
            offeredAccess, offeredError, hand, written, lost)
    }

    constructor (capacity: nat)
      requires 2 <= capacity <= 1000000
      ensures View() == Start(capacity)
    {
      this.capacity, queue, stopping := capacity, [], false;
      acceptedAccess, acceptedError, droppedAccess, droppedError := 0, 0, 0, 0;
      offeredAccess, offeredError, hand, written, lost := 0, 0, [], [], [];
    }

    method Drop(access: bool)
      modifies this
      ensures View() == Dropped(old(View()), access)
    {
      if access {
        droppedAccess := droppedAccess + 1;
        offeredAccess := offeredAccess + 1;
      } else {
        droppedError := droppedError + 1;
        offeredError := offeredError + 1;
      }
    }

    /** Queues the event, or drops it or an access event before it. */
    method EnqueueEvent(e: Event)
      requires Valid(View()) && e.number == Offered(View())
      modifies this
      ensures View() == Enqueue(old(View()), e.access) && Valid(View())
    {
      EnqueueKeeps(View(), e.access);
      if stopping {
        Drop(e.access);
        return;
      }
      if |queue| >= capacity {
        if e.access {
          Drop(true);
          return;
        }
        var i := FindAccess();
        if i == |queue| {
          Drop(false);
          return;
        }
        EvictAt(i);
      }
      Accept(e);
    }

    method Accept(e: Event)
      requires e.number == Offered(View())
      modifies this
      ensures View() == Accepted(old(View()), e.access)
    {
      queue := queue + [e];
      if e.access {
        acceptedAccess := acceptedAccess + 1;
        offeredAccess := offeredAccess + 1;
      } else {
        acceptedError := acceptedError + 1;
        offeredError := offeredError + 1;
      }
    }

    method EvictAt(i: nat)
      requires Valid(View()) && i < |queue| && queue[i].access
      modifies this
      ensures View() == Evicted(old(View()), i)
    {
      CountWithout(queue, i, true);
      queue := queue[..i] + queue[i + 1..];
      acceptedAccess := acceptedAccess - 1;
      droppedAccess := droppedAccess + 1;
    }

    method FindAccess() returns (i: nat)
      ensures i == FirstAccess(queue, 0)
    {
      i := 0;
      while i < |queue| && !queue[i].access
        invariant 0 <= i <= |queue| && FirstAccess(queue, 0) == FirstAccess(queue, i)
      {
        i := i + 1;
      }
    }

    /** The writer's side: the oldest event, if there is one. */
    method TakeEvent() returns (found: bool, e: Event)
      requires Valid(View()) && hand == []
      modifies this
      ensures Valid(View()) && View() == Taken(old(View())) && found == (old(queue) != [])
      ensures found ==> e == old(queue)[0]
    {
      TakeKeeps(View());
      e := Event(false, 0);
      found := queue != [];
      if found {
        e := queue[0];
        hand := [e];
        queue := queue[1..];
      }
    }

    /** The event is in the file. */
    method EventWritten()
      requires Valid(View())
      modifies this
      ensures Valid(View()) && View() == Written(old(View()))
    {
      WriteKeeps(View());
      written, hand := written + hand, [];
    }

    /** Writing has failed: every later event will be dropped, and what was waiting is gone. */
    method WriterFails()
      requires Valid(View())
      modifies this
      ensures Valid(View()) && View() == Failed(old(View()))
      ensures |lost| - |old(lost)| == |old(queue)| + |old(hand)|
    {
      FailKeeps(View());
      lost, hand := lost + hand + queue, [];
      stopping, queue := true, [];
    }
  }
}
