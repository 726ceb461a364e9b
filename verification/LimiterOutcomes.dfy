/**
 What callers of the concurrency limiter are told, and how long its queues become: when a request gets a slot, waits or
 is refused, and why.
 */
module LimiterOutcomes {
  import opened ConcurrencyLimiter
  import opened LimiterRuns

  // ---------------------------------------------------------------- what a caller is told

  function QueueOf(s: State, id: SiteId): seq<WaiterId> { if id in s.sites then s.sites[id].queue else [] }

  predicate IsLast(queue: seq<WaiterId>, x: WaiterId) { queue != [] && queue[|queue| - 1] == x }

  /** Promotion leaves no waiter behind that fits. */
  lemma PromotedSite(s: State, id: SiteId, maximumActive: nat, maximumQueue: nat)
    ensures var p := PromotionState(s, id, maximumActive, maximumQueue);
            && id in p.sites && p.nextId == s.nextId
            && p.sites[id].maximumActive == maximumActive && p.sites[id].maximumQueue == maximumQueue
            && (p.sites[id].queue != [] ==> p.sites[id].active >= maximumActive)
            && (forall x :: x in Promoted(s, id, maximumActive, maximumQueue) || x in p.sites[id].queue ==>
                  id in s.sites && x in s.sites[id].queue)
  {
  }

  /** The caller is older than nobody: its id is new. */
  lemma CallerIsNew(s: State, id: SiteId)
    requires Valid(s)
    ensures id in s.sites ==> s.nextId !in s.sites[id].queue
  {
    if id in s.sites {
      assert QueueOk(s, id);
    }
  }

  /** What the site looks like to a caller that got a slot, was refused, or waits. */
  ghost predicate Told(a: Action, e: Effect, self: WaiterId)
    requires a.Acquire? && a.site in e.state.sites
  {
    var site := e.state.sites[a.site];
    && (self in e.granted ==>
          self !in e.refused && !IsLast(site.queue, self) && site.queue == [] && site.active <= a.maximumActive)
    && (self in e.refused ==>
          !IsLast(site.queue, self) && |site.queue| >= a.maximumQueue && site.active >= a.maximumActive)
    && (IsLast(site.queue, self) ==> |site.queue| <= a.maximumQueue && site.active >= a.maximumActive)
    && (self in e.granted || self in e.refused || IsLast(site.queue, self))
    && e.refused.Keys <= {self}
  }

  lemma AdmissionTells(p: State, a: Action, promoted: seq<WaiterId>)
    requires a.Acquire? && a.site in p.sites
    requires p.sites[a.site].maximumActive == a.maximumActive && p.sites[a.site].maximumQueue == a.maximumQueue
    requires p.sites[a.site].queue != [] ==> p.sites[a.site].active >= a.maximumActive
    requires p.nextId !in promoted && p.nextId !in p.sites[a.site].queue
    ensures var e := Admission(p, a.site); Told(a, e.(granted := promoted + e.granted), p.nextId)
  {
  }

  /**
   What becomes of a caller: it gets a slot only under the limit and with nobody waiting; it is refused only at the
   limit and by a queue that is full; it waits only at the limit and as the last of a queue within its bound. One of the
   three happens, and nobody else is refused.
   */
  lemma AcquireOutcome(s: State, a: Action)
    requires Valid(s) && a.Acquire?
    ensures a.site in Step(s, a).state.sites && Told(a, Step(s, a), s.nextId)
  {
    var p := PromotionState(s, a.site, a.maximumActive, a.maximumQueue);
    var promoted := Promoted(s, a.site, a.maximumActive, a.maximumQueue);
    PromotedSite(s, a.site, a.maximumActive, a.maximumQueue);
    CallerIsNew(s, a.site);
    AdmissionTells(p, a, promoted);
  }

  /** No waiter is served by a site that is above its limit afterwards. */
  lemma ServedWithinLimit(s: State, a: Action)
    requires OneSite(a) && Assigned(s, a) != []
    ensures var t := Step(s, a).state; a.site in t.sites && t.sites[a.site].active <= t.sites[a.site].maximumActive
  {
    match a
    case Acquire(_, _, _) => GrantingCounts(s, a);
    case UpdateLimits(_, _, _) => GrantingCounts(s, a);
    case Release(_, _) => ReleaseParts(s, a);
    case Cancel(_, _) => RemovingCounts(s, a);
    case Timeout(_, _) => RemovingCounts(s, a);
  }

  /** Every refusal says what happened: a full queue, a timeout, a cancellation, or a permit that could not be made. */
  lemma RefusalsSayWhy(s: State, a: Action, x: WaiterId)
    requires Valid(s) && x in Step(s, a).refused
    ensures Step(s, a).refused[x] ==
      match a
      case Acquire(_, _, _) => QueueFull
      case Timeout(_, _) => QueueTimeout
      case Release(_, _) => Lost
      case _ => Cancelled
    ensures a.Acquire? || a.Timeout? || a.Cancel? || a.Clear? || (a.Release? && !a.permitAllocated)
    ensures a.Timeout? || a.Cancel? ==> x == a.waiter
  {
    if a.Acquire? {
      AcquireOutcome(s, a);
    }
  }

  // ---------------------------------------------------------------- how long a queue becomes

  lemma {:induction false} WithoutShortens(queue: seq<WaiterId>, x: WaiterId)
    requires x in queue
    ensures |Without(queue, x)| == |queue| - 1
  {
    if queue[0] != x {
      WithoutShortens(queue[1..], x);
    }
  }

  lemma AcquireLengthens(s: State, a: Action)
    requires Valid(s) && a.Acquire?
    ensures |QueueOf(Step(s, a).state, a.site)| <= |QueueOf(s, a.site)| ||
            |QueueOf(Step(s, a).state, a.site)| <= a.maximumQueue
  {
    AcquireOutcome(s, a);
  }

  /** No step but an acquire makes a queue longer, and that not beyond the bound of its caller. */
  ghost predicate Lengthens(s: State, a: Action, t: State, id: SiteId) {
    |QueueOf(t, id)| > |QueueOf(s, id)| ==> a.Acquire? && a.site == id && |QueueOf(t, id)| <= a.maximumQueue
  }

  lemma QueueStep(s: State, a: Action, id: SiteId)
    requires Valid(s)
    ensures Lengthens(s, a, Step(s, a).state, id)
  {
    if OneSite(a) && a.site == id {
      match a
      case Acquire(_, _, _) => AcquireLengthens(s, a);
      case Cancel(_, x) => if id in s.sites && x in s.sites[id].queue { WithoutShortens(s.sites[id].queue, x); }
      case Timeout(_, x) => if id in s.sites && x in s.sites[id].queue { WithoutShortens(s.sites[id].queue, x); }
      case _ =>
    } else if OneSite(a) {
      OtherSites(s, a, id);
    }
  }

  predicate QueuesWithin(a: Action, id: SiteId, bound: nat) { a.Acquire? && a.site == id ==> a.maximumQueue <= bound }

  lemma QueueNext(ws: seq<World>, actions: seq<Action>, i: nat, id: SiteId, bound: nat)
    requires Run(ws, actions) && i < |actions| && QueuesWithin(actions[i], id, bound)
    requires |QueueOf(ws[i].state, id)| <= bound
    ensures |QueueOf(ws[i + 1].state, id)| <= bound
  {
    RunInv(ws, actions, i);
    assert Moves(ws[i], actions[i], ws[i + 1]);
    QueueStep(ws[i].state, actions[i], id);
  }

  /** In every run the queue of a site is at most as long as its callers allow. */
  lemma {:induction false} QueueStaysWithin(ws: seq<World>, actions: seq<Action>, i: nat, id: SiteId, bound: nat)
    requires Run(ws, actions) && i < |ws| && forall j: nat :: j < i ==> QueuesWithin(actions[j], id, bound)
    ensures |QueueOf(ws[i].state, id)| <= bound
  {
    if i > 0 {
      QueueStaysWithin(ws, actions, i - 1, id, bound);
      QueueNext(ws, actions, i - 1, id, bound);
    }
  }

  /** The counter of timeouts goes up exactly when a waiter times out. */
  lemma TimeoutsAreCounted(s: State, a: Action, id: SiteId)
    requires id in s.sites && id in Step(s, a).state.sites
    ensures Step(s, a).state.sites[id].timeouts ==
            s.sites[id].timeouts + Count(a.Timeout? && a.site == id && a.waiter in s.sites[id].queue)
  {
    if OneSite(a) && a.site != id {
      OtherSites(s, a, id);
    }
  }
}
