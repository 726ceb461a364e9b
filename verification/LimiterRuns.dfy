/**
 Theorems about every run of the concurrency limiter.

 A `World` is the limiter's state together with what its callers hold and have been told: the live
 permits of each site, how often each waiter's handler was settled, the order in which a site's slots
 were assigned, and a tally of the calls of each site since it entered the map.
 */
module LimiterRuns {
  import opened ConcurrencyLimiter

  /** Calls, grants, cancellations and lost hand-overs over a site's life in the map. */
  datatype Tally = Tally(calls: nat, granted: nat, cancelled: nat, lost: nat)

  datatype World = World(
    state: State,
    permits: map<SiteId, nat>,
    settled: multiset<WaiterId>,
    slots: map<SiteId, seq<WaiterId>>,
    tallies: map<SiteId, Tally>)

  function Permits(w: World, id: SiteId): nat { if id in w.permits then w.permits[id] else 0 }

  function Slots(w: World, id: SiteId): seq<WaiterId> { if id in w.slots then w.slots[id] else [] }

  function TallyOf(w: World, id: SiteId): Tally { if id in w.tallies then w.tallies[id] else Tally(0, 0, 0, 0) }

  const INITIAL := World(State(map[], 1, map[]), map[], multiset{}, map[], map[])

  /**
   What the surroundings guarantee: a release is the destruction of a live permit, and every
   configured limit admits at least one active request.
   */
  ghost predicate Enabled(w: World, a: Action) {
    && (a.Release? ==> Permits(w, a.site) > 0)
    && (a.Acquire? || a.UpdateLimits? ==> a.maximumActive >= 1)
  }

  predicate OneSite(a: Action) { !a.Retain? && !a.Clear? }

  /** The waiter handed a slot whose permit could not be allocated. */
  function LostSlot(s: State, a: Action): seq<WaiterId> {
    if a.Release? && !a.permitAllocated then ReleaseStep(s, a.site, true).granted else []
  }

  function Assigned(s: State, a: Action): seq<WaiterId> { Step(s, a).granted + LostSlot(s, a) }

  function Count(b: bool): nat { if b then 1 else 0 }

  function NextPermits(w: World, a: Action): nat
    requires OneSite(a)
  {
    var before := Permits(w, a.site);
    (if a.Release? then Pred(before) else before) + |Assigned(w.state, a)|
  }

  function NextTally(w: World, a: Action): Tally
    requires OneSite(a)
  {
    var t := TallyOf(w, a.site);
    Tally(t.calls + Count(a.Acquire?),
          t.granted + |Step(w.state, a).granted|,
          t.cancelled + Count(a.Cancel? && a.waiter in Step(w.state, a).refused),
          t.lost + |LostSlot(w.state, a)|)
  }

  function Next(w: World, a: Action): World {
    var e := Step(w.state, a);
    var settled := w.settled + multiset(e.granted) + multiset(e.refused.Keys);
    if OneSite(a) then
      World(e.state,
            w.permits[a.site := NextPermits(w, a)],
            settled,
            w.slots[a.site := Slots(w, a.site) + Assigned(w.state, a)],
            map id | id in e.state.sites :: if id == a.site then NextTally(w, a) else TallyOf(w, id))
    else
      World(e.state, w.permits, settled, w.slots, map id | id in e.state.sites :: TallyOf(w, id))
  }

  ghost predicate Run(ws: seq<World>, actions: seq<Action>) {
    && |ws| == |actions| + 1
    && ws[0] == INITIAL
    && forall i :: 0 <= i < |actions| ==> Moves(ws[i], actions[i], ws[i + 1])
  }

  ghost predicate Moves(w: World, a: Action, t: World) { Enabled(w, a) && t == Next(w, a) }

  // ---------------------------------------------------------------- invariant

  ghost predicate Below(a: seq<WaiterId>, b: seq<WaiterId>) {
    forall x, y :: x in a && y in b ==> x < y
  }

  /** The slots assigned so far are older than every queued waiter, and every call is accounted for. */
  ghost predicate Accounted(site: Site, permits: nat, slots: seq<WaiterId>, tally: Tally) {
    && site.maximumActive >= 1
    && site.active <= permits
    && Increasing(site.queue)
    && Below(slots, site.queue)
    && tally.calls == tally.granted + site.rejected + tally.cancelled + tally.lost + |site.queue|
    && site.timeouts <= site.rejected
  }

  ghost predicate SiteOk(site: Site, permits: nat, slots: seq<WaiterId>, tally: Tally) {
    && Accounted(site, permits, slots, tally)
    && (site.queue != [] ==> site.active >= site.maximumActive)
    && (site.retired ==> site.active > 0 || site.queue != [])
  }

  ghost predicate SlotsOk(s: State, id: SiteId, slots: seq<WaiterId>) {
    && Increasing(slots)
    && forall a :: a in slots ==> a in s.waiters && s.waiters[a] == Waiter(id, true)
  }

  ghost predicate SettledOk(w: World) {
    forall x :: w.settled[x] == Count(x in w.state.waiters && w.state.waiters[x].completed)
  }

  ghost predicate AllSlotsOk(w: World) {
    forall id :: SlotsOk(w.state, id, Slots(w, id))
  }

  ghost predicate AllSitesOk(w: World) {
    && w.tallies.Keys == w.state.sites.Keys
    && forall id :: id in w.state.sites ==> SiteOk(w.state.sites[id], Permits(w, id), Slots(w, id), w.tallies[id])
  }

  ghost predicate Inv(w: World) {
    && Valid(w.state)
    && SettledOk(w)
    && AllSlotsOk(w)
    && AllSitesOk(w)
  }

  /** Active slots are exactly the live permits. */
  ghost predicate Conserved(w: World) {
    forall id :: Permits(w, id) == if id in w.state.sites then w.state.sites[id].active else 0
  }

  // ---------------------------------------------------------------- one step

  /** A step on one site leaves every other site alone. */
  lemma OtherSites(s: State, a: Action, id: SiteId)
    requires OneSite(a) && id != a.site
    ensures id in Step(s, a).state.sites <==> id in s.sites
    ensures id in s.sites ==> Step(s, a).state.sites[id] == s.sites[id]
  {
  }

  /** Every waiter a step decides was undecided, is completed by it, and no other flag changes. */
  ghost predicate DecidesOk(s: State, e: Effect) {
    && Increasing(e.granted)
    && (forall x :: x in e.granted ==> x !in e.refused)
    && s.waiters.Keys <= e.state.waiters.Keys
    && (forall x :: x in e.granted || x in e.refused ==>
          x in e.state.waiters && e.state.waiters[x].completed && (x in s.waiters ==> !s.waiters[x].completed))
    && (forall x :: x in e.state.waiters && x !in e.granted && x !in e.refused ==>
          e.state.waiters[x].completed == (x in s.waiters && s.waiters[x].completed))
    && (forall x :: x in s.waiters ==> e.state.waiters[x].site == s.waiters[x].site)
  }

  lemma ReleaseDecides(s: State, id: SiteId, permitAllocated: bool)
    requires Valid(s)
    ensures DecidesOk(s, ReleaseStep(s, id, permitAllocated))
  {
    assert id in s.sites ==> QueueOk(s, id);
  }

  lemma RemovalDecides(s: State, id: SiteId, x: WaiterId, refusal: Refusal)
    requires Valid(s)
    ensures DecidesOk(s, RemoveStep(s, id, x, refusal))
  {
    assert id in s.sites ==> QueueOk(s, id);
  }

  lemma ClearDecides(s: State)
    requires Valid(s)
    ensures DecidesOk(s, ClearStep(s))
  {
    forall x | x in Queued(s) ensures x in s.waiters && !s.waiters[x].completed {
      var id :| id in s.sites && x in s.sites[id].queue;
      assert QueueOk(s, id);
    }
  }

  lemma PromotionDecides(s: State, id: SiteId, maximumActive: nat, maximumQueue: nat)
    requires Valid(s)
    ensures DecidesOk(s, Effect(PromotionState(s, id, maximumActive, maximumQueue),
                                Promoted(s, id, maximumActive, maximumQueue), map[]))
  {
    assert id in s.sites ==> QueueOk(s, id);
  }

  /** A new waiter comes after all that were promoted. */
  lemma NewestDecides(s: State, p: State, promoted: seq<WaiterId>)
    requires Valid(p) && DecidesOk(s, Effect(p, promoted, map[]))
    ensures Increasing(promoted + [p.nextId]) && p.nextId !in promoted
  {
    forall i | 0 <= i < |promoted| ensures promoted[i] < p.nextId { assert promoted[i] in promoted; }
  }

  lemma QueuedDecides(s: State, p: State, promoted: seq<WaiterId>, id: SiteId, site: Site)
    requires Valid(s) && Valid(p) && DecidesOk(s, Effect(p, promoted, map[])) && p.nextId == s.nextId
    ensures DecidesOk(s, Effect(Admitted(p, id, site, true), promoted, map[]))
  {
    NewestDecides(s, p, promoted);
  }

  lemma GrantedDecides(s: State, p: State, promoted: seq<WaiterId>, id: SiteId, site: Site)
    requires Valid(s) && Valid(p) && DecidesOk(s, Effect(p, promoted, map[])) && p.nextId == s.nextId
    ensures DecidesOk(s, Effect(Admitted(p, id, site, false), promoted + [p.nextId], map[]))
  {
    NewestDecides(s, p, promoted);
  }

  lemma RefusedDecides(s: State, p: State, promoted: seq<WaiterId>, id: SiteId, site: Site)
    requires Valid(s) && Valid(p) && DecidesOk(s, Effect(p, promoted, map[])) && p.nextId == s.nextId
    ensures DecidesOk(s, Effect(Admitted(p, id, site, false), promoted, map[p.nextId := QueueFull]))
  {
    NewestDecides(s, p, promoted);
  }

  lemma AdmissionDecides(s: State, p: State, promoted: seq<WaiterId>, id: SiteId)
    requires Valid(s) && Valid(p) && DecidesOk(s, Effect(p, promoted, map[]))
    requires id in p.sites && p.nextId == s.nextId
    ensures var e := Admission(p, id); DecidesOk(s, e.(granted := promoted + e.granted))
  {
    var site := p.sites[id];
    assert promoted + [] == promoted;
    if site.queue == [] && site.active < site.maximumActive {
      GrantedDecides(s, p, promoted, id, site.(active := site.active + 1));
    } else if |site.queue| >= site.maximumQueue {
      RefusedDecides(s, p, promoted, id, site.(rejected := site.rejected + 1));
    } else {
      QueuedDecides(s, p, promoted, id, site.(queue := site.queue + [p.nextId]));
    }
  }

  lemma Decides(s: State, a: Action)
    requires Valid(s)
    ensures DecidesOk(s, Step(s, a))
  {
    match a
    case Acquire(id, maximumActive, maximumQueue) =>
      PromotionDecides(s, id, maximumActive, maximumQueue);
      PromotionKeepsValid(s, id, maximumActive, maximumQueue);
      AdmissionDecides(s, PromotionState(s, id, maximumActive, maximumQueue),
                       Promoted(s, id, maximumActive, maximumQueue), id);
    case Release(id, permitAllocated) => ReleaseDecides(s, id, permitAllocated);
    case Cancel(id, x) => RemovalDecides(s, id, x, Cancelled);
    case Timeout(id, x) => RemovalDecides(s, id, x, QueueTimeout);
    case UpdateLimits(id, maximumActive, maximumQueue) => PromotionDecides(s, id, maximumActive, maximumQueue);
    case Retain(keep) =>
    case Clear => ClearDecides(s);
  }

  lemma {:induction false} IncreasingIsDistinct(ids: seq<WaiterId>, x: WaiterId)
    requires Increasing(ids)
    ensures multiset(ids)[x] == Count(x in ids)
  {
    if ids != [] {
      var front, last := ids[..|ids| - 1], ids[|ids| - 1];
      IncreasingIsDistinct(front, x);
      assert ids == front + [last];
    }
  }

  lemma SettledCount(w: World, e: Effect, x: WaiterId)
    requires SettledOk(w) && DecidesOk(w.state, e)
    ensures (w.settled + multiset(e.granted) + multiset(e.refused.Keys))[x] ==
            Count(x in e.state.waiters && e.state.waiters[x].completed)
  {
    IncreasingIsDistinct(e.granted, x);
    assert multiset(e.refused.Keys)[x] == Count(x in e.refused);
  }

  lemma SettledStep(w: World, a: Action)
    requires Valid(w.state) && SettledOk(w)
    ensures SettledOk(Next(w, a))
  {
    var e, t := Step(w.state, a), Next(w, a);
    Decides(w.state, a);
    assert t.state == e.state && t.settled == w.settled + multiset(e.granted) + multiset(e.refused.Keys);
    forall x ensures t.settled[x] == Count(x in t.state.waiters && t.state.waiters[x].completed) {
      SettledCount(w, e, x);
    }
  }

  lemma CompletedStays(s: State, a: Action, x: WaiterId)
    requires Valid(s) && x in s.waiters && s.waiters[x].completed
    ensures x in Step(s, a).state.waiters && Step(s, a).state.waiters[x] == s.waiters[x]
  {
    Decides(s, a);
  }

  // ---------------------------------------------------------------- one site

  lemma SplitInOrder(slots: seq<WaiterId>, queue: seq<WaiterId>, k: nat)
    requires Increasing(queue) && Below(slots, queue) && k <= |queue|
    ensures Increasing(queue[..k]) && Increasing(queue[k..])
    ensures Below(slots, queue[..k]) && Below(slots + queue[..k], queue[k..])
  {
    assert forall y :: y in queue[..k] ==> y in queue;
    assert forall y :: y in queue[k..] ==> y in queue;
    forall x, y | x in queue[..k] && y in queue[k..] ensures x < y {
      var i :| 0 <= i < k && queue[..k][i] == x;
      var j :| 0 <= j < |queue| - k && queue[k..][j] == y;
      assert queue[i] < queue[k + j];
    }
  }

  lemma AppendInOrder(slots: seq<WaiterId>, more: seq<WaiterId>)
    requires Increasing(slots) && Increasing(more) && Below(slots, more)
    ensures Increasing(slots + more)
  {
    forall i, j | 0 <= i < j < |slots + more| ensures (slots + more)[i] < (slots + more)[j] {
      if i < |slots| <= j { assert slots[i] in slots && more[j - |slots|] in more; }
    }
  }

  lemma PromoteSite(site: Site, permits: nat, slots: seq<WaiterId>, tally: Tally)
    requires Accounted(site, permits, slots, tally) && !site.retired
    ensures SiteOk(Promote(site), permits + Room(site), slots + site.queue[..Room(site)],
                   tally.(granted := tally.granted + Room(site)))
  {
    SplitInOrder(slots, site.queue, Room(site));
  }

  lemma AdmitSite(site: Site, permits: nat, slots: seq<WaiterId>, tally: Tally, self: WaiterId)
    requires SiteOk(site, permits, slots, tally) && !site.retired
    requires Below(slots, [self]) && Below(site.queue, [self])
    ensures site.queue == [] && site.active < site.maximumActive ==>
              SiteOk(site.(active := site.active + 1), permits + 1, slots + [self],
                     tally.(calls := tally.calls + 1, granted := tally.granted + 1))
    ensures SiteOk(site.(rejected := site.rejected + 1), permits, slots, tally.(calls := tally.calls + 1))
    ensures !(site.queue == [] && site.active < site.maximumActive) ==>
              SiteOk(site.(queue := site.queue + [self]), permits, slots, tally.(calls := tally.calls + 1))
  {
    AppendInOrder(site.queue, [self]);
  }

  lemma HandOverSite(site: Site, permits: nat, slots: seq<WaiterId>, tally: Tally)
    requires SiteOk(site, permits, slots, tally) && site.queue != [] && permits > 0
    ensures var left := site.(queue := site.queue[1..]);
            && SiteOk(left, permits, slots + [site.queue[0]], tally.(granted := tally.granted + 1))
            && SiteOk(left, permits, slots + [site.queue[0]], tally.(lost := tally.lost + 1))
  {
    SplitInOrder(slots, site.queue, 1);
    assert site.queue[..1] == [site.queue[0]];
  }

  lemma GiveBackSite(site: Site, permits: nat, slots: seq<WaiterId>, tally: Tally)
    requires SiteOk(site, permits, slots, tally) && (site.active > site.maximumActive || site.queue == [])
    ensures var left := site.(active := Pred(site.active));
            !left.Drained() ==> SiteOk(left, Pred(permits), slots, tally)
  {
  }

  lemma RemoveFromSite(site: Site, permits: nat, slots: seq<WaiterId>, tally: Tally, x: WaiterId)
    requires SiteOk(site, permits, slots, tally) && x in site.queue
    ensures var left := site.(queue := Without(site.queue, x));
            !left.Drained() ==>
              && SiteOk(left, permits, slots, tally.(cancelled := tally.cancelled + 1))
              && SiteOk(left.(rejected := site.rejected + 1, timeouts := site.timeouts + 1), permits, slots, tally)
  {
    WithoutKeepsOrder(site.queue, x);
  }

  // ---------------------------------------------------------------- the site a step names

  ghost predicate TargetOk(w: World, id: SiteId) {
    id in w.state.sites && id in w.tallies ==>
      SiteOk(w.state.sites[id], Permits(w, id), Slots(w, id), w.tallies[id])
  }

  /** It is enough to look at the site's own numbers. */
  lemma TargetFrom(w: World, a: Action)
    requires OneSite(a)
    requires var sites := Step(w.state, a).state.sites;
             a.site in sites ==>
               SiteOk(sites[a.site], NextPermits(w, a), Slots(w, a.site) + Assigned(w.state, a), NextTally(w, a))
    ensures TargetOk(Next(w, a), a.site)
  {
  }

  lemma ConfiguredIsAccounted(w: World, id: SiteId, maximumActive: nat, maximumQueue: nat)
    requires Inv(w) && maximumActive >= 1
    ensures var site := Configured(w.state, id, maximumActive, maximumQueue);
            Accounted(site, Permits(w, id), Slots(w, id), TallyOf(w, id))
  {
    if id in w.state.sites {
      assert SiteOk(w.state.sites[id], Permits(w, id), Slots(w, id), w.tallies[id]);
    }
  }

  lemma BelowSlices(queue: seq<WaiterId>, k: nat, newest: seq<WaiterId>)
    requires k <= |queue| && Below(queue, newest)
    ensures Below(queue[..k], newest) && Below(queue[k..], newest)
  {
    assert forall x :: x in queue[..k] ==> x in queue;
    assert forall x :: x in queue[k..] ==> x in queue;
  }

  lemma NewestWaiter(w: World, id: SiteId, maximumActive: nat, maximumQueue: nat)
    requires Inv(w)
    ensures var before := Configured(w.state, id, maximumActive, maximumQueue);
            && Below(Slots(w, id), [w.state.nextId])
            && Below(before.queue[..Room(before)], [w.state.nextId])
            && Below(before.queue[Room(before)..], [w.state.nextId])
  {
    var before := Configured(w.state, id, maximumActive, maximumQueue);
    assert SlotsOk(w.state, id, Slots(w, id));
    assert Below(before.queue, [w.state.nextId]) by {
      if id in w.state.sites { assert QueueOk(w.state, id); }
    }
    BelowSlices(before.queue, Room(before), [w.state.nextId]);
  }

  /** What an acquire makes of the site's numbers. */
  lemma AcquireNumbers(w: World, a: Action, p: State, promoted: seq<WaiterId>)
    requires a.Acquire? && p == PromotionState(w.state, a.site, a.maximumActive, a.maximumQueue)
    requires promoted == Promoted(w.state, a.site, a.maximumActive, a.maximumQueue)
    ensures var e := Admission(p, a.site);
            && Step(w.state, a).state == e.state
            && Assigned(w.state, a) == promoted + e.granted
            && NextPermits(w, a) == Permits(w, a.site) + |promoted| + |e.granted|
            && NextTally(w, a) == Served(TallyOf(w, a.site), |promoted|, e)
  {
    assert LostSlot(w.state, a) == [];
  }

  /** A call that serves `k` waiters and is settled as `e` says. */
  function Served(tally: Tally, k: nat, e: Effect): Tally {
    tally.(calls := tally.calls + 1, granted := tally.granted + k + |e.granted|)
  }

  /** A new request at a promoted site in `p`, on the site's own numbers. */
  lemma AdmissionNumbers(p: State, id: SiteId, permits: nat, slots: seq<WaiterId>, tally: Tally, k: nat)
    requires id in p.sites && !p.sites[id].retired
    requires SiteOk(p.sites[id], permits, slots, tally.(granted := tally.granted + k))
    requires Below(slots, [p.nextId]) && Below(p.sites[id].queue, [p.nextId])
    ensures var e := Admission(p, id);
            SiteOk(e.state.sites[id], permits + |e.granted|, slots + e.granted, Served(tally, k, e))
  {
    AdmitSite(p.sites[id], permits, slots, tally.(granted := tally.granted + k), p.nextId);
    assert slots + [] == slots;
  }

  lemma BelowBoth(a: seq<WaiterId>, b: seq<WaiterId>, newest: seq<WaiterId>)
    requires Below(a, newest) && Below(b, newest)
    ensures Below(a + b, newest)
  {
  }

  /** The site once its waiters are promoted, and the new request after all of them. */
  ghost predicate PromotedOk(w: World, id: SiteId, p: State, promoted: seq<WaiterId>) {
    && id in p.sites && !p.sites[id].retired && p.nextId == w.state.nextId
    && SiteOk(p.sites[id], Permits(w, id) + |promoted|, Slots(w, id) + promoted,
              TallyOf(w, id).(granted := TallyOf(w, id).granted + |promoted|))
    && Below(Slots(w, id) + promoted, [p.nextId]) && Below(p.sites[id].queue, [p.nextId])
  }

  lemma PromotedNumbers(w: World, id: SiteId, maximumActive: nat, maximumQueue: nat)
    requires Inv(w) && maximumActive >= 1
    ensures PromotedOk(w, id, PromotionState(w.state, id, maximumActive, maximumQueue),
                       Promoted(w.state, id, maximumActive, maximumQueue))
  {
    var before := Configured(w.state, id, maximumActive, maximumQueue);
    ConfiguredIsAccounted(w, id, maximumActive, maximumQueue);
    PromoteSite(before, Permits(w, id), Slots(w, id), TallyOf(w, id));
    NewestWaiter(w, id, maximumActive, maximumQueue);
    BelowBoth(Slots(w, id), before.queue[..Room(before)], [w.state.nextId]);
  }

  lemma AcquireTarget(w: World, a: Action)
    requires Inv(w) && Enabled(w, a) && a.Acquire?
    ensures TargetOk(Next(w, a), a.site)
  {
    var p := PromotionState(w.state, a.site, a.maximumActive, a.maximumQueue);
    var promoted := Promoted(w.state, a.site, a.maximumActive, a.maximumQueue);
    PromotedNumbers(w, a.site, a.maximumActive, a.maximumQueue);
    AdmittedTarget(w, a, p, promoted);
    TargetFrom(w, a);
  }

  lemma AdmittedTarget(w: World, a: Action, p: State, promoted: seq<WaiterId>)
    requires a.Acquire? && p == PromotionState(w.state, a.site, a.maximumActive, a.maximumQueue)
    requires promoted == Promoted(w.state, a.site, a.maximumActive, a.maximumQueue)
    requires PromotedOk(w, a.site, p, promoted)
    ensures SiteOk(Step(w.state, a).state.sites[a.site], NextPermits(w, a),
                   Slots(w, a.site) + Assigned(w.state, a), NextTally(w, a))
  {
    AdmissionNumbers(p, a.site, Permits(w, a.site) + |promoted|, Slots(w, a.site) + promoted,
                     TallyOf(w, a.site), |promoted|);
    AcquireNumbers(w, a, p, promoted);
    assert Slots(w, a.site) + promoted + Admission(p, a.site).granted == Slots(w, a.site) + Assigned(w.state, a);
  }

  /** What a change of limits makes of the site's numbers. */
  lemma UpdateNumbers(w: World, a: Action, before: Site, k: nat)
    requires a.UpdateLimits? && a.site in w.state.sites && k == Room(before)
    requires before == Configured(w.state, a.site, a.maximumActive, a.maximumQueue)
    ensures a.site in Step(w.state, a).state.sites && Step(w.state, a).state.sites[a.site] == Promote(before)
    ensures Assigned(w.state, a) == before.queue[..k] && NextPermits(w, a) == Permits(w, a.site) + k
    ensures NextTally(w, a) == TallyOf(w, a.site).(granted := TallyOf(w, a.site).granted + k)
  {
    assert LostSlot(w.state, a) == [];
  }

  lemma UpdateTarget(w: World, a: Action)
    requires Inv(w) && Enabled(w, a) && a.UpdateLimits?
    ensures TargetOk(Next(w, a), a.site)
  {
    if a.site in w.state.sites {
      var before := Configured(w.state, a.site, a.maximumActive, a.maximumQueue);
      ConfiguredIsAccounted(w, a.site, a.maximumActive, a.maximumQueue);
      PromoteSite(before, Permits(w, a.site), Slots(w, a.site), TallyOf(w, a.site));
      UpdateNumbers(w, a, before, Room(before));
    }
    TargetFrom(w, a);
  }

  /** What a release that hands its slot on makes of the site's numbers. */
  lemma HandOverNumbers(w: World, a: Action, site: Site)
    requires a.Release? && a.site in w.state.sites && site == w.state.sites[a.site] && Permits(w, a.site) > 0
    requires site.active <= site.maximumActive && site.queue != []
    ensures a.site in Step(w.state, a).state.sites
    ensures Step(w.state, a).state.sites[a.site] == site.(queue := site.queue[1..])
    ensures Assigned(w.state, a) == [site.queue[0]] && NextPermits(w, a) == Permits(w, a.site)
    ensures var tally := TallyOf(w, a.site);
            NextTally(w, a) ==
              if a.permitAllocated then tally.(granted := tally.granted + 1) else tally.(lost := tally.lost + 1)
  {
    HandOverTakesFirst(w.state, a.site);
    assert ReleaseStep(w.state, a.site, true).granted == [site.queue[0]];
  }

  /** What a release that gives its slot back makes of the site's numbers. */
  lemma GiveBackNumbers(w: World, a: Action, site: Site)
    requires a.Release? && a.site in w.state.sites && site == w.state.sites[a.site]
    requires site.active > site.maximumActive || site.queue == []
    ensures var sites := Step(w.state, a).state.sites;
            a.site in sites ==> sites[a.site] == site.(active := Pred(site.active)) && !sites[a.site].Drained()
    ensures Assigned(w.state, a) == [] && NextPermits(w, a) == Pred(Permits(w, a.site))
    ensures NextTally(w, a) == TallyOf(w, a.site)
  {
    assert LostSlot(w.state, a) == [];
  }

  lemma ReleaseNumbers(w: World, a: Action)
    requires Enabled(w, a) && a.Release? && a.site in w.state.sites
    requires SiteOk(w.state.sites[a.site], Permits(w, a.site), Slots(w, a.site), TallyOf(w, a.site))
    ensures var sites := Step(w.state, a).state.sites;
            a.site in sites ==>
              SiteOk(sites[a.site], NextPermits(w, a), Slots(w, a.site) + Assigned(w.state, a), NextTally(w, a))
  {
    var site := w.state.sites[a.site];
    if site.active <= site.maximumActive && site.queue != [] {
      HandOverSite(site, Permits(w, a.site), Slots(w, a.site), TallyOf(w, a.site));
      HandOverNumbers(w, a, site);
    } else {
      GiveBackNumbers(w, a, site);
      GiveBackSite(site, Permits(w, a.site), Slots(w, a.site), TallyOf(w, a.site));
      assert Slots(w, a.site) + [] == Slots(w, a.site);
    }
  }

  lemma ReleaseTarget(w: World, a: Action)
    requires Inv(w) && Enabled(w, a) && a.Release?
    ensures TargetOk(Next(w, a), a.site)
  {
    if a.site in w.state.sites { ReleaseNumbers(w, a); }
    TargetFrom(w, a);
  }

  lemma RemovalNumbers(w: World, a: Action)
    requires (a.Cancel? || a.Timeout?) && a.site in w.state.sites
    requires SiteOk(w.state.sites[a.site], Permits(w, a.site), Slots(w, a.site), TallyOf(w, a.site))
    ensures var sites := Step(w.state, a).state.sites;
            a.site in sites ==>
              SiteOk(sites[a.site], NextPermits(w, a), Slots(w, a.site) + Assigned(w.state, a), NextTally(w, a))
  {
    var site := w.state.sites[a.site];
    RemovingCounts(w.state, a);
    assert Slots(w, a.site) + [] == Slots(w, a.site);
    if a.waiter in site.queue {
      RemoveFromSite(site, Permits(w, a.site), Slots(w, a.site), TallyOf(w, a.site), a.waiter);
    }
  }

  lemma RemovalTarget(w: World, a: Action)
    requires AllSitesOk(w) && (a.Cancel? || a.Timeout?)
    ensures TargetOk(Next(w, a), a.site)
  {
    if a.site in w.state.sites { RemovalNumbers(w, a); }
    TargetFrom(w, a);
  }

  lemma UntouchedSite(w: World, a: Action, id: SiteId)
    requires AllSitesOk(w) && id in Next(w, a).state.sites && (OneSite(a) ==> id != a.site)
    ensures TargetOk(Next(w, a), id)
  {
    if OneSite(a) { OtherSites(w.state, a, id); }
    assert SiteOk(w.state.sites[id], Permits(w, id), Slots(w, id), w.tallies[id]);
  }

  lemma NamedSite(w: World, a: Action)
    requires Inv(w) && Enabled(w, a) && OneSite(a)
    ensures TargetOk(Next(w, a), a.site)
  {
    match a
    case Acquire(_, _, _) => AcquireTarget(w, a);
    case Release(_, _) => ReleaseTarget(w, a);
    case UpdateLimits(_, _, _) => UpdateTarget(w, a);
    case Cancel(_, _) => RemovalTarget(w, a);
    case Timeout(_, _) => RemovalTarget(w, a);
  }

  lemma SitesStep(w: World, a: Action)
    requires Inv(w) && Enabled(w, a)
    ensures AllSitesOk(Next(w, a))
  {
    var t := Next(w, a);
    assert t.tallies.Keys == t.state.sites.Keys;
    forall id | id in t.state.sites ensures TargetOk(t, id) {
      if OneSite(a) && id == a.site { NamedSite(w, a); } else { UntouchedSite(w, a, id); }
    }
  }

  /** The slots a step assigns are settled waiters of the site, in order, after every earlier slot. */
  ghost predicate Extends(w: World, id: SiteId, more: seq<WaiterId>, t: State) {
    && Increasing(more) && Below(Slots(w, id), more)
    && forall x :: x in more ==> x in t.waiters && t.waiters[x] == Waiter(id, true)
  }

  lemma PromotedExtends(w: World, id: SiteId, maximumActive: nat, maximumQueue: nat)
    requires Inv(w)
    ensures Extends(w, id, Promoted(w.state, id, maximumActive, maximumQueue),
                    PromotionState(w.state, id, maximumActive, maximumQueue))
  {
    if id in w.state.sites {
      assert QueueOk(w.state, id);
      assert SiteOk(w.state.sites[id], Permits(w, id), Slots(w, id), w.tallies[id]);
      SplitInOrder(Slots(w, id), w.state.sites[id].queue, Room(Configured(w.state, id, maximumActive, maximumQueue)));
    }
  }

  lemma AdmissionExtends(w: World, id: SiteId, promoted: seq<WaiterId>, p: State)
    requires id in p.sites && Extends(w, id, promoted, p)
    requires Below(Slots(w, id), [p.nextId]) && Below(promoted, [p.nextId])
    ensures var e := Admission(p, id); Extends(w, id, promoted + e.granted, e.state)
  {
    AppendInOrder(promoted, [p.nextId]);
    assert p.nextId in [p.nextId];
    assert promoted + [] == promoted;
  }

  lemma AcquireParts(s: State, a: Action, p: State)
    requires a.Acquire? && p == PromotionState(s, a.site, a.maximumActive, a.maximumQueue)
    ensures Step(s, a).state == Admission(p, a.site).state
    ensures Assigned(s, a) == Promoted(s, a.site, a.maximumActive, a.maximumQueue) + Admission(p, a.site).granted
  {
  }

  lemma AcquireExtends(w: World, a: Action)
    requires Inv(w) && a.Acquire?
    ensures Extends(w, a.site, Assigned(w.state, a), Step(w.state, a).state)
  {
    var p := PromotionState(w.state, a.site, a.maximumActive, a.maximumQueue);
    var promoted := Promoted(w.state, a.site, a.maximumActive, a.maximumQueue);
    AcquireParts(w.state, a, p);
    assert Extends(w, a.site, promoted, p) by {
      PromotedExtends(w, a.site, a.maximumActive, a.maximumQueue);
    }
    assert Below(Slots(w, a.site), [p.nextId]) && Below(promoted, [p.nextId]) by {
      NewestWaiter(w, a.site, a.maximumActive, a.maximumQueue);
    }
    AdmissionExtends(w, a.site, promoted, p);
  }

  lemma ReleaseParts(s: State, a: Action)
    requires a.Release?
    ensures Assigned(s, a) == if Candidates(s, a.site) != [] then [Candidates(s, a.site)[0]] else []
    ensures Step(s, a).state.waiters ==
              if Candidates(s, a.site) != [] then Complete(s.waiters, [Candidates(s, a.site)[0]]) else s.waiters
  {
  }

  lemma FirstExtends(w: World, id: SiteId, queue: seq<WaiterId>, t: State)
    requires queue != [] && Below(Slots(w, id), queue)
    requires queue[0] in t.waiters && t.waiters[queue[0]] == Waiter(id, true)
    ensures Extends(w, id, [queue[0]], t)
  {
    assert queue[0] in queue;
  }

  lemma ReleaseExtends(w: World, a: Action)
    requires Valid(w.state) && AllSitesOk(w) && a.Release?
    ensures Extends(w, a.site, Assigned(w.state, a), Step(w.state, a).state)
  {
    ReleaseParts(w.state, a);
    if Candidates(w.state, a.site) != [] {
      var queue := w.state.sites[a.site].queue;
      assert queue[0] in w.state.waiters && w.state.waiters[queue[0]] == Waiter(a.site, false) by {
        assert QueueOk(w.state, a.site) && queue[0] in queue;
      }
      assert Below(Slots(w, a.site), queue) by {
        assert SiteOk(w.state.sites[a.site], Permits(w, a.site), Slots(w, a.site), w.tallies[a.site]);
      }
      FirstExtends(w, a.site, queue, Step(w.state, a).state);
    }
  }

  lemma AssignedExtends(w: World, a: Action)
    requires Inv(w) && OneSite(a)
    ensures Extends(w, a.site, Assigned(w.state, a), Step(w.state, a).state)
  {
    match a
    case Acquire(_, _, _) => AcquireExtends(w, a);
    case Release(_, _) => ReleaseExtends(w, a);
    case UpdateLimits(id, maximumActive, maximumQueue) => PromotedExtends(w, id, maximumActive, maximumQueue);
    case Cancel(_, _) =>
    case Timeout(_, _) =>
  }

  lemma SlotsStepAt(w: World, a: Action, id: SiteId)
    requires Inv(w)
    ensures SlotsOk(Next(w, a).state, id, Slots(Next(w, a), id))
  {
    assert SlotsOk(w.state, id, Slots(w, id));
    forall x | x in Slots(w, id)
      ensures x in Next(w, a).state.waiters && Next(w, a).state.waiters[x] == Waiter(id, true)
    {
      CompletedStays(w.state, a, x);
    }
    if OneSite(a) && id == a.site {
      AssignedExtends(w, a);
      AppendInOrder(Slots(w, id), Assigned(w.state, a));
    }
  }

  lemma SlotsStep(w: World, a: Action)
    requires Inv(w)
    ensures AllSlotsOk(Next(w, a))
  {
    forall id ensures SlotsOk(Next(w, a).state, id, Slots(Next(w, a), id)) { SlotsStepAt(w, a, id); }
  }

  lemma StepKeepsInv(w: World, a: Action)
    requires Inv(w) && Enabled(w, a)
    ensures Inv(Next(w, a))
  {
    StepKeepsValid(w.state, a);
    SettledStep(w, a);
    SlotsStep(w, a);
    SitesStep(w, a);
  }

  // ---------------------------------------------------------------- theorems about every run

  lemma InitialInv()
    ensures Inv(INITIAL)
  {
  }

  lemma MoveKeepsInv(w: World, a: Action, t: World)
    requires Inv(w) && Moves(w, a, t)
    ensures Inv(t)
  {
    StepKeepsInv(w, a);
  }

  lemma {:induction false} RunInv(ws: seq<World>, actions: seq<Action>, i: nat)
    requires Run(ws, actions) && i < |ws|
    ensures Inv(ws[i])
  {
    if i == 0 {
      InitialInv();
    } else {
      RunInv(ws, actions, i - 1);
      MoveKeepsInv(ws[i - 1], actions[i - 1], ws[i]);
    }
  }

  /** A site's slots are assigned in the order in which the requests arrived. */
  lemma SlotsInArrivalOrder(ws: seq<World>, actions: seq<Action>, i: nat, id: SiteId)
    requires Run(ws, actions) && i < |ws|
    ensures Increasing(Slots(ws[i], id))
  {
    RunInv(ws, actions, i);
    assert SlotsOk(ws[i].state, id, Slots(ws[i], id));
  }

  /** When a request is given a slot, every earlier request of its site has already been settled. */
  lemma NoOvertaking(ws: seq<World>, actions: seq<Action>, i: nat, earlier: WaiterId, later: WaiterId)
    requires Run(ws, actions) && i < |actions| && OneSite(actions[i])
    requires later in Assigned(ws[i].state, actions[i])
    requires earlier < later && earlier in ws[i + 1].state.waiters
    requires ws[i + 1].state.waiters[earlier].site == actions[i].site
    ensures ws[i + 1].settled[earlier] == 1
  {
    var t, id := ws[i + 1], actions[i].site;
    RunInv(ws, actions, i + 1);
    assert later in Slots(t, id);
    assert id in t.state.sites ==> SiteOk(t.state.sites[id], Permits(t, id), Slots(t, id), t.tallies[id]);
  }

  /** Capacity is never idle while someone waits. */
  lemma NoIdleCapacity(ws: seq<World>, actions: seq<Action>, i: nat, id: SiteId)
    requires Run(ws, actions) && i < |ws| && id in ws[i].state.sites
    ensures var site := ws[i].state.sites[id]; site.queue != [] ==> site.active >= site.maximumActive
  {
    RunInv(ws, actions, i);
    assert SiteOk(ws[i].state.sites[id], Permits(ws[i], id), Slots(ws[i], id), ws[i].tallies[id]);
  }

  /** A retired site in the map still has an active slot or a waiter. */
  lemma RetiredSitesAreInUse(ws: seq<World>, actions: seq<Action>, i: nat, id: SiteId)
    requires Run(ws, actions) && i < |ws| && id in ws[i].state.sites && ws[i].state.sites[id].retired
    ensures ws[i].state.sites[id].active > 0 || ws[i].state.sites[id].queue != []
  {
    RunInv(ws, actions, i);
    assert SiteOk(ws[i].state.sites[id], Permits(ws[i], id), Slots(ws[i], id), ws[i].tallies[id]);
  }

  /** Every request is settled exactly once, or is still queued at its own site and not settled at all. */
  lemma SettledExactlyOnce(ws: seq<World>, actions: seq<Action>, i: nat, x: WaiterId)
    requires Run(ws, actions) && i < |ws| && 1 <= x < ws[i].state.nextId
    ensures var s := ws[i].state;
            && x in s.waiters
            && ws[i].settled[x] ==
                 (if s.waiters[x].site in s.sites && x in s.sites[s.waiters[x].site].queue then 0 else 1)
            && forall id :: id in s.sites && x in s.sites[id].queue ==> id == s.waiters[x].site
  {
    RunInv(ws, actions, i);
    var s := ws[i].state;
    forall id | id in s.sites && x in s.sites[id].queue ensures s.waiters[x] == Waiter(id, false) {
      assert QueueOk(s, id);
    }
  }

  /** Over a site's life in the map: calls = granted + rejected + cancelled + lost hand-overs + queued. */
  lemma CallsAreAccountedFor(ws: seq<World>, actions: seq<Action>, i: nat, id: SiteId)
    requires Run(ws, actions) && i < |ws| && id in ws[i].state.sites
    ensures id in ws[i].tallies
    ensures var tally := ws[i].tallies[id];
            var site := ws[i].state.sites[id];
            tally.calls == tally.granted + site.rejected + tally.cancelled + tally.lost + |site.queue|
  {
    RunInv(ws, actions, i);
    assert SiteOk(ws[i].state.sites[id], Permits(ws[i], id), Slots(ws[i], id), ws[i].tallies[id]);
  }

  // ---------------------------------------------------------------- conservation and limits

  function Active(s: State, id: SiteId): nat { if id in s.sites then s.sites[id].active else 0 }

  /** Acquiring and changing limits add one active slot per waiter served, and only below the limit. */
  lemma GrantingCounts(s: State, a: Action)
    requires a.Acquire? || a.UpdateLimits?
    ensures var t := Step(s, a).state;
            && Active(t, a.site) == Active(s, a.site) + |Assigned(s, a)|
            && (Assigned(s, a) != [] ==> a.site in t.sites && Active(t, a.site) <= t.sites[a.site].maximumActive)
  {
    assert LostSlot(s, a) == [] && Assigned(s, a) == Step(s, a).granted;
  }

  /** A release either hands its slot on or gives it back. */
  lemma ReleasingCounts(s: State, a: Action)
    requires a.Release?
    ensures |Assigned(s, a)| <= 1
    ensures Active(Step(s, a).state, a.site) ==
              if Assigned(s, a) != [] then Active(s, a.site) else Pred(Active(s, a.site))
  {
    assert LostSlot(s, a) == [] ==> Assigned(s, a) == Step(s, a).granted;
  }

  lemma RemovingCounts(s: State, a: Action)
    requires a.Cancel? || a.Timeout?
    ensures Assigned(s, a) == [] && Active(Step(s, a).state, a.site) == Active(s, a.site)
  {
  }

  lemma OtherCounts(s: State, a: Action, id: SiteId)
    requires !a.Clear? && (OneSite(a) ==> id != a.site)
    ensures Active(Step(s, a).state, id) == Active(s, id)
  {
    if OneSite(a) { OtherSites(s, a, id); }
  }

  lemma StepConserves(w: World, a: Action, id: SiteId)
    requires Enabled(w, a) && !a.Clear? && Permits(w, id) == Active(w.state, id)
    ensures Permits(Next(w, a), id) == Active(Next(w, a).state, id)
  {
    if OneSite(a) && id == a.site {
      if a.Release? { ReleasingCounts(w.state, a); }
      else if a.Cancel? || a.Timeout? { RemovingCounts(w.state, a); }
      else { GrantingCounts(w.state, a); }
    } else {
      OtherCounts(w.state, a, id);
    }
  }

  /** With `clear`, the active count never exceeds the live permits. */
  lemma ActiveAtMostPermits(ws: seq<World>, actions: seq<Action>, i: nat, id: SiteId)
    requires Run(ws, actions) && i < |ws|
    ensures Active(ws[i].state, id) <= Permits(ws[i], id)
  {
    RunInv(ws, actions, i);
    if id in ws[i].state.sites {
      assert SiteOk(ws[i].state.sites[id], Permits(ws[i], id), Slots(ws[i], id), ws[i].tallies[id]);
    }
  }

  /** `clear` keeps the counts exact precisely when no permit is live. */
  lemma ClearConservesIffIdle(w: World)
    ensures Conserved(Next(w, Clear)) <==> forall id :: Permits(w, id) == 0
  {
    var t := Next(w, Clear);
    assert forall id :: Permits(t, id) == Permits(w, id);
  }

  lemma NextAt(w: World, a: Action)
    requires OneSite(a)
    ensures Next(w, a).state == Step(w.state, a).state
    ensures Permits(Next(w, a), a.site) == NextPermits(w, a)
    ensures Slots(Next(w, a), a.site) == Slots(w, a.site) + Assigned(w.state, a)
  {
  }

  ghost predicate Reachable(w: World) {
    exists ws, actions :: Run(ws, actions) && w == ws[|ws| - 1]
  }

  lemma InitialReachable()
    ensures Reachable(INITIAL)
  {
    var ws, actions: seq<Action> := [INITIAL], [];
    assert Run(ws, actions);
  }

  lemma RunExtends(ws: seq<World>, actions: seq<Action>, a: Action, t: World)
    requires Run(ws, actions) && Moves(ws[|ws| - 1], a, t)
    ensures Run(ws + [t], actions + [a]) && (ws + [t])[|ws + [t]| - 1] == t
  {
    var us, bs := ws + [t], actions + [a];
    assert us[0] == ws[0];
    forall i | 0 <= i < |bs| ensures Moves(us[i], bs[i], us[i + 1]) {
      if i < |actions| {
        assert us[i] == ws[i] && us[i + 1] == ws[i + 1] && bs[i] == actions[i];
      }
    }
  }

  lemma NextReachable(w: World, a: Action)
    requires Reachable(w) && Enabled(w, a)
    ensures Reachable(Next(w, a))
  {
    var ws, actions :| Run(ws, actions) && w == ws[|ws| - 1];
    RunExtends(ws, actions, a, Next(w, a));
  }

  /** `n` slots of the site are taken and nobody waits. */
  ghost predicate Busy(s: State, id: SiteId, n: nat) {
    Active(s, id) == n && (id in s.sites ==> s.sites[id].queue == [])
  }

  lemma AcquireBusy(s: State, a: Action, n: nat)
    requires a.Acquire? && Busy(s, a.site, n) && n < a.maximumActive
    ensures var t := Step(s, a).state;
            && Busy(t, a.site, n + 1) && a.site in t.sites && t.sites[a.site].maximumActive == a.maximumActive
            && |Assigned(s, a)| == 1
  {
    assert Promoted(s, a.site, a.maximumActive, a.maximumQueue) == [];
  }

  lemma {:induction false} Fill(a: Action, n: nat) returns (w: World)
    requires a.Acquire? && n <= a.maximumActive
    ensures Reachable(w) && Busy(w.state, a.site, n) && Permits(w, a.site) == n
  {
    if n == 0 {
      w := INITIAL;
      InitialReachable();
    } else {
      var before := Fill(a, n - 1);
      AcquireBusy(before.state, a, n - 1);
      NextAt(before, a);
      NextReachable(before, a);
      w := Next(before, a);
    }
  }

  /**
   Under every limit there is a run after which a site has more live permits than its limit: fill the site, clear
   the limiter, acquire once more.
   */
  lemma ClearCanExceedTheLimit(a: Action) returns (w: World)
    requires a.Acquire? && a.maximumActive >= 1
    ensures Reachable(w) && a.site in w.state.sites && w.state.sites[a.site].maximumActive == a.maximumActive
    ensures Permits(w, a.site) == a.maximumActive + 1
  {
    var full := Fill(a, a.maximumActive);
    var cleared := Next(full, Clear);
    NextReachable(full, Clear);
    assert Busy(cleared.state, a.site, 0) && Permits(cleared, a.site) == a.maximumActive;
    AcquireBusy(cleared.state, a, 0);
    NextAt(cleared, a);
    NextReachable(cleared, a);
    w := Next(cleared, a);
  }

  /** No permit is live when the limiter is cleared. */
  ghost predicate ClearedIdle(w: World, a: Action) { a.Clear? ==> forall id :: Permits(w, id) == 0 }

  lemma ConservedStep(w: World, a: Action)
    requires Enabled(w, a) && Conserved(w) && ClearedIdle(w, a)
    ensures Conserved(Next(w, a))
  {
    if a.Clear? {
      ClearConservesIffIdle(w);
    } else {
      forall id ensures Permits(Next(w, a), id) == Active(Next(w, a).state, id) {
        StepConserves(w, a, id);
      }
    }
  }

  /** Unless `clear` finds a live permit, the active count of a site is the number of its live permits. */
  lemma {:induction false} ActiveCountsPermits(ws: seq<World>, actions: seq<Action>, i: nat)
    requires Run(ws, actions) && i < |ws| && forall j: nat :: j < i ==> ClearedIdle(ws[j], actions[j])
    ensures Conserved(ws[i])
  {
    if i > 0 {
      ActiveCountsPermits(ws, actions, i - 1);
      assert Moves(ws[i - 1], actions[i - 1], ws[i]);
      ConservedStep(ws[i - 1], actions[i - 1]);
    }
  }

  /** The active counts are exact in every state of a run if and only if every `clear` finds no live permit. */
  lemma ConservedIff(ws: seq<World>, actions: seq<Action>)
    requires Run(ws, actions)
    ensures (forall i: nat :: i < |ws| ==> Conserved(ws[i])) <==>
            (forall i: nat :: i < |actions| ==> ClearedIdle(ws[i], actions[i]))
  {
    if forall i: nat :: i < |actions| ==> ClearedIdle(ws[i], actions[i]) {
      forall i: nat | i < |ws| ensures Conserved(ws[i]) {
        ActiveCountsPermits(ws, actions, i);
      }
    } else {
      var i: nat :| i < |actions| && !ClearedIdle(ws[i], actions[i]);
      ClearConservesIffIdle(ws[i]);
      assert !Conserved(ws[i + 1]);
    }
  }

  /** No step raises the active count of a site above the limit then in force. */
  lemma StepRespectsLimit(w: World, a: Action, id: SiteId)
    ensures RespectsLimit(w.state, Next(w, a).state, id)
  {
    if OneSite(a) && id == a.site {
      if a.Release? { ReleasingCounts(w.state, a); }
      else if a.Cancel? || a.Timeout? { RemovingCounts(w.state, a); }
      else { GrantingCounts(w.state, a); }
    } else if !a.Clear? {
      OtherCounts(w.state, a, id);
    }
  }

  /** The active count of a site only rises up to the limit then in force. */
  ghost predicate RespectsLimit(before: State, after: State, id: SiteId) {
    Active(after, id) > Active(before, id) ==> id in after.sites && Active(after, id) <= after.sites[id].maximumActive
  }

  lemma {:induction false} ApproachesLimit(ws: seq<World>, i: nat, j: nat, id: SiteId, limit: nat)
    requires i <= j < |ws|
    requires forall k :: i <= k < j ==> RespectsLimit(ws[k].state, ws[k + 1].state, id)
    requires forall k :: i <= k <= j && id in ws[k].state.sites ==> ws[k].state.sites[id].maximumActive <= limit
    ensures Active(ws[j].state, id) <= (if Active(ws[i].state, id) > limit then Active(ws[i].state, id) else limit)
    decreases j
  {
    if i < j {
      ApproachesLimit(ws, i, j - 1, id, limit);
      assert RespectsLimit(ws[j - 1].state, ws[j - 1 + 1].state, id);
    }
  }

  /** While the limit in force stays at or below `limit`, an active count above it can only fall. */
  lemma LoweredLimitIsApproached(ws: seq<World>, actions: seq<Action>, i: nat, j: nat, id: SiteId, limit: nat)
    requires Run(ws, actions) && i <= j < |ws|
    requires forall k :: i <= k <= j && id in ws[k].state.sites ==> ws[k].state.sites[id].maximumActive <= limit
    ensures Active(ws[j].state, id) <= (if Active(ws[i].state, id) > limit then Active(ws[i].state, id) else limit)
  {
    forall k | i <= k < j ensures RespectsLimit(ws[k].state, ws[k + 1].state, id) {
      StepRespectsLimit(ws[k], actions[k], id);
    }
    ApproachesLimit(ws, i, j, id, limit);
  }

  // ---------------------------------------------------------------- progress

  /** The waiter `x` has `p` waiters before it, and at most `m` of them and of the slots above the limit remain. */
  ghost predicate Waits(site: Site, x: WaiterId, p: nat, m: nat) {
    p < |site.queue| && site.queue[p] == x && site.active + p <= site.maximumActive + m
  }

  ghost predicate Queues(site: Site, x: WaiterId, m: nat) { exists p: nat :: Waits(site, x, p, m) }

  ghost predicate Waiting(w: World, id: SiteId, x: WaiterId, m: nat) {
    id in w.state.sites && Queues(w.state.sites[id], x, m)
  }

  /** The waiter has been given its slot, or it still waits, for at most `m` more releases. */
  ghost predicate InLine(w: World, id: SiteId, x: WaiterId, m: nat) {
    x in Slots(w, id) || Waiting(w, id, x, m)
  }

  /** Nothing takes the waiter out of the queue, and the limit of its site is not lowered. */
  ghost predicate Undisturbed(w: World, a: Action, id: SiteId, x: WaiterId) {
    && !a.Clear?
    && ((a.Cancel? || a.Timeout?) && a.site == id ==> a.waiter != x)
    && ((a.Acquire? || a.UpdateLimits?) && a.site == id && id in w.state.sites ==>
          w.state.sites[id].maximumActive <= a.maximumActive)
  }

  lemma PromotionMoves(site: Site, x: WaiterId, p: nat, m: nat)
    requires Waits(site, x, p, m)
    ensures if p < Room(site) then x in site.queue[..Room(site)] else Waits(Promote(site), x, p - Room(site), m)
  {
    if p < Room(site) {
      assert site.queue[..Room(site)][p] == x;
    }
  }

  lemma LimitsMove(w: World, id: SiteId, maximumActive: nat, maximumQueue: nat, x: WaiterId, m: nat)
    requires Waiting(w, id, x, m) && w.state.sites[id].maximumActive <= maximumActive
    ensures var p := PromotionState(w.state, id, maximumActive, maximumQueue);
            x in Promoted(w.state, id, maximumActive, maximumQueue)
            || (id in p.sites && Queues(p.sites[id], x, m))
  {
    var before := Configured(w.state, id, maximumActive, maximumQueue);
    var p: nat :| Waits(w.state.sites[id], x, p, m);
    assert Waits(before, x, p, m);
    PromotionMoves(before, x, p, m);
  }

  lemma AdmissionMoves(p: State, id: SiteId, x: WaiterId, k: nat, m: nat)
    requires id in p.sites && Waits(p.sites[id], x, k, m)
    ensures Waits(Admission(p, id).state.sites[id], x, k, m)
  {
  }

  lemma AcquireMoves(w: World, a: Action, x: WaiterId, m: nat)
    requires a.Acquire? && Waiting(w, a.site, x, m) && Undisturbed(w, a, a.site, x)
    ensures InLine(Next(w, a), a.site, x, m)
  {
    var p := PromotionState(w.state, a.site, a.maximumActive, a.maximumQueue);
    LimitsMove(w, a.site, a.maximumActive, a.maximumQueue, x, m);
    AcquireParts(w.state, a, p);
    NextAt(w, a);
    if x !in Promoted(w.state, a.site, a.maximumActive, a.maximumQueue) {
      var k: nat :| Waits(p.sites[a.site], x, k, m);
      AdmissionMoves(p, a.site, x, k, m);
    }
  }

  lemma UpdateMoves(w: World, a: Action, x: WaiterId, m: nat)
    requires a.UpdateLimits? && Waiting(w, a.site, x, m) && Undisturbed(w, a, a.site, x)
    ensures InLine(Next(w, a), a.site, x, m)
  {
    LimitsMove(w, a.site, a.maximumActive, a.maximumQueue, x, m);
    NextAt(w, a);
  }

  lemma CutPlaces(queue: seq<WaiterId>, left: seq<WaiterId>, i: nat, p: nat, q: nat)
    requires i < |queue| && p < |queue| && p != i && left == queue[..i] + queue[i + 1..]
    requires q == if p < i then p else p - 1
    ensures q < |left| && left[q] == queue[p]
  {
  }

  lemma CutMoves(site: Site, left: Site, y: WaiterId, x: WaiterId, p: nat, m: nat)
    requires Waits(site, x, p, m) && y in site.queue && y != x
    requires left.queue == Without(site.queue, y)
    requires left.active == site.active && left.maximumActive == site.maximumActive
    ensures Queues(left, x, m)
  {
    var i := WithoutCuts(site.queue, y);
    var q := if p < i then p else p - 1;
    CutPlaces(site.queue, left.queue, i, p, q);
    assert Waits(left, x, q, m);
  }

  /** Cancelling or timing out another waiter moves it up or leaves it where it is. */
  lemma RemovedSite(s: State, a: Action, site: Site, x: WaiterId, m: nat)
    requires (a.Cancel? || a.Timeout?) && a.site in s.sites && site == s.sites[a.site] && a.waiter in site.queue
    requires Queues(site, x, m) && a.waiter != x
    ensures var t := Step(s, a).state; a.site in t.sites && Queues(t.sites[a.site], x, m)
  {
    var p: nat :| Waits(site, x, p, m);
    var late := if a.Timeout? then 1 else 0;
    var left := site.(queue := Without(site.queue, a.waiter),
                      rejected := site.rejected + late, timeouts := site.timeouts + late);
    CutMoves(site, left, a.waiter, x, p, m);
    assert left.queue != [];
    assert Step(s, a).state.sites == Store(s.sites, a.site, left);
  }

  lemma RemovalMoves(w: World, a: Action, x: WaiterId, m: nat)
    requires (a.Cancel? || a.Timeout?) && Waiting(w, a.site, x, m) && a.waiter != x
    ensures InLine(Next(w, a), a.site, x, m)
  {
    NextAt(w, a);
    if a.waiter in w.state.sites[a.site].queue {
      RemovedSite(w.state, a, w.state.sites[a.site], x, m);
    }
  }

  lemma ReleaseAbove(s: State, a: Action, site: Site)
    requires a.Release? && a.site in s.sites && site == s.sites[a.site]
    requires site.active > site.maximumActive && site.queue != []
    ensures a.site in Step(s, a).state.sites && Step(s, a).state.sites[a.site] == site.(active := site.active - 1)
  {
  }

  /** A release at a site at or above its limit takes one off the sum of active slots and place in the queue. */
  lemma ReleasedSite(w: World, a: Action, site: Site, x: WaiterId, p: nat, m: nat)
    requires a.Release? && a.site in w.state.sites && site == w.state.sites[a.site] && Permits(w, a.site) > 0
    requires site.active >= site.maximumActive && Waits(site, x, p, m)
    ensures var sites := Step(w.state, a).state.sites;
            || Assigned(w.state, a) == [x]
            || (m > 0 && a.site in sites && Queues(sites[a.site], x, m - 1))
  {
    if site.active > site.maximumActive {
      ReleaseAbove(w.state, a, site);
      assert Waits(Step(w.state, a).state.sites[a.site], x, p, m - 1);
    } else {
      HandOverNumbers(w, a, site);
      if p > 0 {
        assert Waits(Step(w.state, a).state.sites[a.site], x, p - 1, m - 1);
      }
    }
  }

  /** A release brings the waiter one place nearer, or serves it. */
  lemma ReleaseMoves(w: World, a: Action, x: WaiterId, m: nat)
    requires Inv(w) && Enabled(w, a) && a.Release? && Waiting(w, a.site, x, m)
    ensures if m == 0 then x in Slots(Next(w, a), a.site) else InLine(Next(w, a), a.site, x, m - 1)
  {
    var site := w.state.sites[a.site];
    var p: nat :| Waits(site, x, p, m);
    assert site.active >= site.maximumActive by {
      assert SiteOk(site, Permits(w, a.site), Slots(w, a.site), w.tallies[a.site]);
    }
    ReleasedSite(w, a, site, x, p, m);
    NextAt(w, a);
  }

  lemma ElsewhereMoves(w: World, a: Action, id: SiteId, x: WaiterId, m: nat)
    requires Waiting(w, id, x, m) && !a.Clear? && (OneSite(a) ==> a.site != id)
    ensures Waiting(Next(w, a), id, x, m)
  {
    var p: nat :| Waits(w.state.sites[id], x, p, m);
    if OneSite(a) {
      OtherSites(w.state, a, id);
    }
    assert Waits(Next(w, a).state.sites[id], x, p, m);
  }

  lemma SlotsStay(w: World, a: Action, id: SiteId, x: WaiterId)
    requires x in Slots(w, id)
    ensures x in Slots(Next(w, a), id)
  {
  }

  predicate ReleaseAt(a: Action, id: SiteId) { a.Release? && a.site == id }

  /** After `n` releases. */
  ghost predicate Nearer(w: World, id: SiteId, x: WaiterId, m: nat, n: nat) {
    if n > m then x in Slots(w, id) else InLine(w, id, x, m - n)
  }

  lemma WaitingStep(w: World, a: Action, id: SiteId, x: WaiterId, m: nat)
    requires Inv(w) && Enabled(w, a) && Waiting(w, id, x, m) && Undisturbed(w, a, id, x)
    ensures Nearer(Next(w, a), id, x, m, Count(ReleaseAt(a, id)))
  {
    if !OneSite(a) || a.site != id {
      ElsewhereMoves(w, a, id, x, m);
    } else {
      match a
      case Acquire(_, _, _) => AcquireMoves(w, a, x, m);
      case Release(_, _) => ReleaseMoves(w, a, x, m);
      case UpdateLimits(_, _, _) => UpdateMoves(w, a, x, m);
      case Cancel(_, _) => RemovalMoves(w, a, x, m);
      case Timeout(_, _) => RemovalMoves(w, a, x, m);
    }
  }

  lemma NearerLater(w: World, t: World, id: SiteId, x: WaiterId, m: nat, n: nat, k: nat)
    requires Nearer(w, id, x, m, n)
    requires if x in Slots(w, id) then x in Slots(t, id) else n <= m && Nearer(t, id, x, m - n, k)
    ensures Nearer(t, id, x, m, n + k)
  {
  }

  lemma NearerStep(w: World, a: Action, id: SiteId, x: WaiterId, m: nat, n: nat)
    requires Inv(w) && Enabled(w, a) && Undisturbed(w, a, id, x) && Nearer(w, id, x, m, n)
    ensures Nearer(Next(w, a), id, x, m, n + Count(ReleaseAt(a, id)))
  {
    if x in Slots(w, id) {
      SlotsStay(w, a, id, x);
    } else {
      WaitingStep(w, a, id, x, m - n);
    }
    NearerLater(w, Next(w, a), id, x, m, n, Count(ReleaseAt(a, id)));
  }

  /** How many permits of the site are destroyed in the steps `i` to `j`. */
  function ReleasesIn(actions: seq<Action>, i: nat, j: nat, id: SiteId): nat
    requires i <= j <= |actions|
  {
    if i == j then 0 else ReleasesIn(actions, i, j - 1, id) + Count(ReleaseAt(actions[j - 1], id))
  }

  /** A step brings the waiter nearer by the releases that it makes. */
  ghost predicate BringsNearer(w: World, a: Action, t: World, id: SiteId, x: WaiterId, m: nat) {
    forall n: nat :: Nearer(w, id, x, m, n) ==> Nearer(t, id, x, m, n + Count(ReleaseAt(a, id)))
  }

  lemma RunBringsNearer(ws: seq<World>, actions: seq<Action>, k: nat, id: SiteId, x: WaiterId, m: nat)
    requires Run(ws, actions) && k < |actions| && Undisturbed(ws[k], actions[k], id, x)
    ensures BringsNearer(ws[k], actions[k], ws[k + 1], id, x, m)
  {
    RunInv(ws, actions, k);
    assert Moves(ws[k], actions[k], ws[k + 1]);
    forall n: nat | Nearer(ws[k], id, x, m, n)
      ensures Nearer(ws[k + 1], id, x, m, n + Count(ReleaseAt(actions[k], id)))
    {
      NearerStep(ws[k], actions[k], id, x, m, n);
    }
  }

  lemma {:induction false} NearerAfter(
    ws: seq<World>, actions: seq<Action>, i: nat, j: nat, id: SiteId, x: WaiterId, m: nat)
    requires i <= j < |ws| && |ws| == |actions| + 1 && Nearer(ws[i], id, x, m, 0)
    requires forall k: nat :: i <= k < j ==> BringsNearer(ws[k], actions[k], ws[k + 1], id, x, m)
    ensures Nearer(ws[j], id, x, m, ReleasesIn(actions, i, j, id))
    decreases j
  {
    if i < j {
      var k := j - 1;
      NearerAfter(ws, actions, i, k, id, x, m);
      assert BringsNearer(ws[k], actions[k], ws[k + 1], id, x, m);
    }
  }

  /**
   In any run, whatever else happens meanwhile: a queued request that is not taken out of the queue, at a site whose
   limit is not lowered, has been given its slot once one permit was destroyed for every slot above the limit, for
   every request queued before it, and for itself.
   */
  lemma ServedInTurn(ws: seq<World>, actions: seq<Action>, i: nat, j: nat, id: SiteId, position: nat)
    requires Run(ws, actions) && i <= j < |ws|
    requires id in ws[i].state.sites && position < |ws[i].state.sites[id].queue|
    requires var x := ws[i].state.sites[id].queue[position];
             forall k :: i <= k < j ==> Undisturbed(ws[k], actions[k], id, x)
    requires var site := ws[i].state.sites[id];
             ReleasesIn(actions, i, j, id) > site.active - site.maximumActive + position
    ensures ws[i].state.sites[id].queue[position] in Slots(ws[j], id)
  {
    var site := ws[i].state.sites[id];
    NoIdleCapacity(ws, actions, i, id);
    var m: nat := site.active - site.maximumActive + position;
    var x := site.queue[position];
    assert Waits(site, x, position, m);
    forall k: nat | i <= k < j ensures BringsNearer(ws[k], actions[k], ws[k + 1], id, x, m) {
      RunBringsNearer(ws, actions, k, id, x, m);
    }
    NearerAfter(ws, actions, i, j, id, x, m);
  }
}
