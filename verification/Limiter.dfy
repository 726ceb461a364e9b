/**
 The backend concurrency limiter: per-site slots and a FIFO queue of waiters.

 Every public operation of the limiter runs under one mutex, so each is one atomic step.
 `Step` gives the effect of a step on an immutable `State`; the class `Limiter` holds the
 fields the program updates in place, and each of its methods is proved to compute `Step`.
 Run-level theorems are in LimiterRuns.dfy.
 */
module ConcurrencyLimiter {

  type SiteId = nat
  type WaiterId = nat

  /** A `Pending::State` object: the request behind a waiter id and its `completed` flag. */
  datatype Waiter = Waiter(site: SiteId, completed: bool)

  datatype Site = Site(
    maximumActive: nat,
    maximumQueue: nat,
    active: nat,
    rejected: nat,
    timeouts: nat,
    queue: seq<WaiterId>,
    retired: bool)
  {
    predicate Drained() { retired && active == 0 && queue == [] }
  }

  const EMPTY_SITE := Site(0, 0, 0, 0, 0, [], false)

  datatype State = State(sites: map<SiteId, Site>, nextId: WaiterId, waiters: map<WaiterId, Waiter>)

  /** What a waiter without a permit is told. `Lost` is the hand-over whose permit could not be allocated. */
  datatype Refusal = QueueFull | QueueTimeout | Cancelled | Lost

  datatype Action =
    | Acquire(site: SiteId, maximumActive: nat, maximumQueue: nat)
    | Release(site: SiteId, permitAllocated: bool)
    | Cancel(site: SiteId, waiter: WaiterId)
    | Timeout(site: SiteId, waiter: WaiterId)
    | UpdateLimits(site: SiteId, maximumActive: nat, maximumQueue: nat)
    | Retain(keep: set<SiteId>)
    | Clear

  /** The state after a step, the waiters given a slot in order, and the waiters refused. */
  datatype Effect = Effect(state: State, granted: seq<WaiterId>, refused: map<WaiterId, Refusal>)

  // ---------------------------------------------------------------- specification

  function Min(a: nat, b: nat): nat { if a <= b then a else b }

  function Pred(n: nat): nat { if n == 0 then 0 else n - 1 }

  /** How many queued waiters fit under the limit. */
  function Room(site: Site): (k: nat)
    ensures k <= |site.queue|
  {
    if site.active < site.maximumActive then Min(site.maximumActive - site.active, |site.queue|) else 0
  }

  function Promote(site: Site): Site {
    site.(active := site.active + Room(site), queue := site.queue[Room(site)..])
  }

  /** Sets the completed flag of every waiter in `ids`. */
  function Complete(waiters: map<WaiterId, Waiter>, ids: seq<WaiterId>): map<WaiterId, Waiter> {
    map w | w in waiters :: if w in ids then waiters[w].(completed := true) else waiters[w]
  }

  lemma CompleteOneMore(waiters: map<WaiterId, Waiter>, ids: seq<WaiterId>, w: WaiterId)
    requires w in waiters && w !in ids
    ensures Complete(waiters, ids)[w] == waiters[w]
    ensures Complete(waiters, ids + [w]) == Complete(waiters, ids)[w := Waiter(waiters[w].site, true)]
  {
  }

  lemma CompleteTwice(waiters: map<WaiterId, Waiter>, a: seq<WaiterId>, b: seq<WaiterId>)
    ensures Complete(Complete(waiters, a), b) == Complete(waiters, a + b)
  {
  }

  function Store(sites: map<SiteId, Site>, id: SiteId, site: Site): map<SiteId, Site> {
    if site.Drained() then sites - {id} else sites[id := site]
  }

  function Configured(s: State, id: SiteId, maximumActive: nat, maximumQueue: nat): Site {
    var site := if id in s.sites then s.sites[id] else EMPTY_SITE;
    site.(maximumActive := maximumActive, maximumQueue := maximumQueue, retired := false)
  }

  /** The state once the site has the given limits and the waiters that fit are promoted. */
  function PromotionState(s: State, id: SiteId, maximumActive: nat, maximumQueue: nat): State {
    var before := Configured(s, id, maximumActive, maximumQueue);
    State(s.sites[id := Promote(before)], s.nextId, Complete(s.waiters, before.queue[..Room(before)]))
  }

  function Promoted(s: State, id: SiteId, maximumActive: nat, maximumQueue: nat): seq<WaiterId> {
    var before := Configured(s, id, maximumActive, maximumQueue);
    before.queue[..Room(before)]
  }

  /** A new request at a site whose waiters are promoted: a slot, a refusal, or a place in the queue. */
  function Admission(p: State, id: SiteId): Effect
    requires id in p.sites
  {
    var site := p.sites[id];
    var self := p.nextId;
    if site.queue == [] && site.active < site.maximumActive then
      Effect(Admitted(p, id, site.(active := site.active + 1), false), [self], map[])
    else if |site.queue| >= site.maximumQueue then
      Effect(Admitted(p, id, site.(rejected := site.rejected + 1), false), [], map[self := QueueFull])
    else
      Effect(Admitted(p, id, site.(queue := site.queue + [self]), true), [], map[])
  }

  function Admitted(p: State, id: SiteId, site: Site, queued: bool): State {
    State(p.sites[id := site], p.nextId + 1, p.waiters[p.nextId := Waiter(id, !queued)])
  }

  function AcquireStep(s: State, id: SiteId, maximumActive: nat, maximumQueue: nat): Effect {
    var admission := Admission(PromotionState(s, id, maximumActive, maximumQueue), id);
    admission.(granted := Promoted(s, id, maximumActive, maximumQueue) + admission.granted)
  }

  function ReleaseStep(s: State, id: SiteId, permitAllocated: bool): Effect {
    if id !in s.sites then Effect(s, [], map[]) else
    var site := s.sites[id];
    if site.active > site.maximumActive then
      Effect(s.(sites := Store(s.sites, id, site.(active := site.active - 1))), [], map[])
    else if site.queue != [] then
      var next := site.queue[0];
      var handed := State(s.sites[id := site.(queue := site.queue[1..])], s.nextId, Complete(s.waiters, [next]));
      if permitAllocated then Effect(handed, [next], map[]) else Effect(handed, [], map[next := Lost])
    else
      Effect(s.(sites := Store(s.sites, id, site.(active := Pred(site.active)))), [], map[])
  }

  /** The waiters a release can hand its slot to: none while the site is above its limit. */
  function Candidates(s: State, id: SiteId): seq<WaiterId> {
    if id in s.sites && s.sites[id].active <= s.sites[id].maximumActive then s.sites[id].queue else []
  }

  /** The candidates refused when the first `failures` permit allocations throw. */
  function LostWaiters(s: State, id: SiteId, failures: nat): seq<WaiterId> {
    Candidates(s, id)[..Min(failures, |Candidates(s, id)|)]
  }

  function NextWaiter(s: State, id: SiteId, failures: nat): seq<WaiterId> {
    if failures < |Candidates(s, id)| then [Candidates(s, id)[failures]] else []
  }

  /**
   The state after a release whose first `failures` permit allocations throw: the refused waiters leave
   the queue, and the slot goes to the next waiter or is given back, so no slot is lost.
   */
  function Released(s: State, id: SiteId, failures: nat): State {
    if id !in s.sites then s else
    var site := s.sites[id];
    var gone := LostWaiters(s, id, failures) + NextWaiter(s, id, failures);
    var left := site.(queue := site.queue[|gone|..]);
    State(if NextWaiter(s, id, failures) != [] then s.sites[id := left]
          else Store(s.sites, id, left.(active := Pred(site.active))),
          s.nextId, Complete(s.waiters, gone))
  }

  lemma LastHandOver(s: State, id: SiteId, failures: nat)
    requires Candidates(s, id) == [] || failures == 0
    ensures var e := ReleaseStep(s, id, true);
            && Released(s, id, failures) == e.state
            && LostWaiters(s, id, failures) == []
            && NextWaiter(s, id, failures) == e.granted
  {
    assert Complete(s.waiters, []) == s.waiters;
  }

  lemma HandOverTakesFirst(s: State, id: SiteId)
    requires Candidates(s, id) != []
    ensures var site := s.sites[id];
            var t := ReleaseStep(s, id, true).state;
            && t.sites == s.sites[id := site.(queue := site.queue[1..])]
            && t.nextId == s.nextId && t.waiters == Complete(s.waiters, [site.queue[0]])
            && Candidates(s, id) == site.queue && Candidates(t, id) == site.queue[1..]
  {
  }

  lemma RestOfQueue(queue: seq<WaiterId>, failures: nat)
    requires queue != [] && failures > 0
    ensures var rest := queue[1..];
            && queue[..Min(failures, |queue|)] == [queue[0]] + rest[..Min(failures - 1, |rest|)]
            && (failures < |queue| ==> queue[failures] == rest[failures - 1])
  {
  }

  /** A failed hand-over followed by another release is a release with one more failure. */
  lemma FailedHandOver(s: State, id: SiteId, failures: nat)
    requires Candidates(s, id) != [] && failures > 0
    ensures var t := ReleaseStep(s, id, true).state;
            && Released(s, id, failures) == Released(t, id, failures - 1)
            && LostWaiters(s, id, failures) == [Candidates(s, id)[0]] + LostWaiters(t, id, failures - 1)
            && NextWaiter(s, id, failures) == NextWaiter(t, id, failures - 1)
  {
    var t := ReleaseStep(s, id, true).state;
    HandOverTakesFirst(s, id);
    RestOfQueue(s.sites[id].queue, failures);
    var gone := LostWaiters(t, id, failures - 1) + NextWaiter(t, id, failures - 1);
    CompleteTwice(s.waiters, [Candidates(s, id)[0]], gone);
    assert LostWaiters(s, id, failures) + NextWaiter(s, id, failures) == [Candidates(s, id)[0]] + gone;
    assert s.sites[id].queue[1..][|gone|..] == s.sites[id].queue[1 + |gone|..];
  }

  function Without(queue: seq<WaiterId>, w: WaiterId): (r: seq<WaiterId>)
    requires w in queue
  {
    if queue[0] == w then queue[1..] else [queue[0]] + Without(queue[1..], w)
  }

  function RemoveStep(s: State, id: SiteId, w: WaiterId, refusal: Refusal): Effect {
    if id !in s.sites || w !in s.sites[id].queue then Effect(s, [], map[]) else
    var site := s.sites[id];
    var late := if refusal == QueueTimeout then 1 else 0;
    var left := site.(queue := Without(site.queue, w),
                      rejected := site.rejected + late, timeouts := site.timeouts + late);
    Effect(State(Store(s.sites, id, left), s.nextId, Complete(s.waiters, [w])), [], map[w := refusal])
  }

  function UpdateStep(s: State, id: SiteId, maximumActive: nat, maximumQueue: nat): Effect {
    if id !in s.sites then Effect(s, [], map[]) else
    Effect(PromotionState(s, id, maximumActive, maximumQueue), Promoted(s, id, maximumActive, maximumQueue), map[])
  }

  function Marked(site: Site, kept: bool): Site {
    if kept then site else site.(retired := true)
  }

  predicate Stays(site: Site, kept: bool) { kept || site.active != 0 || site.queue != [] }

  function Retained(sites: map<SiteId, Site>, keep: set<SiteId>): map<SiteId, Site> {
    map id | id in sites && Stays(sites[id], id in keep) :: Marked(sites[id], id in keep)
  }

  function Queued(s: State): set<WaiterId> {
    set id, w | id in s.sites && w in s.sites[id].queue :: w
  }

  function ClearStep(s: State): Effect {
    Effect(State(map[], s.nextId, map w | w in s.waiters ::
                   if w in Queued(s) then s.waiters[w].(completed := true) else s.waiters[w]),
           [], map w | w in Queued(s) :: Cancelled)
  }

  function Step(s: State, a: Action): Effect {
    match a
    case Acquire(id, maximumActive, maximumQueue) => AcquireStep(s, id, maximumActive, maximumQueue)
    case Release(id, permitAllocated) => ReleaseStep(s, id, permitAllocated)
    case Cancel(id, w) => RemoveStep(s, id, w, Cancelled)
    case Timeout(id, w) => RemoveStep(s, id, w, QueueTimeout)
    case UpdateLimits(id, maximumActive, maximumQueue) => UpdateStep(s, id, maximumActive, maximumQueue)
    case Retain(keep) => Effect(s.(sites := Retained(s.sites, keep)), [], map[])
    case Clear => ClearStep(s)
  }

  // ---------------------------------------------------------------- state invariant

  ghost predicate Increasing(ids: seq<WaiterId>) {
    forall i, j :: 0 <= i < j < |ids| ==> ids[i] < ids[j]
  }

  /** A queue holds uncompleted waiters of its own site, oldest first. */
  ghost predicate QueueOk(s: State, id: SiteId)
    requires id in s.sites
  {
    var queue := s.sites[id].queue;
    && Increasing(queue)
    && forall w :: w in queue ==> w in s.waiters && s.waiters[w] == Waiter(id, false)
  }

  /** Queued waiters are exactly the uncompleted ones, and ids are handed out in order. */
  ghost predicate Valid(s: State) {
    && 1 <= s.nextId
    && (forall w :: w in s.waiters <==> 1 <= w < s.nextId)
    && (forall id :: id in s.sites ==> QueueOk(s, id))
    && (forall w :: w in s.waiters && !s.waiters[w].completed ==>
          s.waiters[w].site in s.sites && w in s.sites[s.waiters[w].site].queue)
  }

  /** Taking a waiter out cuts the queue at its place. */
  lemma {:induction false} WithoutCuts(queue: seq<WaiterId>, w: WaiterId) returns (i: nat)
    requires w in queue
    ensures i < |queue| && queue[i] == w && Without(queue, w) == queue[..i] + queue[i + 1..]
    decreases |queue|
  {
    if queue[0] == w {
      i := 0;
    } else {
      var k := WithoutCuts(queue[1..], w);
      i := k + 1;
      assert queue[..i] == [queue[0]] + queue[1..][..k];
    }
  }

  lemma CutKeepsOrder(queue: seq<WaiterId>, i: nat)
    requires i < |queue| && Increasing(queue)
    ensures Increasing(queue[..i] + queue[i + 1..])
  {
    var left := queue[..i] + queue[i + 1..];
    assert forall k :: 0 <= k < |left| ==> left[k] == queue[if k < i then k else k + 1];
  }

  lemma CutElements(queue: seq<WaiterId>, i: nat, v: WaiterId)
    requires i < |queue| && Increasing(queue)
    ensures v in queue[..i] + queue[i + 1..] <==> v in queue && v != queue[i]
  {
    assert queue == queue[..i] + [queue[i]] + queue[i + 1..];
  }

  lemma WithoutKeepsOrder(queue: seq<WaiterId>, w: WaiterId)
    requires w in queue && Increasing(queue)
    ensures Increasing(Without(queue, w)) && |Without(queue, w)| == |queue| - 1
    ensures forall v :: v in Without(queue, w) <==> v in queue && v != w
  {
    var i := WithoutCuts(queue, w);
    CutKeepsOrder(queue, i);
    forall v ensures v in Without(queue, w) <==> v in queue && v != w {
      CutElements(queue, i, v);
    }
  }

  lemma PromotionKeepsValid(s: State, id: SiteId, maximumActive: nat, maximumQueue: nat)
    requires Valid(s)
    ensures Valid(PromotionState(s, id, maximumActive, maximumQueue))
  {
    var before := Configured(s, id, maximumActive, maximumQueue);
    var t := PromotionState(s, id, maximumActive, maximumQueue);
    assert id in s.sites ==> QueueOk(s, id);
    assert before.queue == before.queue[..Room(before)] + before.queue[Room(before)..];
    forall other | other in t.sites ensures QueueOk(t, other) {
      if other != id { assert QueueOk(s, other); }
    }
  }

  /** A new waiter may be appended to a queue, or be completed at once. */
  lemma AdmittedIsValid(p: State, id: SiteId, site: Site, queued: bool)
    requires Valid(p) && id in p.sites
    requires site.queue == p.sites[id].queue + (if queued then [p.nextId] else [])
    ensures Valid(Admitted(p, id, site, queued))
  {
    var t := Admitted(p, id, site, queued);
    var queue := p.sites[id].queue;
    assert QueueOk(p, id);
    forall i | 0 <= i < |queue| ensures queue[i] < p.nextId { assert queue[i] in queue; }
    forall other | other in t.sites ensures QueueOk(t, other) { assert QueueOk(p, other); }
  }

  lemma AdmissionKeepsValid(p: State, id: SiteId)
    requires Valid(p) && id in p.sites
    ensures Valid(Admission(p, id).state)
  {
    var t := Admission(p, id).state;
    AdmittedIsValid(p, id, t.sites[id], |t.sites[id].queue| > |p.sites[id].queue|);
  }

  lemma AcquireKeepsValid(s: State, id: SiteId, maximumActive: nat, maximumQueue: nat)
    requires Valid(s)
    ensures Valid(AcquireStep(s, id, maximumActive, maximumQueue).state)
  {
    PromotionKeepsValid(s, id, maximumActive, maximumQueue);
    AdmissionKeepsValid(PromotionState(s, id, maximumActive, maximumQueue), id);
  }

  lemma HandOverKeepsValid(s: State, id: SiteId)
    requires Valid(s) && id in s.sites && s.sites[id].queue != []
    ensures var site := s.sites[id];
            Valid(State(s.sites[id := site.(queue := site.queue[1..])], s.nextId, Complete(s.waiters, [site.queue[0]])))
  {
    var site := s.sites[id];
    var t := State(s.sites[id := site.(queue := site.queue[1..])], s.nextId, Complete(s.waiters, [site.queue[0]]));
    assert QueueOk(s, id);
    assert site.queue == [site.queue[0]] + site.queue[1..];
    forall other | other in t.sites ensures QueueOk(t, other) {
      if other != id { assert QueueOk(s, other); }
    }
  }

  lemma ReleaseKeepsValid(s: State, id: SiteId, permitAllocated: bool)
    requires Valid(s)
    ensures Valid(ReleaseStep(s, id, permitAllocated).state)
  {
    if Candidates(s, id) != [] {
      HandOverKeepsValid(s, id);
    } else {
      var t := ReleaseStep(s, id, permitAllocated).state;
      forall other | other in t.sites ensures QueueOk(t, other) { assert QueueOk(s, other); }
    }
  }

  lemma RemoveKeepsValid(s: State, id: SiteId, w: WaiterId, refusal: Refusal)
    requires Valid(s)
    ensures Valid(RemoveStep(s, id, w, refusal).state)
  {
    if id in s.sites && w in s.sites[id].queue {
      var t := RemoveStep(s, id, w, refusal).state;
      assert QueueOk(s, id);
      WithoutKeepsOrder(s.sites[id].queue, w);
      forall other | other in t.sites ensures QueueOk(t, other) {
        if other != id { assert QueueOk(s, other); }
      }
    }
  }

  lemma StepKeepsValid(s: State, a: Action)
    requires Valid(s)
    ensures Valid(Step(s, a).state)
  {
    match a
    case Acquire(id, maximumActive, maximumQueue) => AcquireKeepsValid(s, id, maximumActive, maximumQueue);
    case Release(id, permitAllocated) => ReleaseKeepsValid(s, id, permitAllocated);
    case Cancel(id, w) => RemoveKeepsValid(s, id, w, Cancelled);
    case Timeout(id, w) => RemoveKeepsValid(s, id, w, QueueTimeout);
    case UpdateLimits(id, maximumActive, maximumQueue) => PromotionKeepsValid(s, id, maximumActive, maximumQueue);
    case Retain(keep) =>
      var t := Step(s, a).state;
      forall id | id in t.sites ensures QueueOk(t, id) { assert QueueOk(s, id); }
    case Clear =>
  }

  lemma PrefixGrows(queue: seq<WaiterId>, k: nat)
    requires k < |queue| && Increasing(queue)
    ensures queue[..k + 1] == queue[..k] + [queue[k]] && queue[k] !in queue[..k]
    ensures queue[k..][0] == queue[k] && queue[k..][1..] == queue[k + 1..]
  {
  }

  /** `k` waiters of the site `before` have been promoted. */
  ghost predicate PromotedSoFar(
    flags: map<WaiterId, Waiter>, before: Site, k: nat, site: Site, promoted: seq<WaiterId>,
    waiters: map<WaiterId, Waiter>)
  {
    && k <= |before.queue| && (k > 0 ==> before.active + k <= before.maximumActive)
    && promoted == before.queue[..k]
    && site == before.(active := before.active + k, queue := before.queue[k..])
    && waiters == Complete(flags, promoted)
  }

  ghost predicate AllWait(flags: map<WaiterId, Waiter>, queue: seq<WaiterId>, id: SiteId) {
    forall w :: w in queue ==> w in flags && flags[w] == Waiter(id, false)
  }

  /** The next waiter is still uncompleted, and completing it is promotion `k + 1`. */
  lemma PromotesNext(flags: map<WaiterId, Waiter>, id: SiteId, before: Site, k: nat, site: Site,
                     promoted: seq<WaiterId>, waiters: map<WaiterId, Waiter>)
    requires AllWait(flags, before.queue, id) && Increasing(before.queue)
    requires PromotedSoFar(flags, before, k, site, promoted, waiters)
    requires site.active < site.maximumActive && site.queue != []
    ensures var next := site.queue[0];
            && next in waiters && waiters[next] == Waiter(id, false)
            && PromotedSoFar(flags, before, k + 1, site.(active := site.active + 1, queue := site.queue[1..]),
                             promoted + [next], waiters[next := Waiter(id, true)])
  {
    PrefixGrows(before.queue, k);
    assert before.queue[k] in before.queue;
    CompleteOneMore(flags, promoted, before.queue[k]);
  }

  lemma AllPromoted(flags: map<WaiterId, Waiter>, before: Site, k: nat, site: Site, promoted: seq<WaiterId>,
                    waiters: map<WaiterId, Waiter>)
    requires PromotedSoFar(flags, before, k, site, promoted, waiters)
    requires !(site.active < site.maximumActive && site.queue != [])
    ensures site == Promote(before) && promoted == before.queue[..Room(before)]
    ensures waiters == Complete(flags, promoted)
  {
    assert k == Room(before);
  }

  // ---------------------------------------------------------------- the object

  class Limiter {
    var sites: map<SiteId, Site>
    var nextWaiterId: WaiterId
    var waiters: map<WaiterId, Waiter>

    ghost function View(): State
      reads this
    {
      State(sites, nextWaiterId, waiters)
    }

    constructor ()
      ensures View() == State(map[], 1, map[]) && Valid(View())
    {
      sites, nextWaiterId, waiters := map[], 1, map[];
    }

    /** `compare_exchange_strong(false, true)` on a waiter's flag. */
    method TryComplete(w: WaiterId) returns (won: bool)
      requires w in waiters
      modifies this`waiters
      ensures won == !old(waiters)[w].completed
      ensures waiters == old(waiters)[w := Waiter(old(waiters)[w].site, true)]
    {
      won := !waiters[w].completed;
      waiters := waiters[w := waiters[w].(completed := true)];
    }

    /** The promotion loop shared by acquire and limit changes: it takes exactly the waiters that fit. */
    method PromoteWaiters(id: SiteId, before: Site) returns (site: Site, promoted: seq<WaiterId>)
      requires Increasing(before.queue) && AllWait(waiters, before.queue, id)
      modifies this`waiters
      ensures site == Promote(before) && promoted == before.queue[..Room(before)]
      ensures waiters == Complete(old(waiters), promoted)
    {
      site, promoted := before, [];
      ghost var k := 0;
      assert Complete(waiters, []) == waiters;
      while site.active < site.maximumActive && site.queue != []
        invariant PromotedSoFar(old(waiters), before, k, site, promoted, waiters)
        decreases |site.queue|
      {
        PromotesNext(old(waiters), id, before, k, site, promoted, waiters);
        var candidate := site.queue[0];
        var won := TryComplete(candidate);
        site := site.(queue := site.queue[1..]);
        if !won { continue; }
        site := site.(active := site.active + 1);
        promoted := promoted + [candidate];
        k := k + 1;
      }
      AllPromoted(old(waiters), before, k, site, promoted, waiters);
    }

    /** The common start of acquire and of a limit change: set the limits, then promote. */
    method Configure(id: SiteId, maximumActive: nat, maximumQueue: nat) returns (promoted: seq<WaiterId>)
      requires Valid(View())
      modifies this`sites, this`waiters
      ensures View() == PromotionState(old(View()), id, maximumActive, maximumQueue)
      ensures promoted == Promoted(old(View()), id, maximumActive, maximumQueue)
    {
      var site := if id in sites then sites[id] else EMPTY_SITE;
      site := site.(retired := false);
      site := site.(maximumActive := maximumActive, maximumQueue := maximumQueue);
      assert id in sites ==> QueueOk(View(), id);
      site, promoted := PromoteWaiters(id, site);
      sites := sites[id := site];
    }

    method AsyncAcquire(id: SiteId, maximumActive: nat, maximumQueue: nat)
      returns (self: WaiterId, promoted: seq<WaiterId>, granted: bool, queued: bool)
      requires Valid(View())
      modifies this
      ensures self == old(nextWaiterId)
      ensures var e := AcquireStep(old(View()), id, maximumActive, maximumQueue);
              && View() == e.state
              && e.granted == promoted + (if granted then [self] else [])
              && e.refused == if granted || queued then map[] else map[self := QueueFull]
    {
      promoted := Configure(id, maximumActive, maximumQueue);
      self, granted, queued := Admit(id);
    }

    /** The second half of acquire, in the same critical section. */
    method Admit(id: SiteId) returns (self: WaiterId, granted: bool, queued: bool)
      requires id in sites
      modifies this
      ensures self == old(nextWaiterId)
      ensures var e := Admission(old(View()), id);
              && View() == e.state
              && e.granted == (if granted then [self] else [])
              && e.refused == if granted || queued then map[] else map[self := QueueFull]
    {
      var site := sites[id];
      self := nextWaiterId;
      nextWaiterId := nextWaiterId + 1;
      granted, queued := false, false;
      if site.queue == [] && site.active < site.maximumActive {
        site := site.(active := site.active + 1);
        granted := true;
      } else if |site.queue| >= site.maximumQueue {
        site := site.(rejected := site.rejected + 1);
      } else {
        site := site.(queue := site.queue + [self]);
        queued := true;
      }
      waiters := waiters[self := Waiter(id, !queued)];
      sites := sites[id := site];
    }

    /** The critical section of `release`: give the slot back, or hand it to the first waiter. */
    method HandOver(id: SiteId) returns (next: seq<WaiterId>)
      requires Valid(View())
      modifies this
      ensures |next| <= 1
      ensures View() == ReleaseStep(old(View()), id, true).state
      ensures next == ReleaseStep(old(View()), id, true).granted
    {
      next := [];
      if id !in sites { return; }
      var site := sites[id];
      assert QueueOk(View(), id);
      if site.active > site.maximumActive {
        site := site.(active := site.active - 1);
        sites := Store(sites, id, site);
        return;
      }
      ghost var queue := site.queue;
      while site.queue != [] && next == []
        invariant sites == old(sites) && nextWaiterId == old(nextWaiterId)
        invariant next == [] ==> site == old(sites)[id] && waiters == old(waiters)
        invariant next != [] ==> queue != [] && next == [queue[0]]
                                 && site == old(sites)[id].(queue := queue[1..])
                                 && waiters == Complete(old(waiters), next)
        decreases |site.queue|
      {
        var candidate := site.queue[0];
        site := site.(queue := site.queue[1..]);
        var won := TryComplete(candidate);
        if won { next := [candidate]; }
      }
      if next == [] && site.active != 0 { site := site.(active := site.active - 1); }
      if next == [] {
        sites := Store(sites, id, site);
      } else {
        sites := sites[id := site];
      }
    }

    /** `release`, where the first `failures` permit allocations throw. */
    method Release(id: SiteId, failures: nat) returns (lost: seq<WaiterId>, granted: seq<WaiterId>)
      requires Valid(View())
      modifies this
      ensures View() == Released(old(View()), id, failures)
      ensures lost == LostWaiters(old(View()), id, failures)
      ensures granted == NextWaiter(old(View()), id, failures)
      decreases failures
    {
      ghost var before := View();
      StepKeepsValid(before, Action.Release(id, true));
      granted := HandOver(id);
      lost := [];
      if granted != [] && failures > 0 {
        FailedHandOver(before, id, failures);
        var refused := granted[0];
        lost, granted := Release(id, failures - 1);
        lost := [refused] + lost;
      } else {
        LastHandOver(before, id, failures);
      }
    }

    method CancelPending(id: SiteId, w: WaiterId) returns (cancelled: bool)
      requires Valid(View())
      modifies this
      ensures View() == RemoveStep(old(View()), id, w, Cancelled).state
      ensures cancelled == (w in RemoveStep(old(View()), id, w, Cancelled).refused)
    {
      cancelled := false;
      if id !in sites || w !in sites[id].queue { return; }
      assert QueueOk(View(), id);
      var won := TryComplete(w);
      if !won { return; }
      cancelled := true;
      var site := sites[id];
      sites := Store(sites, id, site.(queue := Without(site.queue, w)));
    }

    method TimeoutPending(id: SiteId, w: WaiterId) returns (timedOut: bool)
      requires Valid(View())
      modifies this
      ensures View() == RemoveStep(old(View()), id, w, QueueTimeout).state
      ensures timedOut == (w in RemoveStep(old(View()), id, w, QueueTimeout).refused)
    {
      timedOut := false;
      if id !in sites || w !in sites[id].queue { return; }
      assert QueueOk(View(), id);
      var won := TryComplete(w);
      if !won { return; }
      timedOut := true;
      var site := sites[id];
      site := site.(queue := Without(site.queue, w), rejected := site.rejected + 1, timeouts := site.timeouts + 1);
      sites := Store(sites, id, site);
    }

    method UpdateLimits(id: SiteId, maximumActive: nat, maximumQueue: nat) returns (promoted: seq<WaiterId>)
      requires Valid(View())
      modifies this
      ensures View() == UpdateStep(old(View()), id, maximumActive, maximumQueue).state
      ensures promoted == UpdateStep(old(View()), id, maximumActive, maximumQueue).granted
    {
      promoted := [];
      if id !in sites { return; }
      promoted := Configure(id, maximumActive, maximumQueue);
    }

    /** The sweep over the site map visits the sites in no particular order. */
    method RetainSites(keep: set<SiteId>)
      modifies this`sites
      ensures sites == Retained(old(sites), keep)
    {
      var todo := sites.Keys;
      while todo != {}
        invariant todo <= old(sites).Keys
        invariant forall id :: id in sites <==>
                    id in old(sites) && (id in todo || Stays(old(sites)[id], id in keep))
        invariant forall id :: id in sites ==>
                    sites[id] == if id in todo then old(sites)[id] else Marked(old(sites)[id], id in keep)
        decreases todo
      {
        var id :| id in todo;
        todo := todo - {id};
        if id !in keep {
          var site := sites[id].(retired := true);
          sites := Store(sites, id, site);
        }
      }
    }

    method Clear() returns (pending: set<WaiterId>)
      requires Valid(View())
      modifies this
      ensures View() == ClearStep(old(View())).state
      ensures pending == ClearStep(old(View())).refused.Keys
    {
      pending := {};
      var todo := Queued(State(sites, nextWaiterId, waiters));
      while todo != {}
        invariant pending !! todo && pending + todo == Queued(old(View()))
        invariant sites == old(sites) && nextWaiterId == old(nextWaiterId)
        invariant waiters.Keys == old(waiters).Keys
        invariant forall w :: w in waiters ==>
                    waiters[w] == if w in pending then old(waiters)[w].(completed := true) else old(waiters)[w]
        decreases todo
      {
        var w :| w in todo;
        todo := todo - {w};
        ghost var id :| id in sites && w in sites[id].queue;
        assert QueueOk(old(View()), id);
        var won := TryComplete(w);
        if won { pending := pending + {w}; }
      }
      sites := map[];
    }
  }
}
