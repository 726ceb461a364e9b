/**
 What the commit of a reload does to the backend limiter: the new limits site by site, then the sites that are no
 longer configured are retired. The order matters, because only new limits bring a retired site back.
 */
module ReloadLimits {
  import opened ConcurrencyLimiter
  import opened LimiterRuns

  datatype Limit = Limit(site: SiteId, active: nat, queue: nat)

  function Ids(limits: seq<Limit>): set<SiteId> { set l | l in limits :: l.site }

  ghost predicate Distinct(limits: seq<Limit>) {
    forall i, j :: 0 <= i < j < |limits| ==> limits[i].site != limits[j].site
  }

  function ActionOf(l: Limit): Action { Action.UpdateLimits(l.site, l.active, l.queue) }

  /** The limiter with the new limits. */
  function Updated(s: State, limits: seq<Limit>): State {
    if limits == [] then s
    else Step(Updated(s, limits[..|limits| - 1]), ActionOf(limits[|limits| - 1])).state
  }

  function Committed(s: State, limits: seq<Limit>): State {
    Step(Updated(s, limits), Retain(Ids(limits))).state
  }

  /** The loop of the commit and the call after it. */
  method CommitLimits(limiter: Limiter, limits: seq<Limit>)
    requires Valid(limiter.View()) && forall i :: 0 <= i < |limits| ==> limits[i].active >= 1
    modifies limiter
    ensures limiter.View() == Committed(old(limiter.View()), limits) && Valid(limiter.View())
  {
    ghost var before := limiter.View();
    var i := 0;
    while i < |limits|
      invariant 0 <= i <= |limits|
      invariant limiter.View() == Updated(before, limits[..i]) && Valid(limiter.View())
    {
      ghost var now := limiter.View();
      StepKeepsValid(now, ActionOf(limits[i]));
      assert limits[..i + 1][..i] == limits[..i];
      var promoted := limiter.UpdateLimits(limits[i].site, limits[i].active, limits[i].queue);
      i := i + 1;
    }
    assert limits[..i] == limits;
    StepKeepsValid(limiter.View(), Retain(Ids(limits)));
    limiter.RetainSites(Ids(limits));
  }

  /** New limits add and remove no site, and a site without new limits does not change. */
  lemma {:induction false} UpdatedElsewhere(s: State, limits: seq<Limit>, id: SiteId)
    ensures id in Updated(s, limits).sites <==> id in s.sites
    ensures id in s.sites && id !in Ids(limits) ==> Updated(s, limits).sites[id] == s.sites[id]
  {
    if limits != [] {
      var n := |limits| - 1;
      UpdatedElsewhere(s, limits[..n], id);
      assert forall l :: l in limits[..n] ==> l in limits;
      if id != limits[n].site {
        OtherSites(Updated(s, limits[..n]), ActionOf(limits[n]), id);
      } else {
        assert limits[n] in limits;
      }
    }
  }

  /** A known site has its new limits, and is not retired. */
  lemma {:induction false} UpdatedHere(s: State, limits: seq<Limit>, i: nat)
    requires Distinct(limits) && i < |limits| && limits[i].site in s.sites
    ensures var l := limits[i];
      && l.site in Updated(s, limits).sites
      && var site := Updated(s, limits).sites[l.site];
         site.maximumActive == l.active && site.maximumQueue == l.queue && !site.retired
  {
    var n := |limits| - 1;
    var before := Updated(s, limits[..n]);
    UpdatedElsewhere(s, limits[..n], limits[i].site);
    if i < n {
      UpdatedHere(s, limits[..n], i);
      OtherSites(before, ActionOf(limits[n]), limits[i].site);
    }
  }

  /**
   After a commit a site has the limits of the configuration, or is retired and still in use: a site is retired
   exactly if it is not configured, whatever earlier reloads did.
   */
  lemma CommittedSites(s: State, limits: seq<Limit>, id: SiteId)
    requires Distinct(limits) && id in Committed(s, limits).sites
    ensures var site := Committed(s, limits).sites[id];
      && (site.retired ==> id !in Ids(limits))
      && (id !in Ids(limits) ==> site.retired && (site.active > 0 || site.queue != []))
      && (forall i :: 0 <= i < |limits| && limits[i].site == id ==>
            site.maximumActive == limits[i].active && site.maximumQueue == limits[i].queue)
  {
    UpdatedElsewhere(s, limits, id);
    forall i | 0 <= i < |limits| && limits[i].site == id
      ensures Updated(s, limits).sites[id].maximumActive == limits[i].active
           && Updated(s, limits).sites[id].maximumQueue == limits[i].queue
           && !Updated(s, limits).sites[id].retired
    {
      UpdatedHere(s, limits, i);
    }
    if id in Ids(limits) {
      var l :| l in limits && l.site == id;
      var i :| 0 <= i < |limits| && limits[i] == l;
    }
  }

  /** No site that is configured is dropped, and none that has requests. */
  lemma CommitDropsOnlyUnused(s: State, limits: seq<Limit>, id: SiteId)
    requires id in s.sites && id !in Committed(s, limits).sites
    ensures id !in Ids(limits) && s.sites[id].active == 0 && s.sites[id].queue == []
  {
    UpdatedElsewhere(s, limits, id);
  }

  function UpdatedWorld(w: World, limits: seq<Limit>): World {
    if limits == [] then w
    else Next(UpdatedWorld(w, limits[..|limits| - 1]), ActionOf(limits[|limits| - 1]))
  }

  /** A commit is a run of the limiter's operations, so it keeps everything that every run keeps. */
  lemma {:induction false} CommitIsARun(w: World, limits: seq<Limit>)
    requires Inv(w) && forall i :: 0 <= i < |limits| ==> limits[i].active >= 1
    ensures var after := Next(UpdatedWorld(w, limits), Retain(Ids(limits)));
      Inv(UpdatedWorld(w, limits)) && Inv(after) && after.state == Committed(w.state, limits)
      && UpdatedWorld(w, limits).state == Updated(w.state, limits)
  {
    if limits != [] {
      var n := |limits| - 1;
      CommitIsARun(w, limits[..n]);
      StepKeepsInv(UpdatedWorld(w, limits[..n]), ActionOf(limits[n]));
      NextAt(UpdatedWorld(w, limits[..n]), ActionOf(limits[n]));
    }
    StepKeepsInv(UpdatedWorld(w, limits), Retain(Ids(limits)));
  }
}
