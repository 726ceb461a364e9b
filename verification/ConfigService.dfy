/**
 The configuration service over all its operations: a change is drafted, prepared, written and committed in that
 order, so the stored and the published configuration advance together or not at all.
 */
module ConfigService {
  import opened Options
  import opened ConfigStore
  import opened ServerReload

  datatype World = World(repo: Repository, active: nat, handler: bool, published: Spec)

  /** How the steps that can fail on their own go: opening the listeners, and the database transaction. */
  datatype Outcome = Outcome(prepares: bool, writes: bool)

  datatype Event =
    | Changed(change: Change, outcome: Outcome)
    | Reloaded(outcome: Outcome)
    | Started
    | Lost

  function StoredSpec(rules: Rules, r: Repository): Option<Spec> { Build(rules, r.sites, r.settings, r.revision) }

  /** The runtime that a change leads to, if there is one. */
  function Candidate(rules: Rules, r: Repository, c: Change): Option<Spec> {
    var draft := DraftOf(rules, r, c);
    if draft.None? then None
    else
      var spec := Build(rules, draft.value.sites, draft.value.settings, r.revision + 1);
      if spec.None? || !Acceptable(rules, spec.value) then None else spec
  }

  function Apply(rules: Rules, w: World, c: Change, o: Outcome): World {
    var candidate := Candidate(rules, w.repo, c);
    if candidate.None? || (w.handler && !o.prepares) || !o.writes then w
    else
      var written := w.(repo := Write(rules, w.repo, c));
      if w.handler then written.(active := w.repo.revision + 1, published := candidate.value) else written
  }

  /** `reload_runtime`. */
  function Reload(rules: Rules, w: World, o: Outcome): World {
    var spec := StoredSpec(rules, w.repo);
    if !w.handler || spec.None? || !Acceptable(rules, spec.value) || !o.prepares then w
    else w.(active := w.repo.revision, published := spec.value)
  }

  /** The data plane starts from the stored configuration; if that is not possible it stays off. */
  function Start(rules: Rules, w: World): World {
    var spec := StoredSpec(rules, w.repo);
    if spec.None? || !Acceptable(rules, spec.value) then w.(handler := false, active := 0)
    else w.(handler := true, active := w.repo.revision, published := spec.value)
  }

  function Step(rules: Rules, w: World, e: Event): World {
    match e
    case Changed(c, o) => Apply(rules, w, c, o)
    case Reloaded(o) => Reload(rules, w, o)
    case Started => Start(rules, w)
    case Lost => w.(handler := false, active := 0)
  }

  function After(rules: Rules, w: World, events: seq<Event>): World {
    if events == [] then w else Step(rules, After(rules, w, events[..|events| - 1]), events[|events| - 1])
  }

  /** What a configuration must be like to be served. */
  ghost predicate Servable(rules: Rules, spec: Spec) {
    && spec.revision > 0 && (forall s :: s in spec.sites ==> s.http || s.https) && PortsApart(spec)
    && rules.validGraph(spec)
  }

  lemma ServableIff(rules: Rules, spec: Spec)
    ensures Acceptable(rules, spec) <==> Servable(rules, spec)
  {
    if Acceptable(rules, spec) {
      AcceptablePorts(rules, spec);
    }
  }

  /** A configuration can be built exactly if all records and the settings are valid. */
  lemma StoredSpecIff(rules: Rules, r: Repository)
    ensures StoredSpec(rules, r).Some? <==>
      rules.validSettings(r.settings) && forall i :: 0 <= i < |r.sites| ==> rules.normalize(r.sites[i]).Some?
    ensures StoredSpec(rules, r).Some? ==>
      StoredSpec(rules, r).value.revision == r.revision && StoredSpec(rules, r).value.settings == r.settings
  {
    RuntimeSitesIff(rules, r.sites);
  }

  /** A change has a candidate exactly if it can be made, and what it makes can be built and served. */
  lemma CandidateIff(rules: Rules, r: Repository, c: Change)
    requires ValidRepository(r)
    ensures DraftOf(rules, r, c).Some? <==> Makeable(rules, r, c)
    ensures Candidate(rules, r, c).Some? <==>
      && DraftOf(rules, r, c).Some?
      && StoredSpec(rules, Write(rules, r, c)).Some? && Servable(rules, StoredSpec(rules, Write(rules, r, c)).value)
  {
    DraftIff(rules, r, c);
    if DraftOf(rules, r, c).Some? {
      WriteIsDraft(rules, r, c);
      if StoredSpec(rules, Write(rules, r, c)).Some? {
        ServableIff(rules, StoredSpec(rules, Write(rules, r, c)).value);
      }
    }
  }

  // ---------------------------------------------------------------- what every run keeps

  /** While the data plane is up, what it serves is built from what is stored. */
  ghost predicate Consistent(rules: Rules, w: World) {
    && ValidRepository(w.repo)
    && (w.handler ==> StoredSpec(rules, w.repo) == Some(w.published) && w.active == w.repo.revision)
  }

  lemma ApplyKeeps(rules: Rules, w: World, c: Change, o: Outcome)
    requires Consistent(rules, w)
    ensures Consistent(rules, Apply(rules, w, c, o))
  {
    if Candidate(rules, w.repo, c).Some? {
      WriteIsDraft(rules, w.repo, c);
      WriteKeepsValid(rules, w.repo, c);
    }
  }

  lemma StepKeeps(rules: Rules, w: World, e: Event)
    requires Consistent(rules, w)
    ensures Consistent(rules, Step(rules, w, e))
  {
    if e.Changed? {
      ApplyKeeps(rules, w, e.change, e.outcome);
    }
  }

  /** A change leaves the stored and the published configuration alone, or advances both to its candidate. */
  lemma AllOrNothing(rules: Rules, w: World, c: Change, o: Outcome)
    requires Consistent(rules, w)
    ensures var after := Apply(rules, w, c, o);
      || after == w
      || (&& after.repo.revision == w.repo.revision + 1
          && StoredSpec(rules, after.repo) == Candidate(rules, w.repo, c)
          && (w.handler ==>
                after.active == after.repo.revision && Some(after.published) == StoredSpec(rules, after.repo))
          && (!w.handler ==> after.active == w.active && after.published == w.published))
  {
    if Candidate(rules, w.repo, c).Some? {
      WriteIsDraft(rules, w.repo, c);
    }
  }

  /** In every run, while the data plane is up, all revisions agree and the published sites are the stored ones. */
  lemma {:induction false} PublishedIsStored(rules: Rules, w: World, events: seq<Event>)
    requires Consistent(rules, w)
    ensures var after := After(rules, w, events);
      && Consistent(rules, after)
      && (after.handler ==>
            && after.published.revision == after.active == after.repo.revision
            && RuntimeSites(rules, after.repo.sites) == Some(after.published.sites)
            && after.published.settings == after.repo.settings)
  {
    if events != [] {
      PublishedIsStored(rules, w, events[..|events| - 1]);
      StepKeeps(rules, After(rules, w, events[..|events| - 1]), events[|events| - 1]);
    }
  }

  /** In every run, while the data plane is up, a site is published exactly if an enabled record of it is stored. */
  lemma PublishedSites(rules: Rules, w: World, events: seq<Event>, s: Site)
    requires Consistent(rules, w)
    ensures var after := After(rules, w, events);
      after.handler ==>
        (s in after.published.sites <==>
           s.enabled && exists i :: 0 <= i < |after.repo.sites| && rules.normalize(after.repo.sites[i]) == Some(s))
  {
    PublishedIsStored(rules, w, events);
    RuntimeSitesIff(rules, After(rules, w, events).repo.sites);
  }

  lemma StepGrows(rules: Rules, w: World, e: Event)
    requires Consistent(rules, w)
    ensures var after := Step(rules, w, e);
      && after.repo.revision >= w.repo.revision && after.repo.lastId >= w.repo.lastId
      && (forall s :: s in after.repo.sites ==> (s.id > w.repo.lastId || Exists(w.repo.sites, s.id)))
  {
    if e.Changed? && Candidate(rules, w.repo, e.change).Some? {
      WriteKeepsValid(rules, w.repo, e.change);
      WrittenIds(rules, w.repo, e.change);
    }
  }

  lemma {:induction false} DeletedIds(sites: seq<Site>, id: int)
    ensures forall s :: s in DeleteRows(sites, id) ==> s in sites && s.id != id
  {
    if sites != [] {
      DeletedIds(sites[1..], id);
    }
  }

  /** A written row has a new id, or the id of a row that was there. */
  lemma WrittenIds(rules: Rules, r: Repository, c: Change)
    requires ValidRepository(r) && DraftOf(rules, r, c).Some?
    ensures forall s :: s in Write(rules, r, c).sites ==> s.id > r.lastId || Exists(r.sites, s.id)
  {
    WriteIsDraft(rules, r, c);
    if c.DeleteSite? {
      DeletedIds(r.sites, c.id);
    }
  }

  /** An id that is no longer in use is never in use again: a new site never inherits the slots of an old one. */
  lemma {:induction false} IdsAreNotReused(rules: Rules, w: World, events: seq<Event>, id: int)
    requires Consistent(rules, w) && id <= w.repo.lastId && !Exists(w.repo.sites, id)
    ensures var after := After(rules, w, events); !Exists(after.repo.sites, id) && id <= after.repo.lastId
  {
    if events != [] {
      var before := After(rules, w, events[..|events| - 1]);
      IdsAreNotReused(rules, w, events[..|events| - 1], id);
      PublishedIsStored(rules, w, events[..|events| - 1]);
      StepGrows(rules, before, events[|events| - 1]);
    }
  }

  // ---------------------------------------------------------------- the object

  class Service {
    const rules: Rules
    const core: ServerCore
    var repo: Repository
    var active: nat
    var handler: bool

    ghost function View(): World
      reads this, core
    {
      World(repo, active, handler, core.published)
    }

    ghost predicate Valid()
      reads this, core
    {
      core.Valid() && Consistent(rules, View())
    }

    /** How a change goes: whether the core can open what the candidate needs, and whether the database writes. */
    ghost function Prospects(candidate: Option<Spec>, bindable: set<Port>, writes: bool): Outcome
      reads core
    {
      Outcome(candidate.Some? && core.CanPrepare(rules, candidate.value, bindable), writes)
    }

    /** When a change is made. */
    ghost predicate Succeeds(c: Change, bindable: set<Port>, writes: bool)
      reads this, core
    {
      var candidate := Candidate(rules, repo, c);
      candidate.Some? && (handler ==> core.CanPrepare(rules, candidate.value, bindable)) && writes
    }

    /** A change does what `Apply` says, and succeeds exactly if its candidate is acceptable, fits and is written. */
    twostate predicate Changes(c: Change, bindable: set<Port>, writes: bool, ok: bool)
      reads this, core
    {
      && View() == Apply(rules, old(View()), c, old(Prospects(Candidate(rules, repo, c), bindable, writes)))
      && (ok <==> old(Succeeds(c, bindable, writes)))
    }

    constructor (rules: Rules, core: ServerCore, repo: Repository, active: nat)
      requires core.Valid() && ValidRepository(repo)
      ensures Valid() && this.rules == rules && this.core == core
      ensures this.repo == repo && this.active == active && !handler
    {
      this.rules, this.core, this.repo, this.active := rules, core, repo, active;
      handler := false;
    }

    method BuildRuntimeSpec(sites: seq<Site>, settings: Settings, revision: nat) returns (spec: Option<Spec>)
      ensures spec == Build(rules, sites, settings, revision)
    {
      var runtime: seq<Site> := [];
      var i := 0;
      while i < |sites|
        invariant 0 <= i <= |sites| && RuntimeSites(rules, sites[..i]) == Some(runtime)
      {
        var n := rules.normalize(sites[i]);
        assert sites[..i + 1][..i] == sites[..i];
        if n.None? {
          BadSite(rules, sites, i);
          return None;
        }
        if n.value.enabled {
          runtime := runtime + [n.value];
        }
        i := i + 1;
      }
      assert sites[..i] == sites;
      if !rules.validSettings(settings) {
        return None;
      }
      return Some(Spec(revision, runtime, settings));
    }

    /** Prepare, write, commit: the write comes between the two halves of the reload. */
    method Activate(spec: Spec, written: Repository, bindable: set<Port>, writes: bool)
      returns (ok: bool)
      requires core.Valid()
      modifies this`repo, this`active, core
      ensures core.Valid() && (ok <==> old(core.CanPrepare(rules, spec, bindable)) && writes)
      ensures core.started == old(core.started) && core.stopping == old(core.stopping)
      ensures !ok ==> ServesAsBefore(old(core.http), old(core.tls), old(core.running))
      ensures !ok ==> repo == old(repo) && active == old(active) && core.published == old(core.published)
      ensures ok ==> repo == written && active == spec.revision && core.published == spec
      ensures ok && core.started ==> ServesPublished()
    {
      var prepared := core.PrepareReload(rules, spec, bindable);
      if prepared.None? {
        return false;
      }
      if !writes {
        core.Drop(prepared.value);
        return false;
      }
      repo := written;
      core.Commit(prepared.value);
      active := spec.revision;
      return true;
    }

    /** The part that every change has in common. */
    method Publish(draft: Draft, written: Repository, ghost c: Change, bindable: set<Port>, writes: bool)
      returns (ok: bool)
      requires Valid() && DraftOf(rules, repo, c) == Some(draft) && written == Write(rules, repo, c)
      modifies this`repo, this`active, core
      ensures Valid() && Changes(c, bindable, writes, ok)
      ensures core.started == old(core.started) && core.stopping == old(core.stopping)
      ensures !ok ==> ServesAsBefore(old(core.http), old(core.tls), old(core.running)) && View() == old(View())
      ensures ok ==> repo == written
      ensures ok && handler && core.started ==> ServesPublished()
    {
      ApplyKeeps(rules, View(), c, Outcome(true, writes));
      var spec := BuildRuntimeSpec(draft.sites, draft.settings, repo.revision + 1);
      if spec.None? || !Acceptable(rules, spec.value) {
        return false;
      }
      if handler {
        ok := Activate(spec.value, written, bindable, writes);
      } else {
        ok := writes;
        if writes {
          repo := written;
        }
      }
    }

    method CreateSite(record: Site, bindable: set<Port>, writes: bool) returns (ok: bool, id: int)
      requires Valid()
      modifies this`repo, this`active, core
      ensures Valid() && Changes(Change.CreateSite(record), bindable, writes, ok)
      ensures ok ==> Made(rules, old(repo), Change.CreateSite(record), repo)
      ensures ok ==> id == old(repo).lastId + 1 && Exists(repo.sites, id)
      ensures !ok ==> ServesAsBefore(old(core.http), old(core.tls), old(core.running)) && View() == old(View())
      ensures ok && handler && core.started ==> ServesPublished()
    {
      var site := rules.normalize(record);
      id := 0;
      if site.None? {
        return false, id;
      }
      id := NextId(repo);
      var sites := repo.sites + [site.value.(id := id)];
      assert sites[|sites| - 1].id == id;
      var written := InsertRow(repo, site.value).(revision := repo.revision + 1);
      ChangeIsMade(rules, repo, Change.CreateSite(record));
      ok := Publish(Draft(sites, repo.settings), written, Change.CreateSite(record), bindable, writes);
    }

    method UpdateSite(record: Site, bindable: set<Port>, writes: bool) returns (ok: bool)
      requires Valid()
      modifies this`repo, this`active, core
      ensures Valid() && Changes(Change.UpdateSite(record), bindable, writes, ok)
      ensures ok ==> Made(rules, old(repo), Change.UpdateSite(record), repo)
      ensures !ok ==> ServesAsBefore(old(core.http), old(core.tls), old(core.running)) && View() == old(View())
      ensures ok && handler && core.started ==> ServesPublished()
    {
      if record.id <= 0 {
        return false;
      }
      var site := rules.normalize(record);
      if site.None? {
        return false;
      }
      var sites := repo.sites;
      var i := 0;
      while i < |sites| && sites[i].id != site.value.id
        invariant 0 <= i <= |sites| && forall j :: 0 <= j < i ==> sites[j].id != site.value.id
      {
        i := i + 1;
      }
      if i == |sites| {
        return false;
      }
      assert i == Find(sites, site.value.id);
      var written := repo.(sites := UpdateRows(sites, site.value), revision := repo.revision + 1);
      sites := sites[i := site.value];
      ChangeIsMade(rules, repo, Change.UpdateSite(record));
      ok := Publish(Draft(sites, repo.settings), written, Change.UpdateSite(record), bindable, writes);
    }

    method DeleteSite(id: int, bindable: set<Port>, writes: bool) returns (ok: bool)
      requires Valid()
      modifies this`repo, this`active, core
      ensures Valid() && Changes(Change.DeleteSite(id), bindable, writes, ok)
      ensures ok ==> Made(rules, old(repo), Change.DeleteSite(id), repo)
      ensures ok ==> !Exists(repo.sites, id)
      ensures !ok ==> ServesAsBefore(old(core.http), old(core.tls), old(core.running)) && View() == old(View())
      ensures ok && handler && core.started ==> ServesPublished()
    {
      if id <= 0 {
        return false;
      }
      var kept := RemoveSite(repo.sites, id);
      if |kept| == |repo.sites| {
        return false;
      }
      DeletedIds(repo.sites, id);
      var written := repo.(sites := DeleteRows(repo.sites, id), revision := repo.revision + 1);
      ChangeIsMade(rules, repo, Change.DeleteSite(id));
      ok := Publish(Draft(kept, repo.settings), written, Change.DeleteSite(id), bindable, writes);
    }

    method RemoveSite(sites: seq<Site>, id: int) returns (kept: seq<Site>)
      ensures kept == DeleteRows(sites, id) && |kept| <= |sites| && (|kept| < |sites| <==> Exists(sites, id))
    {
      kept := [];
      var i := |sites|;
      while i > 0
        invariant 0 <= i <= |sites| && kept == DeleteRows(sites[i..], id)
        invariant |kept| <= |sites| - i
        invariant |kept| == |sites| - i <==> forall j :: i <= j < |sites| ==> sites[j].id != id
      {
        i := i - 1;
        assert sites[i..][1..] == sites[i + 1..];
        if sites[i].id != id {
          kept := [sites[i]] + kept;
        }
      }
      assert sites[0..] == sites;
    }

    method UpdateRuntimeSettings(settings: Settings, bindable: set<Port>, writes: bool)
      returns (ok: bool)
      requires Valid()
      modifies this`repo, this`active, core
      ensures Valid() && Changes(UpdateSettings(settings), bindable, writes, ok)
      ensures ok ==> Made(rules, old(repo), UpdateSettings(settings), repo)
      ensures !ok ==> ServesAsBefore(old(core.http), old(core.tls), old(core.running)) && View() == old(View())
      ensures ok && handler && core.started ==> ServesPublished()
    {
      if !rules.validSettings(settings) {
        return false;
      }
      var written := repo.(settings := settings, revision := repo.revision + 1);
      ChangeIsMade(rules, repo, UpdateSettings(settings));
      ok := Publish(Draft(repo.sites, settings), written, UpdateSettings(settings), bindable, writes);
    }

    method ImportConfiguration(records: seq<Site>, settings: Settings, bindable: set<Port>, writes: bool)
      returns (ok: bool)
      requires Valid()
      modifies this`repo, this`active, core
      ensures Valid() && Changes(Import(records, settings), bindable, writes, ok)
      ensures ok ==> Made(rules, old(repo), Import(records, settings), repo)
      ensures !ok ==> ServesAsBefore(old(core.http), old(core.tls), old(core.running)) && View() == old(View())
      ensures ok && handler && core.started ==> ServesPublished()
    {
      var normalized := NormalizeAll(records);
      if normalized.None? || !rules.validBackup(normalized.value) || !rules.validSettings(settings) {
        return false;
      }
      var sites := NumberAll(normalized.value, NextId(repo));
      var emptied := repo.(sites := [], settings := settings);
      var written := InsertRows(emptied, normalized.value).(revision := repo.revision + 1);
      ChangeIsMade(rules, repo, Import(records, settings));
      ok := Publish(Draft(sites, settings), written, Import(records, settings), bindable, writes);
    }

    method NormalizeAll(records: seq<Site>) returns (normalized: Option<seq<Site>>)
      ensures normalized == Normalized(rules, records)
    {
      var sites: seq<Site> := [];
      var i := 0;
      while i < |records|
        invariant 0 <= i <= |records| && Normalized(rules, records[..i]) == Some(sites)
      {
        var n := rules.normalize(records[i]);
        assert records[..i + 1][..i] == records[..i];
        if n.None? {
          BadRecord(rules, records, i);
          return None;
        }
        sites := sites + [n.value];
        i := i + 1;
      }
      assert records[..i] == records;
      return Some(sites);
    }

    method NumberAll(sites: seq<Site>, first: nat) returns (numbered: seq<Site>)
      ensures numbered == Numbered(sites, first)
    {
      numbered := [];
      var next := first;
      var i := 0;
      while i < |sites|
        invariant 0 <= i <= |sites| && next == first + i
        invariant numbered == Numbered(sites, first)[..i]
      {
        numbered := numbered + [sites[i].(id := next)];
        next := next + 1;
        i := i + 1;
      }
    }

    /** Publishes what is stored again. */
    method ReloadRuntime(bindable: set<Port>) returns (ok: bool)
      requires Valid()
      modifies this`repo, this`active, core
      ensures Valid() && View() == Reload(rules, old(View()), old(Prospects(StoredSpec(rules, repo), bindable, true)))
      ensures ok <==> old(handler && StoredSpec(rules, repo).Some?
                          && core.CanPrepare(rules, StoredSpec(rules, repo).value, bindable))
      ensures repo == old(repo)
      ensures !ok ==> ServesAsBefore(old(core.http), old(core.tls), old(core.running)) && View() == old(View())
      ensures ok && core.started ==> ServesPublished()
    {
      if !handler {
        return false;
      }
      var spec := BuildRuntimeSpec(repo.sites, repo.settings, repo.revision);
      if spec.None? || !Acceptable(rules, spec.value) {
        return false;
      }
      ok := Activate(spec.value, repo, bindable, true);
    }

    /** The data plane has started from what is stored: changes go through it from now on. */
    method SetReloadHandler()
      requires Valid() && StoredSpec(rules, repo) == Some(core.published) && Acceptable(rules, core.published)
      requires active == repo.revision
      modifies this`handler
      ensures Valid() && handler && View() == Step(rules, old(View()), Started)
    {
      handler := true;
    }

    /** The data plane has failed: changes are stored, and come into force with the next start. */
    method MarkRuntimeUnavailable()
      requires Valid()
      modifies this`active, this`handler
      ensures Valid() && View() == Step(rules, old(View()), Lost)
    {
      active, handler := 0, false;
    }

    /** No listener was added, replaced or left running. */
    ghost predicate ServesAsBefore(http: Listeners, tls: Listeners, running: set<Listener>)
      reads core
    {
      core.http == http && core.tls == tls && core.running == running
    }

    /** There is a listener for exactly the ports of the published sites, and none is used for both protocols. */
    ghost predicate ServesPublished()
      reads core
    {
      && (forall p :: p in core.http <==> exists s :: s in core.published.sites && s.http && s.httpPort == p)
      && (forall p :: p in core.tls <==> exists s :: s in core.published.sites && s.https && s.httpsPort == p)
      && (forall p :: p in core.http && p in core.tls ==> p == 0)
    }
  }

  lemma {:induction false} BadRecord(rules: Rules, records: seq<Site>, i: nat)
    requires i < |records| && rules.normalize(records[i]).None?
    ensures Normalized(rules, records) == None
    decreases |records|
  {
    if i < |records| - 1 {
      BadRecord(rules, records[..|records| - 1], i);
    }
  }

  lemma {:induction false} BadSite(rules: Rules, sites: seq<Site>, i: nat)
    requires i < |sites| && rules.normalize(sites[i]).None?
    ensures RuntimeSites(rules, sites) == None
    decreases |sites|
  {
    if i < |sites| - 1 {
      BadSite(rules, sites[..|sites| - 1], i);
    }
  }
}
