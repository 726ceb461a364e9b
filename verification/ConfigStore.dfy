/**
 Configuration changes: what a change asks the runtime to become (the candidate), what it writes to the repository,
 and how the two are published together. The repository is a list of site records, the settings, a revision and the
 counter of its automatic ids.
 */
module ConfigStore {
  import opened Options

  type Port = nat

  /** `content` stands for the fields of a record that only the runtime looks at. */
  datatype Site = Site(
    id: int, content: string, enabled: bool, http: bool, httpPort: Port, https: bool, httpsPort: Port)

  type Settings = string

  /** Code that is not modelled: validation of one record, of the settings, of a backup, and of the runtime graph. */
  datatype Rules = Rules(
    normalize: Site -> Option<Site>, validSettings: Settings -> bool,
    validBackup: seq<Site> -> bool, validGraph: Spec -> bool)

  /** What the runtime is built from, and so what is published. */
  datatype Spec = Spec(revision: nat, sites: seq<Site>, settings: Settings)

  datatype Repository = Repository(sites: seq<Site>, settings: Settings, revision: nat, lastId: nat)

  // ---------------------------------------------------------------- building the runtime

  /** The enabled sites, normalized; `None` if any record is invalid. */
  function RuntimeSites(rules: Rules, sites: seq<Site>): Option<seq<Site>> {
    if sites == [] then Some([])
    else
      var n := |sites| - 1;
      var before := RuntimeSites(rules, sites[..n]);
      var last := rules.normalize(sites[n]);
      if before.None? || last.None? then None
      else if last.value.enabled then Some(before.value + [last.value])
      else before
  }

  function Build(rules: Rules, sites: seq<Site>, settings: Settings, revision: nat): Option<Spec> {
    var runtime := RuntimeSites(rules, sites);
    if runtime.None? || !rules.validSettings(settings) then None else Some(Spec(revision, runtime.value, settings))
  }

  function HttpPorts(spec: Spec): set<Port> { set s | s in spec.sites && s.http :: s.httpPort }

  function HttpsPorts(spec: Spec): set<Port> { set s | s in spec.sites && s.https :: s.httpsPort }

  /** What the constructor of the runtime configuration accepts. */
  predicate Acceptable(rules: Rules, spec: Spec) {
    && spec.revision != 0
    && (forall s :: s in spec.sites ==> s.http || s.https)
    && (forall p :: p in HttpPorts(spec) ==> p == 0 || p !in HttpsPorts(spec))
    && rules.validGraph(spec)
  }

  // ---------------------------------------------------------------- the repository

  /** Rows come back ordered by id, and automatic ids are never used again. */
  ghost predicate ValidRepository(r: Repository) {
    && r.revision > 0
    && Ordered(r.sites)
    && (forall i :: 0 <= i < |r.sites| ==> 0 < r.sites[i].id <= r.lastId)
  }

  function NextId(r: Repository): nat { r.lastId + 1 }

  /** INSERT: the row gets the next automatic id, whatever id the record has. */
  function InsertRow(r: Repository, site: Site): Repository {
    r.(sites := r.sites + [site.(id := r.lastId + 1)], lastId := r.lastId + 1)
  }

  function InsertRows(r: Repository, sites: seq<Site>): Repository {
    if sites == [] then r else InsertRow(InsertRows(r, sites[..|sites| - 1]), sites[|sites| - 1])
  }

  function UpdateRows(sites: seq<Site>, site: Site): seq<Site> {
    if sites == [] then []
    else [if sites[0].id == site.id then site else sites[0]] + UpdateRows(sites[1..], site)
  }

  function DeleteRows(sites: seq<Site>, id: int): seq<Site> {
    if sites == [] then []
    else (if sites[0].id == id then [] else [sites[0]]) + DeleteRows(sites[1..], id)
  }

  // ---------------------------------------------------------------- changes

  datatype Change =
    | CreateSite(site: Site)
    | UpdateSite(site: Site)
    | DeleteSite(id: int)
    | UpdateSettings(settings: Settings)
    | Import(sites: seq<Site>, newSettings: Settings)

  /** The lists that the service edits in memory to get its candidate. */
  datatype Draft = Draft(sites: seq<Site>, settings: Settings)

  predicate Exists(sites: seq<Site>, id: int) { exists i :: 0 <= i < |sites| && sites[i].id == id }

  /** The position of the first site with the id. */
  function Find(sites: seq<Site>, id: int): (i: nat)
    requires Exists(sites, id)
    ensures i < |sites| && sites[i].id == id && forall j :: 0 <= j < i ==> sites[j].id != id
  {
    if sites[0].id == id then 0
    else
      assert Exists(sites[1..], id) by {
        var i :| 0 <= i < |sites| && sites[i].id == id;
        assert sites[1..][i - 1].id == id;
      }
      1 + Find(sites[1..], id)
  }

  function Normalized(rules: Rules, sites: seq<Site>): Option<seq<Site>> {
    if sites == [] then Some([])
    else
      var before := Normalized(rules, sites[..|sites| - 1]);
      var last := rules.normalize(sites[|sites| - 1]);
      if before.None? || last.None? then None else Some(before.value + [last.value])
  }

  /** Ids are given out from `next` on. */
  function Numbered(sites: seq<Site>, next: nat): seq<Site> {
    seq(|sites|, i requires 0 <= i < |sites| => sites[i].(id := next + i))
  }

  function DraftOf(rules: Rules, r: Repository, c: Change): Option<Draft> {
    match c
    case CreateSite(site) =>
      var n := rules.normalize(site);
      if n.None? then None else Some(Draft(r.sites + [n.value.(id := NextId(r))], r.settings))
    case UpdateSite(site) =>
      if site.id <= 0 then None
      else
        var n := rules.normalize(site);
        if n.None? || !Exists(r.sites, n.value.id) then None
        else Some(Draft(r.sites[Find(r.sites, n.value.id) := n.value], r.settings))
    case DeleteSite(id) =>
      if id <= 0 || !Exists(r.sites, id) then None else Some(Draft(DeleteRows(r.sites, id), r.settings))
    case UpdateSettings(settings) =>
      if !rules.validSettings(settings) then None else Some(Draft(r.sites, settings))
    case Import(sites, settings) =>
      var n := Normalized(rules, sites);
      if n.None? || !rules.validBackup(n.value) || !rules.validSettings(settings) then None
      else Some(Draft(Numbered(n.value, NextId(r)), settings))
  }

  /** What the transaction of a change that has a draft writes. */
  function Write(rules: Rules, r: Repository, c: Change): Repository
    requires DraftOf(rules, r, c).Some?
  {
    var written := match c
      case CreateSite(site) => InsertRow(r, rules.normalize(site).value)
      case UpdateSite(site) => r.(sites := UpdateRows(r.sites, rules.normalize(site).value))
      case DeleteSite(id) => r.(sites := DeleteRows(r.sites, id))
      case UpdateSettings(settings) => r.(settings := settings)
      case Import(sites, settings) =>
        InsertRows(r.(sites := [], settings := settings), Normalized(rules, sites).value);
    written.(revision := r.revision + 1)
  }

  // ---------------------------------------------------------------- what is written is what was drafted

  lemma {:induction false} UpdateMissing(sites: seq<Site>, site: Site)
    requires forall i :: 0 <= i < |sites| ==> sites[i].id != site.id
    ensures UpdateRows(sites, site) == sites
  {
    if sites != [] {
      UpdateMissing(sites[1..], site);
    }
  }

  predicate Ordered(sites: seq<Site>) {
    forall i, j :: 0 <= i < j < |sites| ==> sites[i].id < sites[j].id
  }

  /** With distinct ids, updating every row of an id is replacing the one at its position. */
  lemma {:induction false} UpdateIsReplace(sites: seq<Site>, site: Site, k: nat)
    requires Ordered(sites) && k < |sites| && sites[k].id == site.id
    ensures UpdateRows(sites, site) == sites[k := site]
  {
    var rest := sites[1..];
    assert forall i :: 0 <= i < |rest| ==> rest[i] == sites[i + 1];
    if k == 0 {
      UpdateMissing(rest, site);
    } else {
      assert sites[0].id < sites[k].id;
      UpdateIsReplace(rest, site, k - 1);
    }
  }

  /** The repository numbers the rows of a backup as the service did. */
  lemma {:induction false} InsertIsNumbered(r: Repository, sites: seq<Site>)
    requires r.sites == []
    ensures InsertRows(r, sites) == r.(sites := Numbered(sites, NextId(r)), lastId := r.lastId + |sites|)
  {
    if sites != [] {
      var before := sites[..|sites| - 1];
      InsertIsNumbered(r, before);
      var last := sites[|sites| - 1].(id := r.lastId + |sites|);
      assert Numbered(sites, NextId(r)) == Numbered(before, NextId(r)) + [last];
    } else {
      assert Numbered(sites, NextId(r)) == [];
    }
  }

  /** Every change writes exactly the records of its candidate, ids included. */
  lemma WriteIsDraft(rules: Rules, r: Repository, c: Change)
    requires ValidRepository(r) && DraftOf(rules, r, c).Some?
    ensures var w, d := Write(rules, r, c), DraftOf(rules, r, c).value;
      w.sites == d.sites && w.settings == d.settings && w.revision == r.revision + 1
  {
    if c.UpdateSite? {
      var site := rules.normalize(c.site).value;
      UpdateIsReplace(r.sites, site, Find(r.sites, site.id));
    } else if c.Import? {
      InsertIsNumbered(r.(sites := [], settings := c.newSettings), Normalized(rules, c.sites).value);
    }
  }

  // ---------------------------------------------------------------- what a change makes of the records

  /** When a change can be drafted. */
  ghost predicate Makeable(rules: Rules, r: Repository, c: Change) {
    match c
    case CreateSite(site) => rules.normalize(site).Some?
    case UpdateSite(site) =>
      && site.id > 0 && rules.normalize(site).Some?
      && (exists s :: s in r.sites && s.id == rules.normalize(site).value.id)
    case DeleteSite(id) => id > 0 && exists s :: s in r.sites && s.id == id
    case UpdateSettings(settings) => rules.validSettings(settings)
    case Import(sites, settings) =>
      && (forall i :: 0 <= i < |sites| ==> rules.normalize(sites[i]).Some?)
      && rules.validBackup(seq(|sites|, i requires 0 <= i < |sites| && rules.normalize(sites[i]).Some? =>
                                 rules.normalize(sites[i]).value))
      && rules.validSettings(settings)
  }

  /** The records after a change: what is new, and that every other record is as it was. */
  ghost predicate Made(rules: Rules, r: Repository, c: Change, w: Repository) {
    && w.revision == r.revision + 1
    && match c
       case CreateSite(site) =>
         && rules.normalize(site).Some? && w.settings == r.settings && |w.sites| == |r.sites| + 1
         && (forall i :: 0 <= i < |r.sites| ==> w.sites[i] == r.sites[i])
         && w.sites[|r.sites|] == rules.normalize(site).value.(id := r.lastId + 1)
       case UpdateSite(site) =>
         && rules.normalize(site).Some? && w.settings == r.settings && |w.sites| == |r.sites|
         && (forall i :: 0 <= i < |r.sites| ==>
               w.sites[i] == var n := rules.normalize(site).value; if r.sites[i].id == n.id then n else r.sites[i])
       case DeleteSite(id) =>
         && w.settings == r.settings && |w.sites| + 1 == |r.sites|
         && (forall s :: s in w.sites <==> s in r.sites && s.id != id)
       case UpdateSettings(settings) => w.sites == r.sites && w.settings == settings
       case Import(sites, settings) =>
         && w.settings == settings && |w.sites| == |sites|
         && (forall i :: 0 <= i < |sites| ==>
               rules.normalize(sites[i]).Some?
               && w.sites[i] == rules.normalize(sites[i]).value.(id := r.lastId + 1 + i))
  }

  lemma {:induction false} DeletedRows(sites: seq<Site>, id: int, k: nat)
    requires Ordered(sites) && k < |sites| && sites[k].id == id
    ensures DeleteRows(sites, id) == sites[..k] + sites[k + 1..]
  {
    var rest := sites[1..];
    assert forall i :: 0 <= i < |rest| ==> rest[i] == sites[i + 1];
    if k == 0 {
      NothingDeleted(rest, id);
    } else {
      assert sites[0].id < sites[k].id;
      DeletedRows(rest, id, k - 1);
      assert sites[..k] == [sites[0]] + rest[..k - 1] && sites[k + 1..] == rest[k..];
    }
  }

  lemma {:induction false} NothingDeleted(sites: seq<Site>, id: int)
    requires forall i :: 0 <= i < |sites| ==> sites[i].id != id
    ensures DeleteRows(sites, id) == sites
  {
    if sites != [] {
      NothingDeleted(sites[1..], id);
    }
  }

  lemma KeptIsOther(sites: seq<Site>, k: nat, s: Site)
    requires Ordered(sites) && k < |sites| && (s in sites[..k] || s in sites[k + 1..])
    ensures s in sites && s.id != sites[k].id
  {
    if s in sites[..k] {
      var i: nat :| i < k && sites[i] == s;
    } else {
      var i: nat :| k < i < |sites| && sites[i] == s;
    }
  }

  lemma OtherIsKept(sites: seq<Site>, k: nat, s: Site)
    requires k < |sites| && s in sites && s.id != sites[k].id
    ensures s in sites[..k] || s in sites[k + 1..]
  {
    var i: nat :| i < |sites| && sites[i] == s;
    if i < k {
      assert sites[..k][i] == s;
    } else {
      assert sites[k + 1..][i - k - 1] == s;
    }
  }

  lemma DeletedOne(sites: seq<Site>, id: int)
    requires Ordered(sites) && Exists(sites, id)
    ensures |DeleteRows(sites, id)| + 1 == |sites|
    ensures forall s :: s in DeleteRows(sites, id) <==> s in sites && s.id != id
  {
    var k := Find(sites, id);
    DeletedRows(sites, id, k);
    forall s ensures s in DeleteRows(sites, id) <==> s in sites && s.id != id {
      if s in DeleteRows(sites, id) {
        KeptIsOther(sites, k, s);
      }
      if s in sites && s.id != id {
        OtherIsKept(sites, k, s);
      }
    }
  }

  lemma {:induction false} NormalizedEach(rules: Rules, sites: seq<Site>)
    ensures Normalized(rules, sites).Some? <==> forall i :: 0 <= i < |sites| ==> rules.normalize(sites[i]).Some?
    ensures Normalized(rules, sites).Some? ==>
      && |Normalized(rules, sites).value| == |sites|
      && forall i :: 0 <= i < |sites| ==>
           rules.normalize(sites[i]).Some? && Normalized(rules, sites).value[i] == rules.normalize(sites[i]).value
  {
    if sites != [] {
      NormalizedEach(rules, sites[..|sites| - 1]);
    }
  }

  lemma ExistsIff(sites: seq<Site>, id: int)
    ensures Exists(sites, id) <==> exists s :: s in sites && s.id == id
  {
    if s :| s in sites && s.id == id {
      var i :| 0 <= i < |sites| && sites[i] == s;
    }
    if Exists(sites, id) {
      var i :| 0 <= i < |sites| && sites[i].id == id;
      assert sites[i] in sites;
    }
  }

  lemma DraftIff(rules: Rules, r: Repository, c: Change)
    ensures DraftOf(rules, r, c).Some? <==> Makeable(rules, r, c)
  {
    match c {
      case UpdateSite(site) =>
        if rules.normalize(site).Some? {
          ExistsIff(r.sites, rules.normalize(site).value.id);
        }
      case DeleteSite(id) => ExistsIff(r.sites, id);
      case Import(sites, _) =>
        NormalizedEach(rules, sites);
        if Normalized(rules, sites).Some? {
          var all := seq(|sites|, i requires 0 <= i < |sites| && rules.normalize(sites[i]).Some? =>
                           rules.normalize(sites[i]).value);
          assert all == Normalized(rules, sites).value;
        }
      case _ =>
    }
  }

  /** Every change makes of the records what it says, and leaves the others alone. */
  lemma ChangeIsMade(rules: Rules, r: Repository, c: Change)
    requires ValidRepository(r) && DraftOf(rules, r, c).Some?
    ensures Made(rules, r, c, Write(rules, r, c))
  {
    WriteIsDraft(rules, r, c);
    match c {
      case UpdateSite(site) => ReplacedOne(r.sites, rules.normalize(site).value);
      case DeleteSite(id) => DeletedOne(r.sites, id);
      case Import(sites, _) => NormalizedEach(rules, sites);
      case _ =>
    }
  }

  lemma ReplacedOne(sites: seq<Site>, site: Site)
    requires Ordered(sites) && Exists(sites, site.id)
    ensures var after := sites[Find(sites, site.id) := site];
      forall i :: 0 <= i < |sites| ==> after[i] == if sites[i].id == site.id then site else sites[i]
  {
    var k := Find(sites, site.id);
    forall i | 0 <= i < |sites| && i != k ensures sites[i].id != site.id {
      assert i < k || sites[k].id < sites[i].id;
    }
  }

  // ---------------------------------------------------------------- what is published of the records

  /** The records are published in their order: in parts, and each on its own. */
  lemma {:induction false} RuntimeSitesInOrder(rules: Rules, a: seq<Site>, b: seq<Site>)
    ensures var x, y := RuntimeSites(rules, a), RuntimeSites(rules, b);
      RuntimeSites(rules, a + b) == if x.None? || y.None? then None else Some(x.value + y.value)
    decreases |b|
  {
    if b == [] {
      assert a + b == a;
      if RuntimeSites(rules, a).Some? {
        assert RuntimeSites(rules, a).value + [] == RuntimeSites(rules, a).value;
      }
    } else {
      var n := |b| - 1;
      RuntimeSitesInOrder(rules, a, b[..n]);
      assert (a + b)[..|a + b| - 1] == a + b[..n] && (a + b)[|a + b| - 1] == b[n];
      var x, y, last := RuntimeSites(rules, a), RuntimeSites(rules, b[..n]), rules.normalize(b[n]);
      if x.Some? && y.Some? && last.Some? {
        assert x.value + y.value + [last.value] == x.value + (y.value + [last.value]);
      }
    }
  }

  /** What is published is the normalized form of the records that are enabled, of all of them and of no other. */
  lemma {:induction false} RuntimeSitesIff(rules: Rules, sites: seq<Site>)
    ensures RuntimeSites(rules, sites).Some? <==> forall i :: 0 <= i < |sites| ==> rules.normalize(sites[i]).Some?
    ensures RuntimeSites(rules, sites).Some? ==>
      forall s :: s in RuntimeSites(rules, sites).value <==>
                  s.enabled && exists i :: 0 <= i < |sites| && rules.normalize(sites[i]) == Some(s)
  {
    if sites != [] {
      var n := |sites| - 1;
      RuntimeSitesIff(rules, sites[..n]);
      if RuntimeSites(rules, sites).Some? {
        forall s ensures s in RuntimeSites(rules, sites).value <==>
                         s.enabled && exists i :: 0 <= i < |sites| && rules.normalize(sites[i]) == Some(s)
        {
          PublishedOne(rules, sites, n, s);
        }
      }
    }
  }

  lemma PublishedOne(rules: Rules, sites: seq<Site>, n: nat, s: Site)
    requires n + 1 == |sites| && RuntimeSites(rules, sites).Some?
    requires s in RuntimeSites(rules, sites[..n]).value <==>
             s.enabled && exists i :: 0 <= i < n && rules.normalize(sites[..n][i]) == Some(s)
    ensures s in RuntimeSites(rules, sites).value <==>
            s.enabled && exists i :: 0 <= i < |sites| && rules.normalize(sites[i]) == Some(s)
  {
    if i :| 0 <= i < n && rules.normalize(sites[i]) == Some(s) {
      assert sites[..n][i] == sites[i];
    }
    if i :| 0 <= i < n && rules.normalize(sites[..n][i]) == Some(s) {
      assert sites[i] == sites[..n][i];
    }
  }

  lemma {:induction false} DeleteKeepsOrder(sites: seq<Site>, id: int, low: int, high: int)
    requires Ordered(sites) && forall i :: 0 <= i < |sites| ==> low < sites[i].id <= high
    ensures var rest := DeleteRows(sites, id);
      Ordered(rest) && (forall i :: 0 <= i < |rest| ==> low < rest[i].id <= high)
  {
    if sites != [] {
      DeleteKeepsOrder(sites[1..], id, sites[0].id, high);
    }
  }

  lemma WriteKeepsValid(rules: Rules, r: Repository, c: Change)
    requires ValidRepository(r) && DraftOf(rules, r, c).Some?
    ensures ValidRepository(Write(rules, r, c)) && r.lastId <= Write(rules, r, c).lastId
  {
    WriteIsDraft(rules, r, c);
    if c.DeleteSite? {
      DeleteKeepsOrder(r.sites, c.id, 0, r.lastId);
    } else if c.Import? {
      InsertIsNumbered(r.(sites := [], settings := c.newSettings), Normalized(rules, c.sites).value);
    }
  }
}
