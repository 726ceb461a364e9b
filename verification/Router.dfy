/**
 Which site serves a host name: an exact binding, or else the wildcard binding with the longest suffix. The router
 keeps a map and a list sorted by length; the answer is proved not to depend on the order of the configuration, nor
 on how the sort arranges suffixes of the same length.
 */
module VirtualHostRouter {
  import opened Options

  type Site = nat

  datatype HostConfig = HostConfig(site: Site, domains: seq<string>)

  /** Code that is not modelled: validation of the other fields, and of a domain name. */
  datatype Rules = Rules(validHost: HostConfig -> bool, normalize: string -> Option<string>)

  /** What one domain pattern of a configuration binds. */
  datatype Binding = Binding(wildcard: bool, name: string, site: Site)

  datatype Wildcard = Wildcard(suffix: string, site: Site)

  datatype Tables = Tables(exact: map<string, Site>, wildcards: seq<Wildcard>)

  // ---------------------------------------------------------------- reading the configuration

  predicate IsWildcard(pattern: string) { |pattern| >= 2 && pattern[0] == '*' && pattern[1] == '.' }

  function Bind(rules: Rules, pattern: string, site: Site): Option<Binding> {
    var wildcard := IsWildcard(pattern);
    var domain := rules.normalize(if wildcard then pattern[2..] else pattern);
    if domain.None? || (wildcard && '.' !in domain.value) then None
    else Some(Binding(wildcard, domain.value, site))
  }

  /** Enters a binding in the tables; `None` if its name is taken. */
  function Enter(t: Tables, b: Binding): Option<Tables> {
    if b.wildcard then
      if exists i :: 0 <= i < |t.wildcards| && t.wildcards[i].suffix == b.name then None
      else Some(t.(wildcards := t.wildcards + [Wildcard(b.name, b.site)]))
    else if b.name in t.exact then None
    else Some(t.(exact := t.exact[b.name := b.site]))
  }

  /** The bindings of the domains; `None` if any of them is invalid. */
  function BindAll(rules: Rules, domains: seq<string>, site: Site): Option<seq<Binding>> {
    if domains == [] then Some([])
    else
      var n := |domains| - 1;
      var before, last := BindAll(rules, domains[..n], site), Bind(rules, domains[n], site);
      if before.None? || last.None? then None else Some(before.value + [last.value])
  }

  /** The bindings of one virtual host; `None` if it is invalid. */
  function HostBindings(rules: Rules, config: HostConfig): Option<seq<Binding>> {
    if config.domains == [] || !rules.validHost(config) then None else BindAll(rules, config.domains, config.site)
  }

  function BindingsOf(rules: Rules, configs: seq<HostConfig>): Option<seq<Binding>> {
    if configs == [] then Some([])
    else
      var n := |configs| - 1;
      var before, last := BindingsOf(rules, configs[..n]), HostBindings(rules, configs[n]);
      if before.None? || last.None? then None else Some(before.value + last.value)
  }

  /** No two bindings of the same kind have the same name. */
  predicate Unique(bs: seq<Binding>) {
    forall i, j :: 0 <= i < j < |bs| ==> !(bs[i].wildcard == bs[j].wildcard && bs[i].name == bs[j].name)
  }

  /** The tables hold exactly the bindings. */
  ghost predicate Holds(t: Tables, bs: seq<Binding>) {
    && (forall name :: name in t.exact ==> Binding(false, name, t.exact[name]) in bs)
    && (forall b :: b in bs && !b.wildcard ==> b.name in t.exact && t.exact[b.name] == b.site)
    && (forall i :: 0 <= i < |t.wildcards| ==> Binding(true, t.wildcards[i].suffix, t.wildcards[i].site) in bs)
    && (forall b :: b in bs && b.wildcard ==> Wildcard(b.name, b.site) in t.wildcards)
  }

  predicate Same(a: Binding, b: Binding) { a.wildcard == b.wildcard && a.name == b.name }

  /** A binding is refused exactly when one of its kind has its name. */
  lemma EnterRefuses(t: Tables, bs: seq<Binding>, b: Binding)
    requires Holds(t, bs)
    ensures Enter(t, b).None? <==> exists i :: 0 <= i < |bs| && Same(bs[i], b)
  {
    if Enter(t, b).None? {
      if b.wildcard {
        var i :| 0 <= i < |t.wildcards| && t.wildcards[i].suffix == b.name;
        assert Binding(true, b.name, t.wildcards[i].site) in bs;
      } else {
        assert Binding(false, b.name, t.exact[b.name]) in bs;
      }
    } else {
      forall i | 0 <= i < |bs| ensures !Same(bs[i], b) {
        assert bs[i] in bs;
        assert bs[i].wildcard ==> Wildcard(bs[i].name, bs[i].site) in t.wildcards;
      }
    }
  }

  lemma UniqueAppend(bs: seq<Binding>, b: Binding)
    requires Unique(bs)
    ensures Unique(bs + [b]) <==> forall i :: 0 <= i < |bs| ==> !Same(bs[i], b)
  {
    var all := bs + [b];
    assert forall i :: 0 <= i < |bs| ==> all[i] == bs[i];
    if Unique(all) {
      forall i | 0 <= i < |bs| ensures !Same(bs[i], b) {
        assert all[|bs|] == b && all[i] == bs[i];
      }
    }
  }

  lemma EnterKeeps(t: Tables, bs: seq<Binding>, b: Binding)
    requires Holds(t, bs) && Enter(t, b).Some?
    ensures Holds(Enter(t, b).value, bs + [b])
  {
    assert forall x :: x in bs + [b] <==> x in bs || x == b;
    var after := Enter(t, b).value;
    if b.wildcard {
      assert after.wildcards == t.wildcards + [Wildcard(b.name, b.site)];
    } else {
      EnterRefuses(t, bs, b);
    }
  }

  lemma EnterHolds(t: Tables, bs: seq<Binding>, b: Binding)
    requires Unique(bs) && Holds(t, bs)
    ensures Enter(t, b).Some? <==> Unique(bs + [b])
    ensures Enter(t, b).Some? ==> Holds(Enter(t, b).value, bs + [b])
  {
    EnterRefuses(t, bs, b);
    UniqueAppend(bs, b);
    if Enter(t, b).Some? {
      EnterKeeps(t, bs, b);
    }
  }

  // ---------------------------------------------------------------- finding

  /** The host is a name below the suffix: the suffix starts after a dot. */
  predicate Covers(suffix: string, host: string) {
    && |host| > |suffix|
    && host[|host| - |suffix|..] == suffix
    && host[|host| - |suffix| - 1] == '.'
  }

  ghost predicate LongestFirst(ws: seq<Wildcard>) {
    forall i, j :: 0 <= i < j < |ws| ==> |ws[i].suffix| >= |ws[j].suffix|
  }

  /** The first wildcard of the list that covers the host. */
  function FirstCover(ws: seq<Wildcard>, host: string): Option<Site> {
    if ws == [] then None else if Covers(ws[0].suffix, host) then Some(ws[0].site) else FirstCover(ws[1..], host)
  }

  function Lookup(t: Tables, host: string): Option<Site> {
    if host in t.exact then Some(t.exact[host]) else FirstCover(t.wildcards, host)
  }

  method Find(t: Tables, host: string) returns (found: Option<Site>)
    ensures found == Lookup(t, host)
  {
    if host in t.exact {
      return Some(t.exact[host]);
    }
    var i := 0;
    while i < |t.wildcards|
      invariant 0 <= i <= |t.wildcards| && FirstCover(t.wildcards, host) == FirstCover(t.wildcards[i..], host)
    {
      assert t.wildcards[i..][1..] == t.wildcards[i + 1..];
      if Covers(t.wildcards[i].suffix, host) {
        return Some(t.wildcards[i].site);
      }
      i := i + 1;
    }
    return None;
  }

  /** What a binding says about a host: it serves it exactly, or it has the longest suffix and no exact one is there. */
  ghost predicate Serves(bs: seq<Binding>, host: string, b: Binding) {
    && b in bs
    && if b.wildcard then
         && Covers(b.name, host)
         && (forall x :: x in bs && !x.wildcard ==> x.name != host)
         && (forall x :: x in bs && x.wildcard && Covers(x.name, host) ==> |x.name| <= |b.name|)
       else b.name == host
  }

  /** In a list from the longest suffix on, the first that covers is a longest that covers. */
  lemma {:induction false} FirstIsLongest(ws: seq<Wildcard>, host: string) returns (i: nat)
    requires LongestFirst(ws)
    ensures FirstCover(ws, host).None? ==> forall j :: 0 <= j < |ws| ==> !Covers(ws[j].suffix, host)
    ensures FirstCover(ws, host).Some? ==>
      && i < |ws| && Covers(ws[i].suffix, host) && FirstCover(ws, host).value == ws[i].site
      && forall j :: 0 <= j < |ws| && Covers(ws[j].suffix, host) ==> |ws[j].suffix| <= |ws[i].suffix|
  {
    i := 0;
    if ws != [] && !Covers(ws[0].suffix, host) {
      var k := FirstIsLongest(ws[1..], host);
      i := k + 1;
    }
  }

  /** Two bindings that serve a host are one. */
  lemma ServesOnce(bs: seq<Binding>, host: string, b: Binding, c: Binding)
    requires Unique(bs) && Serves(bs, host, b) && Serves(bs, host, c)
    ensures b == c
  {
    assert b.wildcard == c.wildcard;
    assert b.name == c.name;
    var i :| 0 <= i < |bs| && bs[i] == b;
    var j :| 0 <= j < |bs| && bs[j] == c;
  }

  lemma LookupIsServed(t: Tables, bs: seq<Binding>, host: string) returns (b: Binding)
    requires Holds(t, bs) && LongestFirst(t.wildcards) && Lookup(t, host).Some?
    ensures Serves(bs, host, b) && Lookup(t, host) == Some(b.site)
  {
    if host in t.exact {
      b := Binding(false, host, t.exact[host]);
    } else {
      var i := FirstIsLongest(t.wildcards, host);
      b := Binding(true, t.wildcards[i].suffix, t.wildcards[i].site);
      assert b in bs;
      forall x | x in bs && x.wildcard && Covers(x.name, host) ensures |x.name| <= |b.name| {
        var j :| 0 <= j < |t.wildcards| && t.wildcards[j] == Wildcard(x.name, x.site);
      }
    }
  }

  lemma ServedIsFound(t: Tables, bs: seq<Binding>, host: string, b: Binding)
    requires Holds(t, bs) && LongestFirst(t.wildcards) && Serves(bs, host, b)
    ensures Lookup(t, host).Some?
  {
    if b.wildcard {
      assert Wildcard(b.name, b.site) in t.wildcards;
      var i := FirstIsLongest(t.wildcards, host);
    }
  }

  /** A site is found exactly when one of its bindings serves the host. */
  lemma FoundIffServed(t: Tables, bs: seq<Binding>, host: string, site: Site)
    requires Holds(t, bs) && Unique(bs) && LongestFirst(t.wildcards)
    ensures Lookup(t, host) == Some(site) <==> exists b :: Serves(bs, host, b) && b.site == site
  {
    if Lookup(t, host).Some? {
      var b := LookupIsServed(t, bs, host);
      forall c | Serves(bs, host, c) ensures c == b {
        ServesOnce(bs, host, b, c);
      }
    } else {
      forall b ensures !Serves(bs, host, b) {
        if Serves(bs, host, b) {
          ServedIsFound(t, bs, host, b);
        }
      }
    }
  }

  /** The answer depends on the bindings, and not on their order or that of suffixes of the same length. */
  lemma SameBindingsSameAnswer(t: Tables, bs: seq<Binding>, u: Tables, cs: seq<Binding>, host: string)
    requires Holds(t, bs) && Unique(bs) && LongestFirst(t.wildcards)
    requires Holds(u, cs) && Unique(cs) && LongestFirst(u.wildcards)
    requires forall b :: b in bs <==> b in cs
    ensures Lookup(t, host) == Lookup(u, host)
  {
    assert forall b :: Serves(bs, host, b) <==> Serves(cs, host, b);
    if Lookup(t, host).Some? {
      FoundIffServed(t, bs, host, Lookup(t, host).value);
      FoundIffServed(u, cs, host, Lookup(t, host).value);
    } else if Lookup(u, host).Some? {
      FoundIffServed(t, bs, host, Lookup(u, host).value);
      FoundIffServed(u, cs, host, Lookup(u, host).value);
    }
  }

  // ---------------------------------------------------------------- what a configuration serves

  /** A host is below a suffix exactly if it is the suffix with some text and a dot before it. */
  lemma CoversIff(suffix: string, host: string)
    ensures Covers(suffix, host) <==> exists front: string :: host == front + ['.'] + suffix
  {
    if Covers(suffix, host) {
      var n := |host| - |suffix| - 1;
      assert host == host[..n] + ['.'] + suffix;
    }
    if front: string :| host == front + ['.'] + suffix {
      assert host[|host| - |suffix|..] == suffix && host[|front|] == '.';
    }
  }

  /** A pattern `*.name` binds the names below `name`, if it has a dot; any other pattern binds its own name. */
  lemma PatternBinds(rules: Rules, pattern: string, site: Site, b: Binding)
    ensures Bind(rules, pattern, site) == Some(b) <==>
      && b.site == site
      && if exists name: string :: pattern == ['*', '.'] + name
         then b.wildcard && '.' in b.name && rules.normalize(pattern[2..]) == Some(b.name)
         else !b.wildcard && rules.normalize(pattern) == Some(b.name)
  {
    if IsWildcard(pattern) {
      assert pattern == ['*', '.'] + pattern[2..];
    }
    if name: string :| pattern == ['*', '.'] + name {
      assert pattern[0] == '*' && pattern[1] == '.';
    }
  }

  lemma {:induction false} BindAllIff(rules: Rules, domains: seq<string>, site: Site, b: Binding)
    requires BindAll(rules, domains, site).Some?
    ensures b in BindAll(rules, domains, site).value <==> exists p :: p in domains && Bind(rules, p, site) == Some(b)
  {
    if domains != [] {
      var n := |domains| - 1;
      BindAllIff(rules, domains[..n], site, b);
      assert domains == domains[..n] + [domains[n]];
    }
  }

  /** The bindings of a configuration are those of the patterns of its hosts, for their sites. */
  lemma {:induction false} BindingsIff(rules: Rules, configs: seq<HostConfig>, b: Binding)
    requires BindingsOf(rules, configs).Some?
    ensures b in BindingsOf(rules, configs).value <==>
            exists c :: c in configs && exists p :: p in c.domains && Bind(rules, p, c.site) == Some(b)
  {
    if configs != [] {
      var n := |configs| - 1;
      BindingsIff(rules, configs[..n], b);
      BindAllIff(rules, configs[n].domains, configs[n].site, b);
      assert configs == configs[..n] + [configs[n]];
    }
  }

  lemma {:induction false} DomainsValidIff(rules: Rules, domains: seq<string>, site: Site)
    ensures BindAll(rules, domains, site).Some? <==> forall p :: p in domains ==> Bind(rules, p, site).Some?
  {
    if domains != [] {
      var n := |domains| - 1;
      DomainsValidIff(rules, domains[..n], site);
      assert domains == domains[..n] + [domains[n]];
    }
  }

  /** Bindings can be made exactly if every host is valid, has a domain, and all its domains are valid. */
  lemma {:induction false} HostsValidIff(rules: Rules, configs: seq<HostConfig>)
    ensures BindingsOf(rules, configs).Some? <==>
      forall c :: c in configs ==>
        rules.validHost(c) && c.domains != [] && forall p :: p in c.domains ==> Bind(rules, p, c.site).Some?
  {
    if configs != [] {
      var n := |configs| - 1;
      HostsValidIff(rules, configs[..n]);
      DomainsValidIff(rules, configs[n].domains, configs[n].site);
      assert configs == configs[..n] + [configs[n]];
    }
  }

  // ---------------------------------------------------------------- the order of the configuration

  /** What the constructor accepts: valid hosts, and no name bound twice. */
  ghost predicate Acceptable(rules: Rules, configs: seq<HostConfig>) {
    BindingsOf(rules, configs).Some? && Unique(BindingsOf(rules, configs).value)
  }

  /** The tables of an accepted configuration, however the sort arranges suffixes of the same length. */
  ghost predicate TablesOf(rules: Rules, configs: seq<HostConfig>, t: Tables) {
    Acceptable(rules, configs) && Holds(t, BindingsOf(rules, configs).value) && LongestFirst(t.wildcards)
  }

  function Cut(configs: seq<HostConfig>, i: nat): seq<HostConfig>
    requires i < |configs|
  {
    configs[..i] + configs[i + 1..]
  }

  lemma CutCounts(configs: seq<HostConfig>, i: nat)
    requires i < |configs|
    ensures multiset(Cut(configs, i)) == multiset(configs) - multiset{configs[i]}
    ensures |Cut(configs, i)| == |configs| - 1
  {
    assert configs == configs[..i] + [configs[i]] + configs[i + 1..];
  }

  /** One configuration more or less. */
  ghost predicate AddsUp(all: Option<seq<Binding>>, some: Option<seq<Binding>>, one: Option<seq<Binding>>) {
    && (all.Some? <==> some.Some? && one.Some?)
    && (all.Some? ==> multiset(all.value) == multiset(some.value) + multiset(one.value))
  }

  lemma LastBindings(rules: Rules, configs: seq<HostConfig>, n: nat)
    requires n + 1 == |configs|
    ensures AddsUp(BindingsOf(rules, configs), BindingsOf(rules, configs[..n]), HostBindings(rules, configs[n]))
  {
  }

  lemma AddsUpInAnyOrder(all: Option<seq<Binding>>, cut: Option<seq<Binding>>, less: Option<seq<Binding>>,
                         both: Option<seq<Binding>>, one: Option<seq<Binding>>, last: Option<seq<Binding>>)
    requires AddsUp(all, less, last) && AddsUp(less, both, one) && AddsUp(cut, both, last)
    ensures AddsUp(all, cut, one)
  {
  }

  lemma {:induction false} CutBindings(rules: Rules, configs: seq<HostConfig>, i: nat)
    requires i < |configs|
    ensures AddsUp(BindingsOf(rules, configs), BindingsOf(rules, Cut(configs, i)), HostBindings(rules, configs[i]))
    decreases |configs|
  {
    var n := |configs| - 1;
    var less, cut := configs[..n], Cut(configs, i);
    LastBindings(rules, configs, n);
    if i == n {
      assert cut == less;
    } else {
      CutBindings(rules, less, i);
      assert cut[n - 1] == configs[n] && cut[..n - 1] == Cut(less, i);
      LastBindings(rules, cut, n - 1);
      AddsUpInAnyOrder(BindingsOf(rules, configs), BindingsOf(rules, cut), BindingsOf(rules, less),
                       BindingsOf(rules, Cut(less, i)), HostBindings(rules, configs[i]),
                       HostBindings(rules, configs[n]));
    }
  }

  /** The same configurations in another order have the same bindings. */
  ghost predicate SameBindings(a: Option<seq<Binding>>, b: Option<seq<Binding>>) {
    (a.Some? <==> b.Some?) && (a.Some? ==> multiset(a.value) == multiset(b.value))
  }

  lemma {:induction false} PermutedBindings(rules: Rules, configs: seq<HostConfig>, permuted: seq<HostConfig>)
    requires multiset(configs) == multiset(permuted)
    ensures SameBindings(BindingsOf(rules, configs), BindingsOf(rules, permuted))
    decreases |configs|
  {
    if configs == [] {
      assert |multiset(permuted)| == 0;
    } else {
      var n := |configs| - 1;
      assert configs[n] in multiset(permuted);
      var i: nat :| i < |permuted| && permuted[i] == configs[n];
      CutCounts(configs, n);
      CutCounts(permuted, i);
      PermutedBindings(rules, Cut(configs, n), Cut(permuted, i));
      CutBindings(rules, configs, n);
      CutBindings(rules, permuted, i);
    }
  }

  lemma {:induction false} UniqueCount(bs: seq<Binding>, b: Binding)
    requires Unique(bs)
    ensures multiset(bs)[b] <= 1
  {
    if bs != [] {
      var n := |bs| - 1;
      UniqueCount(bs[..n], b);
      assert bs == bs[..n] + [bs[n]];
      assert bs[n] !in bs[..n];
    }
  }

  lemma TwiceCounts(bs: seq<Binding>, i: nat, j: nat)
    requires i < j < |bs| && bs[i] == bs[j]
    ensures multiset(bs)[bs[i]] >= 2
  {
    assert bs == bs[..j] + [bs[j]] + bs[j + 1..];
    assert bs[i] in bs[..j];
  }

  lemma UniquePermuted(bs: seq<Binding>, cs: seq<Binding>)
    requires multiset(bs) == multiset(cs) && Unique(bs)
    ensures Unique(cs)
  {
    forall i, j | 0 <= i < j < |cs| ensures !Same(cs[i], cs[j]) {
      if cs[i] == cs[j] {
        TwiceCounts(cs, i, j);
        UniqueCount(bs, cs[i]);
      } else {
        assert cs[i] in multiset(bs) && cs[j] in multiset(bs);
        var p :| 0 <= p < |bs| && bs[p] == cs[i];
        var q :| 0 <= q < |bs| && bs[q] == cs[j];
        assert p < q || q < p;
      }
    }
  }

  /** A configuration in another order is accepted or refused as before, and every host gets the same answer. */
  lemma OrderDoesNotMatter(
    rules: Rules, configs: seq<HostConfig>, permuted: seq<HostConfig>, t: Tables, u: Tables, host: string)
    requires multiset(configs) == multiset(permuted)
    ensures Acceptable(rules, configs) <==> Acceptable(rules, permuted)
    ensures TablesOf(rules, configs, t) && TablesOf(rules, permuted, u) ==> Lookup(t, host) == Lookup(u, host)
  {
    PermutedBindings(rules, configs, permuted);
    if BindingsOf(rules, configs).Some? {
      var bs, cs := BindingsOf(rules, configs).value, BindingsOf(rules, permuted).value;
      if Unique(bs) {
        UniquePermuted(bs, cs);
      }
      if Unique(cs) {
        UniquePermuted(cs, bs);
      }
      assert forall b :: b in bs <==> b in multiset(bs);
      assert forall b :: b in cs <==> b in multiset(cs);
      if TablesOf(rules, configs, t) && TablesOf(rules, permuted, u) {
        SameBindingsSameAnswer(t, bs, u, cs, host);
      }
    }
  }

  // ---------------------------------------------------------------- building

  /** What the library's sort promises. */
  ghost predicate Sorts(arrange: seq<Wildcard> -> seq<Wildcard>) {
    forall ws :: LongestFirst(arrange(ws)) && multiset(arrange(ws)) == multiset(ws)
  }

  lemma SortedHolds(arrange: seq<Wildcard> -> seq<Wildcard>, t: Tables, bs: seq<Binding>)
    requires Sorts(arrange) && Holds(t, bs)
    ensures Holds(t.(wildcards := arrange(t.wildcards)), bs) && LongestFirst(arrange(t.wildcards))
  {
    var ws, us := t.wildcards, arrange(t.wildcards);
    assert multiset(us) == multiset(ws);
    assert forall w :: w in us <==> w in multiset(us);
    assert forall w :: w in ws <==> w in multiset(ws);
    forall i | 0 <= i < |us| ensures Binding(true, us[i].suffix, us[i].site) in bs {
      assert us[i] in ws;
    }
  }

  /** The constructor: tables for an acceptable configuration, and nothing for any other. */
  method Build(rules: Rules, configs: seq<HostConfig>, arrange: seq<Wildcard> -> seq<Wildcard>)
    returns (built: Option<Tables>)
    requires Sorts(arrange)
    ensures built.Some? <==> Acceptable(rules, configs)
    ensures built.Some? ==> TablesOf(rules, configs, built.value)
  {
    var tables := Tables(map[], []);
    ghost var bs: seq<Binding> := [];
    var i := 0;
    while i < |configs|
      invariant 0 <= i <= |configs| && BindingsOf(rules, configs[..i]) == Some(bs)
      invariant Unique(bs) && Holds(tables, bs)
    {
      NextConfig(rules, configs, i);
      if configs[i].domains == [] || !rules.validHost(configs[i]) {
        BadConfig(rules, configs, i);
        return None;
      }
      var ok, after := EnterDomains(rules, configs[i], tables, bs);
      if !ok {
        BadBindings(rules, configs, i);
        return None;
      }
      tables := after;
      bs := bs + BindAll(rules, configs[i].domains, configs[i].site).value;
      i := i + 1;
    }
    assert configs[..i] == configs;
    SortedHolds(arrange, tables, bs);
    return Some(tables.(wildcards := arrange(tables.wildcards)));
  }

  /** The domains of one configuration. */
  method EnterDomains(rules: Rules, config: HostConfig, before: Tables, ghost bs: seq<Binding>)
    returns (ok: bool, tables: Tables)
    requires Unique(bs) && Holds(before, bs)
    ensures var more := BindAll(rules, config.domains, config.site);
      ok <==> more.Some? && Unique(bs + more.value)
    ensures ok ==> Holds(tables, bs + BindAll(rules, config.domains, config.site).value)
  {
    tables := before;
    ghost var more: seq<Binding> := [];
    var domains := config.domains;
    var i := 0;
    assert bs + more == bs;
    while i < |domains|
      invariant 0 <= i <= |domains| && BindAll(rules, domains[..i], config.site) == Some(more)
      invariant Unique(bs + more) && Holds(tables, bs + more)
    {
      NextDomain(rules, domains, config.site, i);
      var b := Bind(rules, domains[i], config.site);
      if b.None? {
        BadDomain(rules, domains, config.site, i);
        return false, tables;
      }
      EnterHolds(tables, bs + more, b.value);
      assert bs + (more + [b.value]) == (bs + more) + [b.value];
      var entered := Enter(tables, b.value);
      if entered.None? {
        NotUnique(rules, bs, domains, config.site, i + 1);
        return false, tables;
      }
      tables := entered.value;
      more := more + [b.value];
      i := i + 1;
    }
    assert domains[..i] == domains;
    return true, tables;
  }

  lemma NextDomain(rules: Rules, domains: seq<string>, site: Site, i: nat)
    requires i < |domains|
    ensures BindAll(rules, domains[..i + 1], site) ==
            var before, last := BindAll(rules, domains[..i], site), Bind(rules, domains[i], site);
            if before.None? || last.None? then None else Some(before.value + [last.value])
  {
    assert domains[..i + 1][..i] == domains[..i];
  }

  lemma NextConfig(rules: Rules, configs: seq<HostConfig>, i: nat)
    requires i < |configs|
    ensures BindingsOf(rules, configs[..i + 1]) ==
            var before, last := BindingsOf(rules, configs[..i]), HostBindings(rules, configs[i]);
            if before.None? || last.None? then None else Some(before.value + last.value)
  {
    assert configs[..i + 1][..i] == configs[..i];
  }

  lemma {:induction false} BadDomain(rules: Rules, domains: seq<string>, site: Site, i: nat)
    requires i < |domains| && Bind(rules, domains[i], site).None?
    ensures BindAll(rules, domains, site).None?
    decreases |domains|
  {
    if i < |domains| - 1 {
      BadDomain(rules, domains[..|domains| - 1], site, i);
    }
  }

  /** Bindings that clash still clash when more are added. */
  lemma {:induction false} NotUnique(rules: Rules, bs: seq<Binding>, domains: seq<string>, site: Site, i: nat)
    requires i <= |domains| && BindAll(rules, domains[..i], site).Some?
    requires !Unique(bs + BindAll(rules, domains[..i], site).value)
    ensures BindAll(rules, domains, site).Some? ==> !Unique(bs + BindAll(rules, domains, site).value)
    decreases |domains|
  {
    if i == |domains| {
      assert domains[..i] == domains;
    } else {
      var n := |domains| - 1;
      assert domains[..n][..i] == domains[..i];
      NotUnique(rules, bs, domains[..n], site, i);
      if BindAll(rules, domains, site).Some? {
        var less, all := bs + BindAll(rules, domains[..n], site).value, bs + BindAll(rules, domains, site).value;
        ClashStays(less, all);
      }
    }
  }

  lemma ClashStays(less: seq<Binding>, all: seq<Binding>)
    requires less <= all && !Unique(less)
    ensures !Unique(all)
  {
    var i, j :| 0 <= i < j < |less| && less[i].wildcard == less[j].wildcard && less[i].name == less[j].name;
    assert all[i] == less[i] && all[j] == less[j];
  }

  lemma {:induction false} BadConfig(rules: Rules, configs: seq<HostConfig>, i: nat)
    requires i < |configs| && (configs[i].domains == [] || !rules.validHost(configs[i]))
    ensures BindingsOf(rules, configs).None?
    decreases |configs|
  {
    if i < |configs| - 1 {
      BadConfig(rules, configs[..|configs| - 1], i);
    }
  }

  lemma {:induction false} BadBindings(rules: Rules, configs: seq<HostConfig>, i: nat)
    requires i < |configs| && BindingsOf(rules, configs[..i]).Some?
    requires var before, more := BindingsOf(rules, configs[..i]), HostBindings(rules, configs[i]);
      more.None? || !Unique(before.value + more.value)
    ensures BindingsOf(rules, configs).Some? ==> !Unique(BindingsOf(rules, configs).value)
    decreases |configs|
  {
    var n := |configs| - 1;
    if i < n {
      var less := configs[..n];
      assert less[..i] == configs[..i] && less[i] == configs[i];
      BadBindings(rules, less, i);
      if BindingsOf(rules, configs).Some? {
        ClashStays(BindingsOf(rules, less).value, BindingsOf(rules, configs).value);
      }
    }
  }
}
