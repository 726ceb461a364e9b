/**
 The data plane's side of a reload: listeners for the new ports are opened before anything changes, a commit swaps
 the maps, retires the listeners of the removed ports and publishes, and a reload that is dropped closes what it opened.
 */
module ServerReload {
  import opened Options
  import opened ConfigStore

  type Listener = nat

  type Listeners = map<Port, Listener>

  ghost predicate Injective(m: Listeners) { forall p, q :: p in m && q in m && m[p] == m[q] ==> p == q }

  ghost predicate Distinct(s: seq<Listener>) { forall i, j :: 0 <= i < j < |s| ==> s[i] != s[j] }

  ghost function Elements(s: seq<Listener>): set<Listener> { set x | x in s }

  /** Everything that a commit needs, worked out while nothing has changed yet. */
  datatype Prepared = Prepared(
    next: Spec, started: bool, http: Listeners, tls: Listeners,
    addedHttp: seq<Listener>, addedTls: seq<Listener>, retireHttp: seq<Listener>, retireTls: seq<Listener>)

  /** `final` serves exactly `ports`, keeps the listeners of `current`, and opened `added` for the rest. */
  ghost predicate Opened(current: Listeners, ports: set<Port>, final: Listeners, added: seq<Listener>) {
    && final.Keys == current.Keys + ports
    && (forall p :: p in current ==> final[p] == current[p])
    && (forall p :: p in ports && p !in current ==> final[p] in added)
    && (forall x :: x in added ==> exists p :: p in ports && p !in current && final[p] == x)
  }

  /** `retired` lists each listener of `final` for a port outside `ports` once; `kept` has the others. */
  ghost predicate Split(final: Listeners, ports: set<Port>, kept: Listeners, retired: seq<Listener>) {
    && kept.Keys == final.Keys * ports
    && (forall p :: p in kept ==> kept[p] == final[p])
    && Distinct(retired)
    && (forall p :: p in final && p !in ports ==> final[p] in retired)
    && (forall x :: x in retired ==> exists p :: p in final && p !in ports && final[p] == x)
  }

  /** The difference between two listener maps that a reload makes. */
  ghost predicate Diff(
    before: Listeners, ports: set<Port>, final: Listeners, added: seq<Listener>, retired: seq<Listener>)
  {
    && final.Keys == ports
    && (forall p :: p in before && p in ports ==> final[p] == before[p])
    && (forall p :: p in ports && p !in before ==> final[p] in added)
    && Distinct(retired)
    && (forall p :: p in before && p !in ports ==> before[p] in retired)
    && (forall x :: x in retired ==> exists p :: p in before && p !in ports && before[p] == x)
  }

  /** Opening the missing listeners and then splitting off the others makes the difference. */
  lemma OpenThenSplit(current: Listeners, ports: set<Port>, all: Listeners, added: seq<Listener>,
                      final: Listeners, retired: seq<Listener>)
    requires Opened(current, ports, all, added) && Split(all, ports, final, retired)
    ensures Diff(current, ports, final, added, retired) && final.Values <= all.Values
  {
    assert final.Keys == ports;
    forall x | x in retired ensures exists p :: p in current && p !in ports && current[p] == x {
      var p :| p in all && p !in ports && all[p] == x;
      assert p in current;
    }
  }

  /** The loop has opened what was missing of the ports `done`, with listeners from `first` on and before `next`. */
  ghost predicate OpenedSoFar(
    current: Listeners, done: set<Port>, bindable: set<Port>, final: Listeners, added: seq<Listener>,
    first: Listener, next: Listener)
  {
    && Injective(final) && final.Keys == current.Keys + done
    && (forall p :: p in current ==> final[p] == current[p] < first)
    && (forall p :: p in final && p !in current ==> p in bindable && final[p] in added)
    && (forall x :: x in added ==> exists p :: p in done && p !in current && final[p] == x)
    && first <= next && (forall x :: x in added ==> first <= x < next)
  }

  lemma OpensNext(
    current: Listeners, done: set<Port>, bindable: set<Port>, final: Listeners, added: seq<Listener>,
    first: Listener, next: Listener, port: Port)
    requires OpenedSoFar(current, done, bindable, final, added, first, next) && port !in final && port in bindable
    ensures OpenedSoFar(current, done + {port}, bindable, final[port := next], added + [next], first, next + 1)
  {
    var after := final[port := next];
    assert forall p :: p in final ==> final[p] < next;
    forall x | x in added + [next] ensures exists p :: p in done + {port} && p !in current && after[p] == x {
      if x in added {
        var p :| p in done && p !in current && final[p] == x;
        assert after[p] == x;
      } else {
        assert after[port] == x;
      }
    }
  }

  lemma HasListener(
    current: Listeners, done: set<Port>, bindable: set<Port>, final: Listeners, added: seq<Listener>,
    first: Listener, next: Listener, port: Port)
    requires OpenedSoFar(current, done, bindable, final, added, first, next) && port in final
    ensures OpenedSoFar(current, done + {port}, bindable, final, added, first, next)
  {
  }

  lemma AllOpened(ports: set<Port>, final: Listeners, added: seq<Listener>)
    requires Opened(map[], ports, final, added)
    ensures final.Keys == ports && forall x :: x in final.Values ==> x in added
  {
  }

  /** A reload takes what it retires out of the map, and adds nothing but what it opened. */
  lemma DiffLeaves(before: Listeners, ports: set<Port>, final: Listeners, added: seq<Listener>, retired: seq<Listener>)
    requires Diff(before, ports, final, added, retired) && Injective(before)
    requires forall x :: x in added ==> x !in before.Values
    ensures forall x :: x in retired ==> x in before.Values && x !in final.Values
    ensures forall x :: x in final.Values ==> x in before.Values || x in added
  {
    forall x | x in retired ensures x in before.Values && x !in final.Values {
      var p :| p in before && p !in ports && before[p] == x;
      forall q | q in final ensures final[q] != x {
        if q in before {
          assert final[q] == before[q];
        }
      }
    }
  }

  lemma DistinctConcat(a: seq<Listener>, b: seq<Listener>)
    requires Distinct(a) && Distinct(b) && forall x :: x in b ==> x !in a
    ensures Distinct(a + b)
  {
    forall i, j | 0 <= i < j < |a + b| ensures (a + b)[i] != (a + b)[j] {
      if i < |a| <= j {
        assert (a + b)[j] == b[j - |a|] && (a + b)[i] in a;
      }
    }
  }

  /** No port is configured for both protocols; port 0 stands for any free port. */
  ghost predicate PortsApart(spec: Spec) {
    forall s, t :: s in spec.sites && t in spec.sites && s.http && t.https && s.httpPort == t.httpsPort ==>
      s.httpPort == 0
  }

  lemma AcceptablePorts(rules: Rules, spec: Spec)
    requires Acceptable(rules, spec)
    ensures PortsApart(spec)
  {
    forall s, t | s in spec.sites && t in spec.sites && s.http && t.https && s.httpPort == t.httpsPort
      ensures s.httpPort == 0
    {
      assert s.httpPort in HttpPorts(spec) && t.httpsPort in HttpsPorts(spec);
    }
  }

  lemma ServedApart(spec: Spec, http: Listeners, tls: Listeners)
    requires PortsApart(spec) && http.Keys == HttpPorts(spec) && tls.Keys == HttpsPorts(spec)
    ensures forall p :: p in http && p in tls ==> p == 0
  {
    forall p | p in http && p in tls ensures p == 0 {
      assert p in HttpPorts(spec) && p in HttpsPorts(spec);
    }
  }

  class ServerCore {
    var http: Listeners
    var tls: Listeners
    var retiredHttp: seq<Listener>
    var retiredTls: seq<Listener>
    var published: Spec
    var started: bool
    var stopping: bool
    var nextListener: Listener
    /** The listeners that were started and not stopped, and the order in which listeners were told to retire. */
    ghost var running: set<Listener>
    ghost var retirements: seq<Listener>

    ghost predicate Valid()
      reads this
    {
      && Injective(http) && Injective(tls) && http.Values !! tls.Values
      && http.Values <= running && tls.Values <= running
      && (forall x :: x in running ==> x < nextListener)
      && Distinct(retirements)
      && (forall x :: x in retirements ==> x in running && x !in http.Values && x !in tls.Values)
      && (forall x :: x in retiredHttp + retiredTls ==> x in retirements)
      && (!started ==> http == map[] && tls == map[])
      && PortsApart(published) && (forall p :: p in http && p in tls ==> p == 0)
    }

    /** Every port that has no listener yet can be bound. */
    ghost predicate CanServe(spec: Spec, bindable: set<Port>)
      reads this
    {
      && (forall p :: p in HttpPorts(spec) && p !in http ==> p in bindable)
      && (forall p :: p in HttpsPorts(spec) && p !in tls ==> p in bindable)
    }

    /** When a reload can be prepared. */
    ghost predicate CanPrepare(rules: Rules, spec: Spec, bindable: set<Port>)
      reads this
    {
      Acceptable(rules, spec) && !stopping && (started ==> CanServe(spec, bindable))
    }

    constructor (initial: Spec)
      requires PortsApart(initial)
      ensures Valid() && published == initial && !started && !stopping
      ensures http == map[] && tls == map[] && running == {} && retirements == []
    {
      published, started, stopping, nextListener := initial, false, false, 0;
      http, tls, retiredHttp, retiredTls := map[], map[], [], [];
      running, retirements := {}, [];
    }

    /** Opens the listeners of the first configuration, once; a server that cannot do that is stopping. */
    method Start(bindable: set<Port>) returns (ok: bool)
      requires Valid()
      modifies this
      ensures Valid() && started && published == old(published)
      ensures ok <==> !old(started) && old(CanServe(published, bindable))
      ensures ok ==> http.Keys == HttpPorts(published) && tls.Keys == HttpsPorts(published) && stopping == old(stopping)
      ensures !ok ==> http == old(http) && tls == old(tls) && running == old(running)
      ensures !ok ==> stopping == (if old(started) then old(stopping) else true)
    {
      if started {
        return false;
      }
      started := true;
      var allHttp, addedHttp, allTls, addedTls;
      ok, allHttp, addedHttp, allTls, addedTls := OpenAll(published, bindable);
      if ok {
        AllOpened(HttpPorts(published), allHttp, addedHttp);
        AllOpened(HttpsPorts(published), allTls, addedTls);
        ServedApart(published, allHttp, allTls);
        assert forall x :: x in retirements ==> x !in allHttp.Values && x !in allTls.Values;
        http, tls := allHttp, allTls;
      } else {
        stopping := true;
      }
    }

    /** Opens a listener for every port that has none; `bindable` are the ports that can be bound. */
    method OpenListeners(current: Listeners, ports: set<Port>, bindable: set<Port>)
      returns (ok: bool, final: Listeners, added: seq<Listener>)
      requires Injective(current) && current.Values <= running
      requires forall x :: x in running ==> x < nextListener
      modifies this`nextListener, this`running
      ensures ok ==> Opened(current, ports, final, added) && Injective(final)
      ensures ok <==> forall p :: p in ports && p !in current ==> p in bindable
      ensures nextListener >= old(nextListener) && final.Values <= current.Values + Elements(added)
      ensures running == old(running) + Elements(added)
      ensures forall x :: x in added ==> old(nextListener) <= x < nextListener
    {
      final, added := current, [];
      assert forall p :: p in current ==> current[p] in current.Values;
      var todo := ports;
      while todo != {}
        invariant todo <= ports
        invariant OpenedSoFar(current, ports - todo, bindable, final, added, old(nextListener), nextListener)
        invariant running == old(running) + Elements(added)
        decreases todo
      {
        var port :| port in todo;
        assert ports - (todo - {port}) == ports - todo + {port};
        if port !in final {
          if port !in bindable {
            return false, final, added;
          }
          OpensNext(current, ports - todo, bindable, final, added, old(nextListener), nextListener, port);
          var listener := nextListener;
          nextListener := nextListener + 1;
          added := added + [listener];
          running := running + {listener};
          final := final[port := listener];
        } else {
          HasListener(current, ports - todo, bindable, final, added, old(nextListener), nextListener, port);
        }
        todo := todo - {port};
      }
      assert ports - todo == ports;
      ok := true;
    }

    /** Takes the listeners of the ports that are no longer served out of the map. */
    method SplitListeners(all: Listeners, ports: set<Port>) returns (kept: Listeners, retired: seq<Listener>)
      requires Injective(all)
      ensures Split(all, ports, kept, retired) && Injective(kept)
    {
      kept, retired := all, [];
      var todo := all.Keys;
      while todo != {}
        invariant todo <= kept.Keys <= all.Keys
        invariant forall p :: p in all && (p in todo || p in ports) ==> p in kept
        invariant forall p :: p in kept ==> kept[p] == all[p] && (p in todo || p in ports)
        invariant Distinct(retired)
        invariant forall p :: p in all && p !in kept ==> all[p] in retired
        invariant forall x :: x in retired ==> exists p :: p in all && p !in ports && p !in todo && all[p] == x
        decreases todo
      {
        var port :| port in todo;
        if port !in ports {
          assert all[port] !in retired;
          retired := retired + [all[port]];
          kept := kept - {port};
        }
        todo := todo - {port};
      }
      assert kept.Keys == all.Keys * ports;
    }

    /** What a prepared reload of this server promises. */
    ghost predicate Ready(p: Prepared)
      reads this
    {
      && p.started == started
      && PortsApart(p.next)
      && (started ==>
            && Diff(http, HttpPorts(p.next), p.http, p.addedHttp, p.retireHttp)
            && Diff(tls, HttpsPorts(p.next), p.tls, p.addedTls, p.retireTls)
            && Injective(p.http) && Injective(p.tls) && p.http.Values !! p.tls.Values
            && (forall x :: x in p.addedHttp + p.addedTls ==>
                  x in running && x !in http.Values && x !in tls.Values && x !in retirements))
      && (!started ==> p.addedHttp == p.addedTls == [])
    }

    /** Opens what the new configuration needs. Nothing that is in use changes, and a failure leaves nothing open. */
    method PrepareReload(rules: Rules, spec: Spec, bindable: set<Port>) returns (prepared: Option<Prepared>)
      requires Valid()
      modifies this`nextListener, this`running
      ensures Valid() && (prepared.Some? <==> CanPrepare(rules, spec, bindable))
      ensures prepared.None? ==> running == old(running)
      ensures prepared.Some? ==>
        var p := prepared.value;
        && p.next == spec && Ready(p)
        && running == old(running) + Elements(p.addedHttp) + Elements(p.addedTls)
        && (forall x :: x in p.addedHttp + p.addedTls ==> x !in old(running))
    {
      if !Acceptable(rules, spec) || stopping {
        return None;
      }
      AcceptablePorts(rules, spec);
      if !started {
        return Some(Prepared(spec, false, http, tls, [], [], [], []));
      }
      var ok, allHttp, addedHttp, allTls, addedTls := OpenAll(spec, bindable);
      if !ok {
        return None;
      }
      var finalHttp, retireHttp := SplitListeners(allHttp, HttpPorts(spec));
      var finalTls, retireTls := SplitListeners(allTls, HttpsPorts(spec));
      OpenThenSplit(http, HttpPorts(spec), allHttp, addedHttp, finalHttp, retireHttp);
      OpenThenSplit(tls, HttpsPorts(spec), allTls, addedTls, finalTls, retireTls);
      prepared := Some(Prepared(spec, true, finalHttp, finalTls, addedHttp, addedTls, retireHttp, retireTls));
    }

    method OpenAll(spec: Spec, bindable: set<Port>)
      returns (ok: bool, allHttp: Listeners, addedHttp: seq<Listener>, allTls: Listeners, addedTls: seq<Listener>)
      requires Valid()
      modifies this`nextListener, this`running
      ensures Valid() && nextListener >= old(nextListener) && (ok <==> CanServe(spec, bindable))
      ensures !ok ==> running == old(running)
      ensures ok ==>
        && Opened(http, HttpPorts(spec), allHttp, addedHttp) && Injective(allHttp)
        && Opened(tls, HttpsPorts(spec), allTls, addedTls) && Injective(allTls)
        && allHttp.Values !! allTls.Values
        && allHttp.Values <= running && allTls.Values <= running
        && running == old(running) + Elements(addedHttp) + Elements(addedTls)
        && (forall x :: x in addedHttp ==> x !in old(running)) && (forall x :: x in addedTls ==> x !in old(running))
    {
      ok, allHttp, addedHttp := OpenListeners(http, HttpPorts(spec), bindable);
      allTls, addedTls := map[], [];
      if !ok {
        StopListeners(addedHttp);
        return;
      }
      ok, allTls, addedTls := OpenListeners(tls, HttpsPorts(spec), bindable);
      if !ok {
        StopListeners(addedHttp + addedTls);
      }
    }

    method StopListeners(listeners: seq<Listener>)
      modifies this`running
      ensures running == old(running) - Elements(listeners)
    {
      var i := 0;
      while i < |listeners|
        invariant 0 <= i <= |listeners|
        invariant running == old(running) - Elements(listeners[..i])
      {
        assert Elements(listeners[..i + 1]) == Elements(listeners[..i]) + {listeners[i]};
        running := running - {listeners[i]};
        i := i + 1;
      }
      assert listeners[..i] == listeners;
    }

    /** A prepared reload that is not committed closes the listeners it opened. */
    method Drop(p: Prepared)
      requires Valid() && Ready(p)
      modifies this`running
      ensures Valid() && running == old(running) - Elements(p.addedHttp) - Elements(p.addedTls)
    {
      StopListeners(p.addedHttp);
      StopListeners(p.addedTls);
    }

    /** Swaps the maps, retires the listeners of removed ports, and publishes last. */
    method Commit(p: Prepared)
      requires Valid() && Ready(p)
      modifies this`http, this`tls, this`retiredHttp, this`retiredTls, this`published, this`retirements
      ensures Valid() && published == p.next
      ensures started ==>
        && Diff(old(http), HttpPorts(published), http, p.addedHttp, p.retireHttp)
        && Diff(old(tls), HttpsPorts(published), tls, p.addedTls, p.retireTls)
        && retirements == old(retirements) + p.retireHttp + p.retireTls
        && retiredHttp == old(retiredHttp) + p.retireHttp && retiredTls == old(retiredTls) + p.retireTls
      ensures !started ==>
        http == old(http) && tls == old(tls) && retirements == old(retirements)
        && retiredHttp == old(retiredHttp) && retiredTls == old(retiredTls)
    {
      if p.started {
        RetiredOnce(p);
        ServedApart(p.next, p.http, p.tls);
        http, tls := p.http, p.tls;
        retiredHttp, retiredTls := retiredHttp + p.retireHttp, retiredTls + p.retireTls;
        retirements := retirements + p.retireHttp + p.retireTls;
      }
      published := p.next;
    }

    /** What a commit retires is told so for the first time, and serves no port afterwards. */
    lemma RetiredOnce(p: Prepared)
      requires Valid() && Ready(p) && started
      ensures Distinct(retirements + p.retireHttp + p.retireTls)
      ensures forall x :: x in retirements + p.retireHttp + p.retireTls ==>
        x in running && x !in p.http.Values && x !in p.tls.Values
      ensures p.http.Values <= running && p.tls.Values <= running
    {
      DiffLeaves(http, HttpPorts(p.next), p.http, p.addedHttp, p.retireHttp);
      DiffLeaves(tls, HttpsPorts(p.next), p.tls, p.addedTls, p.retireTls);
      DistinctConcat(retirements, p.retireHttp);
      DistinctConcat(retirements + p.retireHttp, p.retireTls);
    }

    /** A retired listener whose last connection closed is forgotten. */
    method ForgetRetired(listener: Listener)
      requires Valid()
      modifies this`retiredHttp, this`retiredTls
      ensures Valid() && listener !in retiredHttp && listener !in retiredTls
      ensures forall x :: x != listener ==>
        (x in retiredHttp <==> x in old(retiredHttp)) && (x in retiredTls <==> x in old(retiredTls))
    {
      retiredHttp := EraseIf(retiredHttp, listener);
      retiredTls := EraseIf(retiredTls, listener);
    }
  }

  function EraseIf(s: seq<Listener>, x: Listener): (r: seq<Listener>)
    ensures forall y :: y in r <==> y in s && y != x
  {
    if s == [] then [] else if s[0] == x then EraseIf(s[1..], x) else [s[0]] + EraseIf(s[1..], x)
  }
}
