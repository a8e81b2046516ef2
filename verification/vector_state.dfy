/** The mutable fact store with its protocol and port indexes: class VectorState of blackline/vector/state.py. */
module VectorStore {
  import opened Results
  import opened Text
  import opened CltIR
  import opened VectorMemory
  import Ordering

  /** The services of a memory in endpoint order. */
  ghost predicate SortedServices(m: Memory, s: seq<ServiceFact>) {
    && (forall a, b :: 0 <= a < b < |s| ==> Before(s[a].Identity(), s[b].Identity()))
    && (forall x :: x in s <==> x.Identity() in m.services && m.services[x.Identity()] == x)
  }

  /** The plain linear scan that the indexes replace. */
  function Scan(all: seq<ServiceFact>, c: Condition): seq<ServiceFact> {
    Ordering.Filter(s => Fits(c, s), all)
  }

  /** An index lists, under each value of a field, exactly the endpoints whose service has that value. */
  ghost predicate IndexOk<K(!new)>(index: map<K, set<Endpoint>>, services: map<Endpoint, ServiceFact>, field: ServiceFact -> K) {
    && (forall k, e :: k in index && e in index[k] ==> e in services && field(services[e]) == k)
    && (forall e :: e in services ==> field(services[e]) in index && e in index[field(services[e])])
  }

  function Protocol(s: ServiceFact): string { s.protocol }
  function Port(s: ServiceFact): nat { s.port }

  function Discarded<K(!new)>(index: map<K, set<Endpoint>>, k: K, e: Endpoint): map<K, set<Endpoint>> {
    if k in index then index[k := index[k] - {e}] else index
  }

  function Added<K(!new)>(index: map<K, set<Endpoint>>, k: K, e: Endpoint): map<K, set<Endpoint>> {
    index[k := (if k in index then index[k] else {}) + {e}]
  }

  /** Moving an endpoint from its old entry to its new one keeps an index in agreement with the services. */
  lemma Reindexed<K(!new)>(index: map<K, set<Endpoint>>, services: map<Endpoint, ServiceFact>, field: ServiceFact -> K,
                           e: Endpoint, s: ServiceFact)
    requires IndexOk(index, services, field)
    ensures var cleared := if e in services then Discarded(index, field(services[e]), e) else index;
            IndexOk(Added(cleared, field(s), e), services[e := s], field)
  {
  }

  class VectorState {
    var revision: nat
    var services: map<Endpoint, ServiceFact>
    var facts: map<FactKey, FactEntry>
    var byProtocol: map<string, set<Endpoint>>
    var byPort: map<nat, set<Endpoint>>
    var observations: map<string, Observation>

    function View(): Memory
      reads this
    {
      Memory(services, facts)
    }

    /** Both indexes agree with the services. */
    ghost predicate Valid()
      reads this
    {
      WellKeyed(View()) && Sane(View()) && IndexOk(byProtocol, services, Protocol) && IndexOk(byPort, services, Port)
    }

    constructor ()
      ensures Valid() && View() == Memory(map[], map[]) && revision == 0
    {
      revision, services, facts := 0, map[], map[];
      byProtocol, byPort, observations := map[], map[], map[];
    }

    /**
     * Apply observations one by one. An unreadable one raises: what stood before it is applied, the revision is not
     * bumped and no delta is returned.
     */
    method Ingest(os: seq<Observation>) returns (r: Result<Delta, nat>)
      requires Valid()
      modifies this
      ensures Valid()
      ensures r.Ok? <==> AllReadable(os)
      ensures r.Ok? ==>
                var p := AbsorbAll(old(View()), os, |os|);
                && View() == p.memory && r.value.services == p.services && r.value.facts == p.facts
                && r.value.revision == revision
                && revision == old(revision) + (if p.services != [] || p.facts != [] then 1 else 0)
                && |r.value.observationIds| == |os|
                && forall k :: 0 <= k < |os| ==> r.value.observationIds[k] == os[k].identifier
      ensures r.Err? ==>
                && r.error < |os| && !Readable(os[r.error]) && AllReadable(os[..r.error])
                && View() == AbsorbAll(old(View()), os[..r.error], r.error).memory
                && revision == old(revision)
      ensures forall i :: i in old(observations) ==> i in observations
      ensures r.Ok? ==> forall k :: 0 <= k < |os| ==> os[k].identifier in observations
    {
      var changedServices: seq<ServiceFact>, changedFacts: seq<Condition>, ids: seq<string> := [], [], [];
      hide AbsorbService, AbsorbFact, IndexOk, WellKeyed, Sane, ReadService, ReadFact;
      for n := 0 to |os|
        invariant Valid() && revision == old(revision)
        invariant AllReadable(os[..n])
        invariant Progress(View(), changedServices, changedFacts) == AbsorbAll(old(View()), os[..n], n)
        invariant |ids| == n && forall k :: 0 <= k < n ==> ids[k] == os[k].identifier && ids[k] in observations
        invariant forall i :: i in old(observations) ==> i in observations
      {
        var o := os[n];
        OneMore(old(View()), os, n);
        ghost var before := Progress(View(), changedServices, changedFacts);
        observations := observations[o.identifier := o];
        ids := ids + [o.identifier];
        if o.kind == "service" {
          var changed := IngestService(o, before);
          if changed.Err? { return Err(n); }
          if changed.value.Some? { changedServices := changedServices + [changed.value.value]; }
        } else {
          var changed := IngestFact(o, before);
          if changed.Err? { return Err(n); }
          if changed.value.Some? { changedFacts := changedFacts + [changed.value.value]; }
        }
      }
      assert os[..|os|] == os;
      if changedServices != [] || changedFacts != [] { revision := revision + 1; }
      r := Ok(Delta(revision, changedServices, changedFacts, ids));
    }

    method IngestService(o: Observation, ghost p: Progress) returns (r: Result<Option<ServiceFact>, ()>)
      requires Valid() && p.memory == View() && o.kind == "service"
      modifies this`services, this`byProtocol, this`byPort
      ensures Valid() && (r.Err? <==> !Readable(o)) && (r.Err? ==> View() == old(View()))
      ensures r.Ok? ==> Absorb(p, o) == Progress(View(), p.services + if r.value.Some? then [r.value.value] else [], p.facts)
    {
      hide Readable, Absorb, ReadService, Updated, IndexOk, WellKeyed, Sane;
      ServiceStep(p, o);
      var reading := ReadService(o.data);
      if reading.None? { return Err(()); }
      var e := Endpoint(reading.value.host, reading.value.port, reading.value.transport);
      var existing := Lookup(services, e);
      var service := Updated(existing, o, reading.value);
      AbsorbRemembers(p, o);
      AbsorbKeepsSane(p, o);
      if existing == Some(service) { return Ok(None); }
      Reindexed(byProtocol, services, Protocol, e, service);
      Reindexed(byPort, services, Port, e, service);
      if existing.Some? {
        byProtocol := Discarded(byProtocol, existing.value.protocol, e);
        byPort := Discarded(byPort, existing.value.port, e);
      }
      services := services[e := service];
      byProtocol := Added(byProtocol, service.protocol, e);
      byPort := Added(byPort, service.port, e);
      r := Ok(Some(service));
    }

    method IngestFact(o: Observation, ghost p: Progress) returns (r: Result<Option<Condition>, ()>)
      requires Valid() && p.memory == View() && o.kind != "service"
      modifies this`facts
      ensures Valid() && (r.Err? <==> !Readable(o)) && (r.Err? ==> View() == old(View()))
      ensures r.Ok? ==> Absorb(p, o) == Progress(View(), p.services, p.facts + if r.value.Some? then [r.value.value] else [])
    {
      hide Readable, Absorb, ReadFact, UpdatedFact, IndexOk, WellKeyed, Sane;
      FactStep(p, o);
      var condition := ReadFact(o.data);
      if condition.None? { return Err(()); }
      var c := condition.value;
      var existing := Lookup(facts, FactKey(c.entity, c.value));
      var entry := UpdatedFact(existing, o, c.state);
      AbsorbRemembers(p, o);
      AbsorbKeepsSane(p, o);
      if existing == Some(entry) { return Ok(None); }
      facts := facts[FactKey(c.entity, c.value) := entry];
      r := Ok(Some(c));
    }

    /** The services of some endpoints, in endpoint order. */
    method Sorted(identities: set<Endpoint>) returns (r: seq<ServiceFact>)
      requires Valid() && forall e :: e in identities ==> e in services
      ensures Ascending(r) && forall s :: s in r <==> s.Identity() in identities && services[s.Identity()] == s
    {
      EndpointOrder();
      var order := Ordering.SortSet(Before, identities);
      r := [];
      for k := 0 to |order|
        invariant |r| == k && forall j :: 0 <= j < k ==> order[j] in services && r[j] == services[order[j]]
      {
        assert order[k] in identities;
        r := r + [services[order[k]]];
      }
      hide Ordering.Order, IndexOk;
      forall s ensures s in r <==> s.Identity() in identities && services[s.Identity()] == s {
        if s.Identity() in identities && services[s.Identity()] == s {
          var j :| 0 <= j < |order| && order[j] == s.Identity();
          assert r[j] == s;
        }
      }
    }

    method AllServices() returns (r: seq<ServiceFact>)
      requires Valid()
      ensures SortedServices(View(), r)
    {
      r := Sorted(services.Keys);
    }

    /** The index lookup gives what a linear scan of all services in endpoint order would give. */
    method Matches(c: Condition) returns (r: seq<ServiceFact>)
      requires Valid()
      ensures forall all :: SortedServices(View(), all) ==> r == Scan(all, c)
      ensures forall s :: s in r <==> s.Identity() in services && services[s.Identity()] == s && Fits(c, s)
      ensures Ascending(r)
    {
      var candidates := [];
      if c.entity == "service" {
        var key := Lower(c.value);
        candidates := Sorted(if key in byProtocol then byProtocol[key] else {});
      } else if c.entity == "port" && IsDigits(c.value) {
        var key := Number(c.value);
        candidates := Sorted(if key in byPort then byPort[key] else {});
      }
      r := Ordering.Filter((s: ServiceFact) => s.state == c.state, candidates);
      FilterAscending((s: ServiceFact) => s.state == c.state, candidates);
      hide Sane;
      forall s ensures s in r <==> s.Identity() in services && services[s.Identity()] == s && Fits(c, s) {
      }
      forall all | SortedServices(View(), all) ensures r == Scan(all, c) {
        ScanIsCanonical(View(), all, c, r);
      }
    }

    method HoldsNow(c: Condition) returns (b: bool)
      requires Valid()
      ensures b == Holds(View(), c)
    {
      if OnServices(c) {
        var s := Matches(c);
        b := s != [];
        assert b ==> s[0] in s;
      } else {
        var entry := Lookup(facts, FactKey(c.entity, c.value));
        b := entry.Some? && entry.value.state == c.state;
      }
    }
  }

  predicate Ascending(s: seq<ServiceFact>) {
    forall a, b :: 0 <= a < b < |s| ==> Before(s[a].Identity(), s[b].Identity())
  }

  lemma {:induction false} FilterAscending(keep: ServiceFact -> bool, s: seq<ServiceFact>)
    requires Ascending(s)
    ensures Ascending(Ordering.Filter(keep, s))
  {
    if s != [] {
      var rest, kept := s[1..], Ordering.Filter(keep, s[1..]);
      FilterAscending(keep, rest);
      forall k | 0 <= k < |kept| ensures Before(s[0].Identity(), kept[k].Identity()) {
        assert kept[k] in rest;
        var j :| 0 <= j < |rest| && rest[j] == kept[k];
        assert s[j + 1] == kept[k];
      }
    }
  }

  /** Services in endpoint order are determined by which they are. */
  lemma {:induction false} AscendingIsCanonical(a: seq<ServiceFact>, b: seq<ServiceFact>)
    requires Ascending(a) && Ascending(b) && forall s :: s in a <==> s in b
    ensures a == b
  {
    assert a != [] ==> a[0] in b;
    assert b != [] ==> b[0] in a;
    if a != [] && b != [] {
      EndpointOrder();
      Ordering.Tri(Before, a[0].Identity(), b[0].Identity());
      hide Ordering.Order, Before;
      assert a[0] == b[0];
      assert a == [a[0]] + a[1..] && b == [b[0]] + b[1..];
      forall s ensures s in a[1..] <==> s in b[1..] {
        EndpointOrder();
        Ordering.Tri(Before, s.Identity(), s.Identity());
        assert s in a <==> s == a[0] || s in a[1..];
        assert s in b <==> s == b[0] || s in b[1..];
      }
      AscendingIsCanonical(a[1..], b[1..]);
    }
  }

  lemma ScanIsCanonical(m: Memory, all: seq<ServiceFact>, c: Condition, r: seq<ServiceFact>)
    requires SortedServices(m, all) && Ascending(r)
    requires forall s :: s in r <==> s.Identity() in m.services && m.services[s.Identity()] == s && Fits(c, s)
    ensures r == Scan(all, c)
  {
    FilterAscending(s => Fits(c, s), all);
    AscendingIsCanonical(r, Scan(all, c));
  }

  /** What one service observation does, spelled out. */
  lemma ServiceStep(p: Progress, o: Observation)
    requires o.kind == "service"
    ensures Readable(o) <==> ReadService(o.data).Some?
    ensures Readable(o) ==>
              var r := ReadService(o.data).value;
              var e := Endpoint(r.host, r.port, r.transport);
              var service := Updated(Lookup(p.memory.services, e), o, r);
              && service.Identity() == e && service.protocol == r.protocol && service.port == r.port
              && Absorb(p, o) == if Lookup(p.memory.services, e) == Some(service) then p
                                 else Progress(p.memory.(services := p.memory.services[e := service]), p.services + [service], p.facts)
  {
    hide ReadService;
  }

  /** What one fact observation does, spelled out. */
  lemma FactStep(p: Progress, o: Observation)
    requires o.kind != "service"
    ensures Readable(o) <==> ReadFact(o.data).Some?
    ensures Readable(o) ==>
              var c := ReadFact(o.data).value;
              var key := FactKey(c.entity, c.value);
              var entry := UpdatedFact(Lookup(p.memory.facts, key), o, c.state);
              Absorb(p, o) == if Lookup(p.memory.facts, key) == Some(entry) then p
                              else Progress(p.memory.(facts := p.memory.facts[key := entry]), p.services, p.facts + [c])
  {
    hide ReadFact, UpdatedFact;
  }

  lemma OneMore(m: Memory, os: seq<Observation>, n: nat)
    requires n < |os| && AllReadable(os[..n])
    ensures Readable(os[n]) ==> AllReadable(os[..n + 1]) && AbsorbAll(m, os[..n + 1], n + 1) == Absorb(AbsorbAll(m, os[..n], n), os[n])
    ensures AllReadable(os) ==> Readable(os[n])
  {
    hide Readable, Absorb;
    if Readable(os[n]) { SamePrefix(m, os[..n], os[..n + 1], n); }
  }

  lemma {:induction false} SamePrefix(m: Memory, a: seq<Observation>, b: seq<Observation>, n: nat)
    requires n <= |a| && n <= |b| && a[..n] == b[..n] && forall k :: 0 <= k < n ==> Readable(a[k]) && Readable(b[k])
    ensures AbsorbAll(m, a, n) == AbsorbAll(m, b, n)
  {
    if n > 0 {
      assert a[..n - 1] == a[..n][..n - 1] && b[..n - 1] == b[..n][..n - 1];
      assert a[n - 1] == a[..n][n - 1] && b[n - 1] == b[..n][n - 1];
      SamePrefix(m, a, b, n - 1);
    }
  }
}
