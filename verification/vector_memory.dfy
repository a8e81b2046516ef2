/** What Vector knows, as a value, and how one observation changes it: blackline/vector/state.py. */
module VectorMemory {
  import opened Results
  import opened Text
  import opened CltIR
  import Ordering

  // ---------------------------------------------------------------- data

  datatype Value = Words(s: string) | Whole(n: int)

  function Str(v: Value): string {
    match v
    case Words(s) => s
    case Whole(n) => if n >= 0 then Decimal(n) else "-" + Decimal(-n)
  }

  function Int(v: Value): Option<int> {
    match v
    case Words(s) => ParseInt(s)
    case Whole(n) => Some(n)
  }

  /** An observation with normalised keys, as its constructor leaves it. */
  datatype Observation = Observation(kind: string, data: map<string, Value>, source: string, confidence: real,
                                     identifier: string)

  datatype Endpoint = Endpoint(host: string, port: nat, transport: string)

  datatype ServiceFact = ServiceFact(host: string, port: nat, transport: string, protocol: string, state: string,
                                     details: map<string, Value>, sources: seq<string>, observationIds: seq<string>,
                                     confidence: real)
  {
    function Identity(): Endpoint {
      Endpoint(host, port, transport)
    }
  }

  datatype FactKey = FactKey(entity: string, value: string)

  datatype FactEntry = FactEntry(state: string, sources: seq<string>, observationIds: seq<string>, confidence: real)

  datatype Delta = Delta(revision: nat, services: seq<ServiceFact>, facts: seq<Condition>, observationIds: seq<string>)

  datatype Memory = Memory(services: map<Endpoint, ServiceFact>, facts: map<FactKey, FactEntry>)

  // ---------------------------------------------------------------- the order of endpoints

  predicate Before(a: Endpoint, b: Endpoint) {
    Ordering.Less(a.host, b.host) ||
    (a.host == b.host && (a.port < b.port || (a.port == b.port && Ordering.Less(a.transport, b.transport))))
  }

  /** Hosts come first, then port numbers, then transports. */
  lemma BeforeMeans(a: Endpoint, b: Endpoint)
    ensures a.host != b.host ==> (Before(a, b) <==> Ordering.Less(a.host, b.host))
    ensures a.host == b.host && a.port != b.port ==> (Before(a, b) <==> a.port < b.port)
    ensures a.host == b.host && a.port == b.port ==> (Before(a, b) <==> Ordering.Less(a.transport, b.transport))
  {
    Ordering.StringOrder();
  }

  lemma EndpointOrder()
    ensures Ordering.Order(Before)
  {
    Ordering.StringOrder();
    hide Ordering.Less;
    assert Ordering.Total(Before) && Ordering.Strict(Before);
    forall x, y, z | Before(x, y) && Before(y, z) ensures Before(x, z) {
      BeforeIsTransitive(x, y, z);
    }
  }

  lemma BeforeIsTransitive(x: Endpoint, y: Endpoint, z: Endpoint)
    requires Before(x, y) && Before(y, z)
    ensures Before(x, z)
  {
    if Ordering.Less(x.host, y.host) && Ordering.Less(y.host, z.host) {
      Ordering.LessIsTransitive(x.host, y.host, z.host);
    }
    if Ordering.Less(x.transport, y.transport) && Ordering.Less(y.transport, z.transport) {
      Ordering.LessIsTransitive(x.transport, y.transport, z.transport);
    }
  }

  // ---------------------------------------------------------------- one observation

  datatype Reading = Reading(host: string, port: nat, transport: string, protocol: string, state: string)

  /** The endpoint an observation reports, unless a field is missing or invalid. */
  function ReadService(data: map<string, Value>): Option<Reading> {
    if "host" !in data || "port" !in data || "protocol" !in data || "state" !in data || Int(data["port"]).None? then None
    else
      var host, port := Strip(Str(data["host"])), Int(data["port"]).value;
      var transport := Lower(if "transport" in data then Str(data["transport"]) else "tcp");
      var protocol, state := Lower(Str(data["protocol"])), Lower(Str(data["state"]));
      if host == "" || protocol == "" || state == "" || port < 1 || port > 65535 then None
      else Some(Reading(host, port, transport, protocol, state))
  }

  /** The transport an observation names, or else tcp. */
  predicate NamesTransport(data: map<string, Value>, transport: string) {
    if "transport" in data then Str(data["transport"]) == transport else transport == "tcp"
  }

  /** Any amount of space around the host is taken off, and protocol, state and transport are put in lower case. */
  lemma ServiceIsRead(data: map<string, Value>, before: string, host: string, after: string, transport: string)
    requires "host" in data && "port" in data && "protocol" in data && "state" in data
    requires AllSpace(before) && AllSpace(after) && Str(data["host"]) == before + host + after
    requires host != "" && !IsSpace(host[0]) && !IsSpace(host[|host| - 1])
    requires Int(data["port"]).Some? && 1 <= Int(data["port"]).value <= 65535
    requires Str(data["protocol"]) != "" && Str(data["state"]) != "" && NamesTransport(data, transport)
    ensures ReadService(data) == Some(Reading(host, Int(data["port"]).value, Lower(transport), Lower(Str(data["protocol"])),
                                              Lower(Str(data["state"]))))
  {
    StripPadded(before, host, after);
    hide Strip;
  }

  /** A report is refused exactly when a field is missing or empty, the host is nothing but space, or the port is no port. */
  lemma ServiceIsRefused(data: map<string, Value>)
    ensures ReadService(data).None? <==>
              || "host" !in data || "port" !in data || "protocol" !in data || "state" !in data
              || AllSpace(Str(data["host"])) || Str(data["protocol"]) == "" || Str(data["state"]) == ""
              || Int(data["port"]).None? || !(1 <= Int(data["port"]).value <= 65535)
  {
    if "host" in data { StripIsEmpty(Str(data["host"])); }
    hide Strip;
  }

  lemma {:induction false} StripIsEmpty(s: string)
    ensures Strip(s) == "" <==> AllSpace(s)
    decreases |s|
  {
    if s != "" {
      if IsSpace(s[0]) {
        StripIsEmpty(s[1..]);
        assert AllSpace(s[1..]) ==> forall i :: 1 <= i < |s| ==> s[i] == s[1..][i - 1];
      } else if IsSpace(s[|s| - 1]) {
        StripIsEmpty(s[..|s| - 1]);
        assert !IsSpace(s[..|s| - 1][0]);
      }
    }
  }

  function Max(a: real, b: real): real {
    if a >= b then a else b
  }

  /** The new view of a service: what the observation says, with the provenance of both. */
  function Updated(existing: Option<ServiceFact>, o: Observation, r: Reading): (s: ServiceFact)
    ensures s.Identity() == Endpoint(r.host, r.port, r.transport) && s.protocol == r.protocol && s.state == r.state
    ensures forall x :: x in s.sources <==> x == o.source || (existing.Some? && x in existing.value.sources)
    ensures forall x :: x in s.observationIds <==> x == o.identifier || (existing.Some? && x in existing.value.observationIds)
    ensures forall k :: k in s.details <==> k in o.data || (existing.Some? && k in existing.value.details)
    ensures forall k :: k in o.data ==> s.details[k] == o.data[k]
    ensures forall k :: existing.Some? && k in existing.value.details && k !in o.data ==> s.details[k] == existing.value.details[k]
    ensures Ordering.Increasing(Ordering.Less, s.sources) && Ordering.Increasing(Ordering.Less, s.observationIds)
    ensures s.confidence >= o.confidence && s.confidence >= (if existing.Some? then existing.value.confidence else 0.0)
    ensures s.confidence == o.confidence || s.confidence == if existing.Some? then existing.value.confidence else 0.0
  {
    var known := existing.Some?;
    ServiceFact(r.host, r.port, r.transport, r.protocol, r.state,
                (if known then existing.value.details else map[]) + o.data,
                Ordering.SortedStrings((if known then existing.value.sources else []) + [o.source]),
                Ordering.SortedStrings((if known then existing.value.observationIds else []) + [o.identifier]),
                Max(if known then existing.value.confidence else 0.0, o.confidence))
  }

  function Lookup<K(!new), V(!new)>(m: map<K, V>, k: K): (r: Option<V>)
    ensures r.Some? <==> k in m
    ensures k in m ==> r == Some(m[k])
  {
    if k in m then Some(m[k]) else None
  }

  function ReadFact(data: map<string, Value>): Option<Condition> {
    if "entity" !in data || "value" !in data || "state" !in data then None
    else Some(Condition(Lower(Str(data["entity"])), Lower(Str(data["value"])), Lower(Str(data["state"]))))
  }

  function UpdatedFact(existing: Option<FactEntry>, o: Observation, state: string): (f: FactEntry)
    ensures f.state == state
    ensures forall x :: x in f.sources <==> x == o.source || (existing.Some? && x in existing.value.sources)
    ensures forall x :: x in f.observationIds <==> x == o.identifier || (existing.Some? && x in existing.value.observationIds)
    ensures Ordering.Increasing(Ordering.Less, f.sources) && Ordering.Increasing(Ordering.Less, f.observationIds)
    ensures f.confidence >= o.confidence && f.confidence >= (if existing.Some? then existing.value.confidence else 0.0)
    ensures f.confidence == o.confidence || f.confidence == if existing.Some? then existing.value.confidence else 0.0
  {
    var known := existing.Some?;
    FactEntry(state,
              Ordering.SortedStrings((if known then existing.value.sources else []) + [o.source]),
              Ordering.SortedStrings((if known then existing.value.observationIds else []) + [o.identifier]),
              Max(if known then existing.value.confidence else 0.0, o.confidence))
  }

  /** The memory after some observations and what changed on the way. */
  datatype Progress = Progress(memory: Memory, services: seq<ServiceFact>, facts: seq<Condition>)

  predicate Readable(o: Observation) {
    if o.kind == "service" then ReadService(o.data).Some? else ReadFact(o.data).Some?
  }

  function AbsorbService(p: Progress, o: Observation, r: Reading): Progress {
    var e := Endpoint(r.host, r.port, r.transport);
    var existing := Lookup(p.memory.services, e);
    var service := Updated(existing, o, r);
    if existing == Some(service) then p
    else Progress(p.memory.(services := p.memory.services[e := service]), p.services + [service], p.facts)
  }

  function AbsorbFact(p: Progress, o: Observation, c: Condition): Progress {
    var key := FactKey(c.entity, c.value);
    var existing := Lookup(p.memory.facts, key);
    var entry := UpdatedFact(existing, o, c.state);
    if existing == Some(entry) then p
    else Progress(p.memory.(facts := p.memory.facts[key := entry]), p.services, p.facts + [c])
  }

  function Absorb(p: Progress, o: Observation): Progress
    requires Readable(o)
  {
    if o.kind == "service" then AbsorbService(p, o, ReadService(o.data).value)
    else AbsorbFact(p, o, ReadFact(o.data).value)
  }

  predicate Reported(m: Memory, r: Reading) {
    var e := Endpoint(r.host, r.port, r.transport);
    e in m.services && m.services[e].Identity() == e && m.services[e].protocol == r.protocol && m.services[e].state == r.state
  }

  /** The last report wins and touches nothing else, and what changes is exactly what is noted as changed. */
  lemma ReportStands(p: Progress, o: Observation)
    requires Readable(o)
    ensures var p' := Absorb(p, o);
            if o.kind == "service" then
              var r := ReadService(o.data).value;
              && Reported(p'.memory, r)
              && p'.memory.facts == p.memory.facts && p'.facts == p.facts
              && (forall e :: e != Endpoint(r.host, r.port, r.transport) ==> Lookup(p'.memory.services, e) == Lookup(p.memory.services, e))
              && (p'.services == p.services <==> p'.memory.services == p.memory.services)
            else
              var c := ReadFact(o.data).value;
              && FactKey(c.entity, c.value) in p'.memory.facts && p'.memory.facts[FactKey(c.entity, c.value)].state == c.state
              && p'.memory.services == p.memory.services && p'.services == p.services
              && (forall k :: k != FactKey(c.entity, c.value) ==> Lookup(p'.memory.facts, k) == Lookup(p.memory.facts, k))
              && (p'.facts == p.facts <==> p'.memory.facts == p.memory.facts)
  {
    hide ReadService, ReadFact, Ordering.SortedStrings;
    var p' := Absorb(p, o);
    if o.kind == "service" {
      var r := ReadService(o.data).value;
      var e := Endpoint(r.host, r.port, r.transport);
      assert p' != p ==> Lookup(p'.memory.services, e) != Lookup(p.memory.services, e);
    } else {
      var c := ReadFact(o.data).value;
      var k := FactKey(c.entity, c.value);
      assert p' != p ==> Lookup(p'.memory.facts, k) != Lookup(p.memory.facts, k);
    }
  }

  /** The first n observations, as far as they are readable. */
  function AbsorbAll(m: Memory, observations: seq<Observation>, n: nat): Progress
    requires n <= |observations| && forall k :: 0 <= k < n ==> Readable(observations[k])
  {
    if n == 0 then Progress(m, [], []) else Absorb(AbsorbAll(m, observations, n - 1), observations[n - 1])
  }

  // ---------------------------------------------------------------- conditions

  /** A service on which a service or port condition holds. */
  predicate Fits(c: Condition, s: ServiceFact) {
    && s.state == c.state
    && ((c.entity == "service" && s.protocol == Lower(c.value)) ||
        (c.entity == "port" && IsDigits(c.value) && s.port == Number(c.value)))
  }

  predicate OnServices(c: Condition) {
    c.entity == "service" || c.entity == "port"
  }

  predicate Holds(m: Memory, c: Condition) {
    if OnServices(c) then exists e :: e in m.services && Fits(c, m.services[e])
    else FactKey(c.entity, c.value) in m.facts && m.facts[FactKey(c.entity, c.value)].state == c.state
  }

  /** The condition keys a delta touches. */
  function DeltaKeys(services: seq<ServiceFact>, facts: seq<Condition>): set<Condition> {
    (set c | c in facts) + (set s | s in services :: Condition("service", s.protocol, s.state))
                         + (set s | s in services :: Condition("port", Decimal(s.port), s.state))
  }

  /** A condition spelled the way the index spells it. */
  predicate Canonical(c: Condition) {
    && (c.entity == "service" ==> Lower(c.value) == c.value)
    && (c.entity == "port" && IsDigits(c.value) ==> Text.Canonical(c.value))
  }

  // ---------------------------------------------------------------- delta completeness

  lemma FitsIsKey(c: Condition, s: ServiceFact)
    requires Canonical(c) && Fits(c, s)
    ensures c == Condition("service", s.protocol, s.state) || c == Condition("port", Decimal(s.port), s.state)
  {
    if c.entity == "port" { CanonicalIff(c.value); }
  }

  lemma KeysGrow(services: seq<ServiceFact>, facts: seq<Condition>, s: ServiceFact, c: Condition)
    ensures DeltaKeys(services, facts) <= DeltaKeys(services + [s], facts)
    ensures DeltaKeys(services, facts) <= DeltaKeys(services, facts + [c]) && c in DeltaKeys(services, facts + [c])
    ensures Condition("service", s.protocol, s.state) in DeltaKeys(services + [s], facts)
    ensures Condition("port", Decimal(s.port), s.state) in DeltaKeys(services + [s], facts)
  {
    hide Decimal;
    assert s in services + [s] && c in facts + [c];
    assert forall x :: x in services ==> x in services + [s];
    assert forall x :: x in facts ==> x in facts + [c];
  }

  lemma AbsorbComplete(p: Progress, o: Observation, c: Condition)
    requires Readable(o) && Canonical(c)
    ensures var p' := Absorb(p, o);
            && DeltaKeys(p.services, p.facts) <= DeltaKeys(p'.services, p'.facts)
            && (Holds(p'.memory, c) && !Holds(p.memory, c) ==> c in DeltaKeys(p'.services, p'.facts))
  {
    hide DeltaKeys, Canonical, ReadService, ReadFact, Updated, Fits;
    if o.kind == "service" {
      var r := ReadService(o.data).value;
      var e := Endpoint(r.host, r.port, r.transport);
      var s := Updated(Lookup(p.memory.services, e), o, r);
      KeysGrow(p.services, p.facts, s, c);
      if Fits(c, s) { FitsIsKey(c, s); }
    } else {
      var f := ReadFact(o.data).value;
      KeysGrow(p.services, p.facts, ServiceFact("", 0, "", "", "", map[], [], [], 0.0), f);
    }
  }

  /** Nothing is lost: a canonical condition that holds after the observations and not before is touched by the delta. */
  lemma {:induction false} DeltaComplete(m: Memory, observations: seq<Observation>, n: nat, c: Condition)
    requires n <= |observations| && forall k :: 0 <= k < n ==> Readable(observations[k])
    requires Canonical(c) && !Holds(m, c)
    ensures var p := AbsorbAll(m, observations, n);
            Holds(p.memory, c) ==> c in DeltaKeys(p.services, p.facts)
  {
    hide Holds, DeltaKeys, Absorb, Canonical, Readable;
    if n > 0 {
      DeltaComplete(m, observations, n - 1, c);
      AbsorbComplete(AbsorbAll(m, observations, n - 1), observations[n - 1], c);
    }
  }

  predicate HeldAt(m: Memory, observations: seq<Observation>, k: nat, c: Condition)
    requires k <= |observations| && forall i :: 0 <= i < k ==> Readable(observations[i])
  {
    Holds(AbsorbAll(m, observations, k).memory, c)
  }

  /** The conditions that one observation adds to the delta hold after it, unless it is a fact about services or ports. */
  lemma AbsorbSound(p: Progress, o: Observation, c: Condition)
    requires Readable(o)
    ensures var p' := Absorb(p, o);
            c in DeltaKeys(p'.services, p'.facts) && c !in DeltaKeys(p.services, p.facts) ==>
              Holds(p'.memory, c) || (OnServices(c) && c in p'.facts)
  {
    hide ReadService, ReadFact, Decimal, Number, Lower, Updated, Fits, DeltaKeys, Ordering.SortedStrings;
    if o.kind == "service" {
      var r := ReadService(o.data).value;
      ReadingIsLower(o.data);
      NumberOfDecimal(r.port);
      var e, p' := Endpoint(r.host, r.port, r.transport), Absorb(p, o);
      var s := ReportedService(Lookup(p.memory.services, e), o, r);
      KeyFits(c, s);
      KeysOfOneMore(p.services, p.facts, s, c);
      assert p'.memory.services[e] == s;
    } else {
      KeysOfOneFact(p.services, p.facts, ReadFact(o.data).value, c);
    }
  }

  lemma ReportedService(existing: Option<ServiceFact>, o: Observation, r: Reading) returns (s: ServiceFact)
    ensures s == Updated(existing, o, r) && s.protocol == r.protocol && s.port == r.port
  {
    s := Updated(existing, o, r);
  }

  lemma ReadingIsLower(data: map<string, Value>)
    requires ReadService(data).Some?
    ensures Lower(ReadService(data).value.protocol) == ReadService(data).value.protocol
  {
    LowerTwice(Str(data["protocol"]));
  }

  lemma KeysOfOneFact(services: seq<ServiceFact>, facts: seq<Condition>, f: Condition, c: Condition)
    ensures c in DeltaKeys(services, facts + [f]) ==> c in DeltaKeys(services, facts) || c == f
  {
    hide Decimal;
  }

  lemma KeyFits(c: Condition, s: ServiceFact)
    requires Lower(s.protocol) == s.protocol && Number(Decimal(s.port)) == s.port
    ensures c == Condition("service", s.protocol, s.state) || c == Condition("port", Decimal(s.port), s.state) ==> Fits(c, s)
  {
  }

  lemma KeysOfOneMore(services: seq<ServiceFact>, facts: seq<Condition>, s: ServiceFact, c: Condition)
    ensures c in DeltaKeys(services + [s], facts) ==>
              || c in DeltaKeys(services, facts)
              || c == Condition("service", s.protocol, s.state) || c == Condition("port", Decimal(s.port), s.state)
  {
    hide Decimal;
  }

  /** The delta touches no condition in vain: each held after some of the observations, or was reported as a plain fact. */
  lemma {:induction false} DeltaSound(m: Memory, observations: seq<Observation>, n: nat, c: Condition) returns (k: nat)
    requires n <= |observations| && forall i :: 0 <= i < n ==> Readable(observations[i])
    requires var p := AbsorbAll(m, observations, n); c in DeltaKeys(p.services, p.facts)
    ensures k <= n && (HeldAt(m, observations, k, c) || (OnServices(c) && c in AbsorbAll(m, observations, n).facts))
  {
    hide Holds, DeltaKeys, Absorb, Readable;
    k := n;
    if n == 0 {
      NoKeys();
    } else {
      var before, o := AbsorbAll(m, observations, n - 1), observations[n - 1];
      if c in DeltaKeys(before.services, before.facts) {
        k := DeltaSound(m, observations, n - 1, c);
        FactsStay(before, o);
      } else {
        AbsorbSound(before, o, c);
      }
    }
  }

  lemma NoKeys()
    ensures DeltaKeys([], []) == {}
  {
  }

  lemma FactsStay(p: Progress, o: Observation)
    requires Readable(o)
    ensures p.facts <= Absorb(p, o).facts
  {
    hide Readable, ReadService, ReadFact;
  }

  /** Spelled so that some observation can make the condition hold: observations are stored in lower case. */
  predicate Satisfiable(c: Condition) {
    && Lower(c.state) == c.state
    && (OnServices(c) ==> c.value != "" && c.state != "")
    && (c.entity == "port" ==> IsDigits(c.value) && 1 <= Number(c.value) <= 65535)
    && (!OnServices(c) ==> Lower(c.entity) == c.entity && Lower(c.value) == c.value)
  }

  predicate AllReadable(observations: seq<Observation>) {
    forall k :: 0 <= k < |observations| ==> Readable(observations[k])
  }

  /** The delta of these observations misses a condition that became true. */
  predicate Misses(m: Memory, observations: seq<Observation>, c: Condition)
    requires AllReadable(observations)
  {
    var p := AbsorbAll(m, observations, |observations|);
    !Holds(m, c) && Holds(p.memory, c) && c !in DeltaKeys(p.services, p.facts)
  }

  /** A satisfiable condition that is not canonical is missed by the very first observation that makes it true. */
  lemma NonCanonicalIsMissed(c: Condition) returns (o: Observation)
    requires !Canonical(c) && Satisfiable(c)
    ensures AllReadable([o]) && Misses(Memory(map[], map[]), [o], c)
  {
    var protocol := if c.entity == "service" then c.value else "p";
    var r := Reading("h", if c.entity == "port" then Number(c.value) else 22, "tcp", Lower(protocol), c.state);
    hide *;
    o := TellsOf(r, protocol, c);
    OneIsMissed(c, o, r);
  }

  lemma TellsOf(r: Reading, protocol: string, c: Condition) returns (o: Observation)
    requires !Canonical(c) && Satisfiable(c)
    requires protocol == (if c.entity == "service" then c.value else "p")
    requires r == Reading("h", if c.entity == "port" && IsDigits(c.value) then Number(c.value) else 22, "tcp", Lower(protocol), c.state)
    ensures o.kind == "service" && ReadService(o.data) == Some(r)
    ensures c.entity == "service" ==> r.protocol == Lower(c.value) && c.value != Lower(c.value)
    ensures c.entity == "port" ==> IsDigits(c.value) && r.port == Number(c.value) && Decimal(r.port) != c.value
    ensures OnServices(c) && r.state == c.state
  {
    ReportReads(r, protocol);
    o := Report(r, protocol);
    hide ReadService, Report;
    if c.entity == "port" { CanonicalIff(c.value); }
  }

  lemma OneIsMissed(c: Condition, o: Observation, r: Reading)
    requires o.kind == "service" && ReadService(o.data) == Some(r) && OnServices(c) && r.state == c.state
    requires c.entity == "service" ==> r.protocol == Lower(c.value) && c.value != Lower(c.value)
    requires c.entity == "port" ==> IsDigits(c.value) && r.port == Number(c.value) && Decimal(r.port) != c.value
    ensures AllReadable([o]) && Misses(Memory(map[], map[]), [o], c)
  {
    hide Readable, Absorb, Updated, DeltaKeys, ReadService, Lower, Decimal, Number, IsDigits, AbsorbAll;
    var s := FirstReport(o, r);
    OneServiceKeys(s);
    var e := Endpoint(r.host, r.port, r.transport);
    assert Fits(c, AbsorbAll(Memory(map[], map[]), [o], 1).memory.services[e]);
  }

  function Report(r: Reading, protocol: string): Observation {
    Observation("service", map["host" := Words(r.host), "port" := Whole(r.port), "protocol" := Words(protocol), "state" := Words(r.state)],
                "s", 1.0, "i")
  }

  lemma ReportReads(r: Reading, protocol: string)
    requires r.host == "h" && r.transport == "tcp" && 1 <= r.port <= 65535
    requires protocol != "" && r.protocol == Lower(protocol) && r.state != "" && r.state == Lower(r.state)
    ensures ReadService(Report(r, protocol).data) == Some(r) && Report(r, protocol).kind == "service"
  {
    assert Strip("h") == "h" && Lower("tcp") == "tcp";
  }

  lemma OneServiceKeys(s: ServiceFact)
    ensures DeltaKeys([s], []) == {Condition("service", s.protocol, s.state), Condition("port", Decimal(s.port), s.state)}
  {
    hide Decimal;
    assert forall x :: x in [s] <==> x == s;
  }

  lemma FirstReport(o: Observation, r: Reading) returns (s: ServiceFact)
    requires o.kind == "service" && ReadService(o.data) == Some(r)
    ensures Readable(o) && s.protocol == r.protocol && s.port == r.port && s.state == r.state
    ensures AbsorbAll(Memory(map[], map[]), [o], 1)
         == Progress(Memory(map[Endpoint(r.host, r.port, r.transport) := s], map[]), [s], [])
  {
    s := Updated(None, o, r);
    assert s.protocol == r.protocol && s.port == r.port && s.state == r.state;
    hide ReadService, Updated;
    assert AbsorbAll(Memory(map[], map[]), [o], 0) == Progress(Memory(map[], map[]), [], []);
  }

  /** What every stored service satisfies: its fields passed validation and are spelled in lower case. */
  predicate SaneService(s: ServiceFact) {
    && s.protocol != "" && s.state != "" && Lower(s.state) == s.state && 1 <= s.port <= 65535
  }

  predicate SaneFact(k: FactKey, f: FactEntry) {
    Lower(k.entity) == k.entity && Lower(k.value) == k.value && Lower(f.state) == f.state
  }

  ghost predicate Sane(m: Memory) {
    && (forall e :: e in m.services ==> SaneService(m.services[e]))
    && (forall k :: k in m.facts ==> SaneFact(k, m.facts[k]))
  }

  lemma AbsorbKeepsSane(p: Progress, o: Observation)
    requires Readable(o) && Sane(p.memory)
    ensures Sane(Absorb(p, o).memory)
  {
    LowerTwice(Str(o.data["state"]));
    if o.kind != "service" {
      LowerTwice(Str(o.data["entity"]));
      LowerTwice(Str(o.data["value"]));
    }
    hide Str, Int, Strip, Lower;
  }

  /** Stored services stay valid, so a condition no observation can satisfy never holds. */
  lemma {:induction false} StaysSane(m: Memory, observations: seq<Observation>, n: nat)
    requires n <= |observations| && forall k :: 0 <= k < n ==> Readable(observations[k])
    requires Sane(m)
    ensures Sane(AbsorbAll(m, observations, n).memory)
  {
    hide Sane, Absorb, Readable;
    if n > 0 {
      StaysSane(m, observations, n - 1);
      AbsorbKeepsSane(AbsorbAll(m, observations, n - 1), observations[n - 1]);
    }
  }

  lemma UnsatisfiableNeverHolds(m: Memory, c: Condition)
    requires Sane(m) && !Satisfiable(c)
    ensures !Holds(m, c)
  {
    forall e | e in m.services && OnServices(c) ensures !Fits(c, m.services[e]) {
      assert SaneService(m.services[e]);
    }
    if FactKey(c.entity, c.value) in m.facts {
      assert SaneFact(FactKey(c.entity, c.value), m.facts[FactKey(c.entity, c.value)]);
    }
  }

  /** Some observations make the condition hold, starting from some memory that observations can leave. */
  ghost predicate CanHold(c: Condition) {
    exists m, observations :: Sane(m) && AllReadable(observations) && HoldsAfter(m, observations, c)
  }

  predicate HoldsAfter(m: Memory, observations: seq<Observation>, c: Condition)
    requires AllReadable(observations)
  {
    Holds(AbsorbAll(m, observations, |observations|).memory, c)
  }

  /** The spelling decides whether a condition can ever hold. */
  lemma SatisfiableIff(c: Condition)
    ensures CanHold(c) <==> Satisfiable(c)
  {
    hide Satisfiable, Holds, Sane, AbsorbAll;
    NothingIsSane();
    if Satisfiable(c) {
      var o := FirstProof(c);
      assert HoldsAfter(Memory(map[], map[]), [o], c);
    } else if m, observations :| Sane(m) && AllReadable(observations) && HoldsAfter(m, observations, c) {
      StaysSane(m, observations, |observations|);
      UnsatisfiableNeverHolds(AbsorbAll(m, observations, |observations|).memory, c);
    }
  }

  /** One observation is enough. */
  lemma FirstProof(c: Condition) returns (o: Observation)
    requires Satisfiable(c)
    ensures AllReadable([o]) && HoldsAfter(Memory(map[], map[]), [o], c)
  {
    if OnServices(c) {
      var protocol := if c.entity == "service" then c.value else "p";
      var r := Reading("h", if c.entity == "port" then Number(c.value) else 22, "tcp", Lower(protocol), c.state);
      ReportReads(r, protocol);
      o := Report(r, protocol);
      hide Readable, Absorb, Updated, ReadService, Lower, Number, IsDigits, AbsorbAll, Report;
      var s := FirstReport(o, r);
      var e := Endpoint(r.host, r.port, r.transport);
      assert Fits(c, AbsorbAll(Memory(map[], map[]), [o], 1).memory.services[e]);
    } else {
      o := Observation("tag", map["entity" := Words(c.entity), "value" := Words(c.value), "state" := Words(c.state)], "s", 1.0, "i");
      FirstFact(o, c);
    }
  }

  lemma FirstFact(o: Observation, c: Condition)
    requires o.kind != "service" && ReadFact(o.data) == Some(c) && !OnServices(c)
    ensures AllReadable([o]) && HoldsAfter(Memory(map[], map[]), [o], c)
  {
    hide ReadFact;
    assert AbsorbAll(Memory(map[], map[]), [o], 0) == Progress(Memory(map[], map[]), [], []);
  }

  ghost predicate NeverMissed(c: Condition) {
    forall m, observations :: Sane(m) && AllReadable(observations) ==> !Misses(m, observations, c)
  }

  /** Exactly the conditions spelled canonically, and those that can never hold, are safe with the delta. */
  lemma CompletenessIsExact(c: Condition)
    ensures NeverMissed(c) <==> Canonical(c) || !Satisfiable(c)
  {
    hide Canonical, Satisfiable, Holds, Sane, DeltaKeys, AbsorbAll;
    if Canonical(c) || !Satisfiable(c) {
      forall m, observations | Sane(m) && AllReadable(observations) ensures !Misses(m, observations, c) {
        var n := |observations|;
        if Canonical(c) && !Holds(m, c) { DeltaComplete(m, observations, n, c); }
        StaysSane(m, observations, n);
        if !Satisfiable(c) { UnsatisfiableNeverHolds(AbsorbAll(m, observations, n).memory, c); }
      }
    } else {
      var o := NonCanonicalIsMissed(c);
      NothingIsSane();
      assert !NeverMissed(c);
    }
  }

  lemma NothingIsSane()
    ensures Sane(Memory(map[], map[]))
  {
  }

  // ---------------------------------------------------------------- provenance only grows

  predicate Grown(old_sources: seq<string>, sources: seq<string>, old_ids: seq<string>, ids: seq<string>,
                  old_confidence: real, confidence: real)
  {
    (forall x :: x in old_sources ==> x in sources) && (forall x :: x in old_ids ==> x in ids) && old_confidence <= confidence
  }

  predicate ServiceGrown(s: ServiceFact, s': ServiceFact) {
    && s'.Identity() == s.Identity()
    && Grown(s.sources, s'.sources, s.observationIds, s'.observationIds, s.confidence, s'.confidence)
    && forall k :: k in s.details ==> k in s'.details
  }

  predicate FactGrown(f: FactEntry, f': FactEntry) {
    Grown(f.sources, f'.sources, f.observationIds, f'.observationIds, f.confidence, f'.confidence)
  }

  ghost predicate Remembers(m: Memory, m': Memory) {
    && (forall e :: e in m.services ==> e in m'.services && ServiceGrown(m.services[e], m'.services[e]))
    && (forall k :: k in m.facts ==> k in m'.facts && FactGrown(m.facts[k], m'.facts[k]))
  }

  ghost predicate WellKeyed(m: Memory) {
    forall e :: e in m.services ==> m.services[e].Identity() == e
  }

  lemma AbsorbRemembers(p: Progress, o: Observation)
    requires Readable(o) && WellKeyed(p.memory)
    ensures WellKeyed(Absorb(p, o).memory) && Remembers(p.memory, Absorb(p, o).memory)
  {
    hide ReadService, ReadFact, WellKeyed, Remembers;
    if o.kind == "service" {
      ServiceRemembers(p, o, ReadService(o.data).value);
    } else {
      FactRemembers(p, o, ReadFact(o.data).value);
    }
  }

  lemma ServiceRemembers(p: Progress, o: Observation, r: Reading)
    requires WellKeyed(p.memory)
    ensures WellKeyed(AbsorbService(p, o, r).memory) && Remembers(p.memory, AbsorbService(p, o, r).memory)
  {
  }

  lemma FactRemembers(p: Progress, o: Observation, c: Condition)
    requires WellKeyed(p.memory)
    ensures WellKeyed(AbsorbFact(p, o, c).memory) && Remembers(p.memory, AbsorbFact(p, o, c).memory)
  {
  }

  lemma RemembersTransitive(m1: Memory, m2: Memory, m3: Memory)
    requires Remembers(m1, m2) && Remembers(m2, m3)
    ensures Remembers(m1, m3)
  {
    forall e | e in m1.services ensures e in m3.services && ServiceGrown(m1.services[e], m3.services[e]) {
      assert ServiceGrown(m1.services[e], m2.services[e]) && ServiceGrown(m2.services[e], m3.services[e]);
    }
    forall k | k in m1.facts ensures k in m3.facts && FactGrown(m1.facts[k], m3.facts[k]) {
      assert FactGrown(m1.facts[k], m2.facts[k]) && FactGrown(m2.facts[k], m3.facts[k]);
    }
  }

  lemma RemembersSelf(m: Memory)
    ensures Remembers(m, m)
  {
  }

  /** No observation ever removes a service, a fact, a source or an observation id, nor lowers a confidence. */
  lemma {:induction false} NothingForgotten(m: Memory, observations: seq<Observation>, n: nat)
    requires n <= |observations| && forall k :: 0 <= k < n ==> Readable(observations[k])
    requires WellKeyed(m)
    ensures WellKeyed(AbsorbAll(m, observations, n).memory) && Remembers(m, AbsorbAll(m, observations, n).memory)
  {
    hide Remembers, WellKeyed, Absorb, Readable;
    if n == 0 {
      RemembersSelf(m);
    } else {
      NothingForgotten(m, observations, n - 1);
      var p := AbsorbAll(m, observations, n - 1);
      AbsorbRemembers(p, observations[n - 1]);
      RemembersTransitive(m, p.memory, Absorb(p, observations[n - 1]).memory);
    }
  }
}
