/** Incremental matching of capabilities and compiled rules: blackline/vector/resolver.py. */
module Resolving {
  import opened Results
  import opened CltIR
  import opened VectorMemory
  import opened VectorStore
  import Ordering

  datatype Capability = Capability(intent: ActionIntent, requirements: seq<Condition>, cost: nat, risk: nat, priority: int,
                                   goalActions: set<string>)
  {
    function Identity(): string {
      IntentName(intent)
    }
  }

  function WithoutColons(s: string): string {
    if s != [] && s[|s| - 1] == ':' then WithoutColons(s[..|s| - 1]) else s
  }

  /** Python's rstrip(":"): the longest beginning that does not end in a colon, with nothing but colons after it. */
  lemma {:induction false} OnlyColonsGo(s: string)
    ensures var r := WithoutColons(s);
            r <= s && (r != [] ==> r[|r| - 1] != ':') && forall k :: |r| <= k < |s| ==> s[k] == ':'
  {
    if s != [] && s[|s| - 1] == ':' { OnlyColonsGo(s[..|s| - 1]); }
  }

  function IntentName(i: ActionIntent): string {
    WithoutColons(i.verb + ":" + i.subject)
  }

  /** A rule object: `id` is the object's identity. */
  datatype RuleObject = RuleObject(id: nat, condition: Condition, body: seq<Statement>)

  predicate AllHold(m: Memory, requirements: seq<Condition>) {
    forall c :: c in requirements ==> Holds(m, c)
  }

  /** Whether the delta query looks at a capability at all. */
  predicate Touched(requirements: seq<Condition>, delta: Option<Delta>) {
    delta.None? || requirements == [] ||
    exists c :: c in requirements && c in DeltaKeys(delta.value.services, delta.value.facts)
  }

  // ---------------------------------------------------------------- incremental evaluation loses nothing

  /**
   * Whatever the observations, a capability with canonical requirements that hold now and did not all hold before is
   * touched by the delta of these observations.
   */
  lemma NewlyApplicableIsTouched(m: Memory, observations: seq<Observation>, requirements: seq<Condition>, revision: nat)
    requires AllReadable(observations)
    requires forall c :: c in requirements ==> Canonical(c)
    requires !AllHold(m, requirements)
    ensures var p := AbsorbAll(m, observations, |observations|);
            AllHold(p.memory, requirements) ==> Touched(requirements, Some(Delta(revision, p.services, p.facts, [])))
  {
    hide Holds, Canonical, DeltaKeys, AbsorbAll;
    var c :| c in requirements && !Holds(m, c);
    DeltaComplete(m, observations, |observations|, c);
  }

  // ---------------------------------------------------------------- rules

  /** The flow intents directly in a rule's body. */
  function Flows(rule: RuleObject, body: seq<Statement>): (r: seq<(RuleObject, ActionIntent)>)
    ensures forall pair :: pair in r ==> pair.0 == rule
  {
    if body == [] then []
    else (if body[0].Flow? then [(rule, body[0].intent)] else []) + Flows(rule, body[1..])
  }

  function RuleActions(m: Memory, rules: seq<RuleObject>): seq<(RuleObject, ActionIntent)> {
    if rules == [] then []
    else
      var last := rules[|rules| - 1];
      RuleActions(m, rules[..|rules| - 1]) + if Holds(m, last.condition) then Flows(last, last.body) else []
  }

  /** The flows of a body: those of its parts one after the other, and of one statement its intent if it is a flow. */
  lemma {:induction false} FlowsJoin(rule: RuleObject, front: seq<Statement>, back: seq<Statement>)
    ensures Flows(rule, front + back) == Flows(rule, front) + Flows(rule, back)
    ensures forall intent :: Flows(rule, [Flow(intent)]) == [(rule, intent)]
    ensures forall s: Statement :: !s.Flow? ==> Flows(rule, [s]) == []
  {
    if front == [] {
      assert front + back == back;
    } else {
      assert (front + back)[1..] == front[1..] + back;
      FlowsJoin(rule, front[1..], back);
    }
  }

  lemma {:induction false} FlowsAre(rule: RuleObject, body: seq<Statement>, pair: (RuleObject, ActionIntent))
    ensures pair in Flows(rule, body) <==> pair.0 == rule && Flow(pair.1) in body
  {
    if body != [] {
      assert body == [body[0]] + body[1..];
      FlowsAre(rule, body[1..], pair);
    }
  }

  lemma {:induction false} RuleActionsAre(m: Memory, rules: seq<RuleObject>)
    ensures forall pair :: pair in RuleActions(m, rules) <==>
              pair.0 in rules && Holds(m, pair.0.condition) && Flow(pair.1) in pair.0.body
  {
    forall pair: (RuleObject, ActionIntent) ensures pair in Flows(pair.0, pair.0.body) <==> Flow(pair.1) in pair.0.body {
      FlowsAre(pair.0, pair.0.body, pair);
    }
    if rules != [] {
      var front, last := rules[..|rules| - 1], rules[|rules| - 1];
      assert rules == front + [last];
      RuleActionsAre(m, front);
    }
  }

  /**
   * Looking only at the rules the delta touches loses no action of a rule with a canonical condition that has just
   * become true, and gives no action that looking at all rules would not give.
   */
  lemma DeltaRulesLoseNothing(m: Memory, observations: seq<Observation>, rules: seq<RuleObject>, looked: seq<RuleObject>,
                              pair: (RuleObject, ActionIntent))
    requires AllReadable(observations)
    requires var p := AbsorbAll(m, observations, |observations|);
             forall q :: q in looked <==> q in rules && q.condition in DeltaKeys(p.services, p.facts)
    ensures var p := AbsorbAll(m, observations, |observations|);
            && (pair in RuleActions(p.memory, looked) ==> pair in RuleActions(p.memory, rules))
            && (Canonical(pair.0.condition) && !Holds(m, pair.0.condition) && pair in RuleActions(p.memory, rules) ==>
                  pair in RuleActions(p.memory, looked))
  {
    var p := AbsorbAll(m, observations, |observations|);
    hide AbsorbAll, Holds, Canonical, DeltaKeys, RuleActions, Flows;
    RuleActionsAre(p.memory, rules);
    RuleActionsAre(p.memory, looked);
    if Canonical(pair.0.condition) && !Holds(m, pair.0.condition) {
      DeltaComplete(m, observations, |observations|, pair.0.condition);
    }
  }

  function WithCondition(rules: seq<RuleObject>, key: Condition): seq<RuleObject> {
    if rules == [] then []
    else
      var last := rules[|rules| - 1];
      WithCondition(rules[..|rules| - 1], key) + if last.condition == key then [last] else []
  }

  lemma {:induction false} WithConditionAre(rules: seq<RuleObject>, key: Condition)
    ensures forall r :: r in WithCondition(rules, key) <==> r in rules && r.condition == key
  {
    if rules != [] {
      WithConditionAre(rules[..|rules| - 1], key);
      assert rules == rules[..|rules| - 1] + [rules[|rules| - 1]];
    }
  }

  /** Two references to one object are the same rule. */
  ghost predicate Objects(rules: seq<RuleObject>) {
    forall r, q :: r in rules && q in rules && r.id == q.id ==> r == q
  }

  predicate Once(rules: seq<RuleObject>) {
    forall a, b :: 0 <= a < b < |rules| ==> rules[a].id != rules[b].id
  }

  ghost predicate CapabilitiesIndexed(capabilities: map<string, Capability>, byRequirement: map<Condition, set<string>>) {
    && (forall c, id :: c in byRequirement && id in byRequirement[c] ==> id in capabilities && c in capabilities[id].requirements)
    && (forall id, c :: id in capabilities && c in capabilities[id].requirements ==> c in byRequirement && id in byRequirement[c])
  }

  ghost predicate RulesIndexed(rules: seq<RuleObject>, byCondition: map<Condition, seq<RuleObject>>) {
    && (forall c :: c in byCondition ==> byCondition[c] == WithCondition(rules, c))
    && (forall r :: r in rules ==> r.condition in byCondition)
  }

  lemma RuleAdded(rules: seq<RuleObject>, byCondition: map<Condition, seq<RuleObject>>, rule: RuleObject)
    requires RulesIndexed(rules, byCondition)
    ensures var key := rule.condition;
            RulesIndexed(rules + [rule], byCondition[key := (if key in byCondition then byCondition[key] else []) + [rule]])
  {
    assert (rules + [rule])[..|rules|] == rules;
    if rule.condition !in byCondition { NoneYet(rules, rule.condition); }
  }

  // ---------------------------------------------------------------- capabilities

  /** The index after adding one identity under each of its requirements. */
  ghost predicate IndexGrown(before: map<Condition, set<string>>, index: map<Condition, set<string>>, requirements: seq<Condition>,
                             id: string)
  {
    && (forall q :: q in index <==> q in before || q in requirements)
    && (forall q, i :: q in index ==> (i in index[q] <==> (q in before && i in before[q]) || (i == id && q in requirements)))
  }

  method IndexedUnder(before: map<Condition, set<string>>, requirements: seq<Condition>, id: string)
    returns (index: map<Condition, set<string>>)
    ensures IndexGrown(before, index, requirements, id)
  {
    index := before;
    for k := 0 to |requirements|
      invariant IndexGrown(before, index, requirements[..k], id)
    {
      var q := requirements[k];
      assert requirements[..k + 1] == requirements[..k] + [q];
      index := index[q := (if q in index then index[q] else {}) + {id}];
    }
    assert requirements[..|requirements|] == requirements;
  }

  lemma CapabilityAdded(capabilities: map<string, Capability>, before: map<Condition, set<string>>,
                        index: map<Condition, set<string>>, c: Capability, id: string)
    requires CapabilitiesIndexed(capabilities, before) && id !in capabilities && IndexGrown(before, index, c.requirements, id)
    ensures CapabilitiesIndexed(capabilities[id := c], index)
  {
  }

  ghost predicate KnownIds(capabilities: map<string, Capability>, ids: seq<string>) {
    forall id :: id in ids ==> id in capabilities && capabilities[id].Identity() == id
  }

  /** The listed capabilities whose requirements all hold, in the order of the list. */
  ghost function Selected(capabilities: map<string, Capability>, m: Memory, ids: seq<string>): seq<Capability>
    requires KnownIds(capabilities, ids)
  {
    if ids == [] then []
    else
      var front, id := ids[..|ids| - 1], ids[|ids| - 1];
      assert id in ids;
      Selected(capabilities, m, front) + if AllHold(m, capabilities[id].requirements) then [capabilities[id]] else []
  }

  lemma {:induction false} SelectedAre(capabilities: map<string, Capability>, m: Memory, ids: seq<string>)
    requires KnownIds(capabilities, ids) && Ordering.Increasing(Ordering.Less, ids)
    ensures var r := Selected(capabilities, m, ids);
      && (forall c :: c in r <==> c.Identity() in ids && capabilities[c.Identity()] == c && AllHold(m, c.requirements))
      && forall a, b :: 0 <= a < b < |r| ==> Ordering.Less(r[a].Identity(), r[b].Identity())
  {
    hide IntentName, AllHold, Ordering.Less;
    if ids != [] {
      var front, id := ids[..|ids| - 1], ids[|ids| - 1];
      assert ids == front + [id] && id in ids;
      SelectedAre(capabilities, m, front);
      var r := Selected(capabilities, m, front);
      forall a | 0 <= a < |r| ensures Ordering.Less(r[a].Identity(), id) {
        assert r[a] in r;
        StandsBefore(ids, |front|, r[a].Identity());
      }
      forall c ensures c in Selected(capabilities, m, ids) <==>
                         c.Identity() in ids && capabilities[c.Identity()] == c && AllHold(m, c.requirements)
      {
        assert c.Identity() in ids <==> c.Identity() in front || c.Identity() == id;
      }
    }
  }

  method HoldingOf(state: VectorState, known: map<string, Capability>, order: seq<string>) returns (r: seq<Capability>)
    requires state.Valid() && KnownIds(known, order)
    ensures r == Selected(known, state.View(), order)
  {
    hide VectorState.Valid, IntentName, AllHold;
    r := [];
    assert order[..0] == [];
    for k := 0 to |order|
      invariant KnownIds(known, order[..k]) && r == Selected(known, state.View(), order[..k])
    {
      KnownSnoc(known, order, k);
      var all := AllHoldNow(state, known[order[k]].requirements);
      if all { r := r + [known[order[k]]]; }
    }
    assert order[..|order|] == order;
  }

  method AllHoldNow(state: VectorState, requirements: seq<Condition>) returns (all: bool)
    requires state.Valid()
    ensures all == AllHold(state.View(), requirements)
  {
    all := true;
    for k := 0 to |requirements|
      invariant all == AllHold(state.View(), requirements[..k])
    {
      var one := state.HoldsNow(requirements[k]);
      assert requirements[..k + 1] == requirements[..k] + [requirements[k]];
      all := all && one;
    }
    assert requirements[..|requirements|] == requirements;
  }

  /** Append the rules that are not there yet: no object is listed twice. */
  method Joined(ghost rules: seq<RuleObject>, r: seq<RuleObject>, more: seq<RuleObject>) returns (r': seq<RuleObject>)
    requires Objects(rules) && Once(r) && (forall q :: q in r || q in more ==> q in rules)
    ensures Once(r') && forall q :: q in r' <==> q in r || q in more
  {
    r' := r;
    for k := 0 to |more|
      invariant Once(r') && forall q :: q in r' <==> q in r || q in more[..k]
    {
      assert more[..k + 1] == more[..k] + [more[k]];
      if forall j :: 0 <= j < |r'| ==> r'[j].id != more[k].id {
        r' := r' + [more[k]];
      } else {
        var j :| 0 <= j < |r'| && r'[j].id == more[k].id;
        assert r'[j] in rules && more[k] in rules;
      }
    }
    assert more[..|more|] == more;
  }

  method ActionsOf(state: VectorState, rules: seq<RuleObject>) returns (r: seq<(RuleObject, ActionIntent)>)
    requires state.Valid()
    ensures r == RuleActions(state.View(), rules)
  {
    hide VectorState.Valid, Holds;
    r := [];
    for k := 0 to |rules|
      invariant r == RuleActions(state.View(), rules[..k])
    {
      assert rules[..k + 1][..k] == rules[..k];
      var holds := state.HoldsNow(rules[k].condition);
      if holds { r := r + Flows(rules[k], rules[k].body); }
    }
    assert rules[..|rules|] == rules;
  }

  class Resolver {
    var capabilities: map<string, Capability>
    var byRequirement: map<Condition, set<string>>
    var unconditional: set<string>
    var rules: seq<RuleObject>
    var rulesByCondition: map<Condition, seq<RuleObject>>

    ghost predicate Valid()
      reads this
    {
      && (forall id :: id in capabilities ==> capabilities[id].Identity() == id)
      && (forall id :: id in unconditional <==> id in capabilities && capabilities[id].requirements == [])
      && CapabilitiesIndexed(capabilities, byRequirement)
      && Objects(rules)
      && RulesIndexed(rules, rulesByCondition)
    }

    ghost predicate Registered(c: Capability)
      reads this
    {
      c.Identity() in capabilities && capabilities[c.Identity()] == c
    }

    constructor ()
      ensures Valid() && capabilities == map[] && rules == []
    {
      capabilities, byRequirement, unconditional, rules, rulesByCondition := map[], map[], {}, [], map[];
    }

    /** Refused when the identity is taken; otherwise registered and indexed under each requirement. */
    method RegisterCapability(c: Capability) returns (ok: bool)
      requires Valid()
      modifies this`capabilities, this`byRequirement, this`unconditional
      ensures Valid() && ok == (c.Identity() !in old(capabilities))
      ensures capabilities == if ok then old(capabilities)[c.Identity() := c] else old(capabilities)
    {
      var id := c.Identity();
      if id in capabilities { return false; }
      var index := IndexedUnder(byRequirement, c.requirements, id);
      CapabilityAdded(capabilities, byRequirement, index, c, id);
      hide RulesIndexed, IntentName, CapabilitiesIndexed;
      capabilities := capabilities[id := c];
      if c.requirements == [] { unconditional := unconditional + {id}; }
      byRequirement := index;
      ok := true;
    }

    method RegisterRule(rule: RuleObject)
      requires Valid() && Objects(rules + [rule])
      modifies this`rules, this`rulesByCondition
      ensures Valid() && rules == old(rules) + [rule]
    {
      var key := rule.condition;
      RuleAdded(rules, rulesByCondition, rule);
      hide RulesIndexed, IntentName, CapabilitiesIndexed;
      rulesByCondition := rulesByCondition[key := (if key in rulesByCondition then rulesByCondition[key] else []) + [rule]];
      rules := rules + [rule];
    }

    /** Capabilities whose requirements hold now; with a delta, only those the delta touches. */
    method ApplicableCapabilities(state: VectorState, delta: Option<Delta>) returns (r: seq<Capability>)
      requires Valid() && state.Valid()
      ensures forall c :: c in r <==> Registered(c) && AllHold(state.View(), c.requirements) && Touched(c.requirements, delta)
      ensures forall a, b :: 0 <= a < b < |r| ==> Ordering.Less(r[a].Identity(), r[b].Identity())
    {
      var order := SortedCandidates(delta);
      r := HoldingOf(state, capabilities, order);
      SelectedAre(capabilities, state.View(), order);
      hide Valid, VectorState.Valid, Touched, IntentName, Ordering.Increasing, AllHold, Selected;
    }

    method SortedCandidates(delta: Option<Delta>) returns (order: seq<string>)
      requires Valid()
      ensures Ordering.Increasing(Ordering.Less, order) && KnownIds(capabilities, order)
      ensures forall id :: id in order <==> id in capabilities && Touched(capabilities[id].requirements, delta)
    {
      var ids := CandidateIds(delta);
      Ordering.StringOrder();
      hide Touched, CapabilitiesIndexed, IntentName, RulesIndexed, Objects;
      order := Ordering.SortSet(Ordering.Less, ids);
    }

    /** The flow intents of the rules whose conditions hold; with a delta, of the rules that the delta touches. */
    method MatchingRuleActions(state: VectorState, delta: Option<Delta>)
      returns (r: seq<(RuleObject, ActionIntent)>, ghost looked: seq<RuleObject>)
      requires Valid() && state.Valid()
      ensures r == RuleActions(state.View(), looked)
      ensures delta.None? ==> looked == rules
      ensures delta.Some? ==> Once(looked) && forall q :: q in looked <==>
                q in rules && q.condition in DeltaKeys(delta.value.services, delta.value.facts)
    {
      var candidates := CandidateRules(delta);
      r := ActionsOf(state, candidates);
      looked := candidates;
    }

    method CandidateRules(delta: Option<Delta>) returns (r: seq<RuleObject>)
      requires Valid()
      ensures delta.None? ==> r == rules
      ensures delta.Some? ==> Once(r) && forall q :: q in r <==>
                q in rules && q.condition in DeltaKeys(delta.value.services, delta.value.facts)
    {
      if delta.None? { return rules; }
      var keys := DeltaKeys(delta.value.services, delta.value.facts);
      var left := keys;
      r := [];
      hide DeltaKeys, CapabilitiesIndexed;
      while left != {}
        invariant left <= keys && Once(r)
        invariant forall q :: q in r <==> q in rules && q.condition in keys && q.condition !in left
        decreases left
      {
        var key :| key in left;
        left := left - {key};
        WithConditionAre(rules, key);
        if key in rulesByCondition {
          r := Joined(rules, r, rulesByCondition[key]);
        }
      }
    }

    /** The capability that an intent names, exactly or by its verb alone; a registered capability finds itself. */
    function CapabilityForIntent(intent: ActionIntent): (r: Option<Capability>)
      requires Valid()
      reads this
      ensures r.Some? ==> Registered(r.value)
      ensures forall c :: Registered(c) && c.intent == intent ==> r == Some(c)
      ensures forall c :: Registered(c) && c.Identity() == IntentName(intent) ==> r == Some(c)
      ensures IntentName(intent) !in capabilities ==> (forall c :: Registered(c) && c.Identity() == intent.verb ==> r == Some(c))
      ensures r.None? <==> IntentName(intent) !in capabilities && intent.verb !in capabilities
    {
      var exact := Lookup(capabilities, IntentName(intent));
      if exact.Some? then exact else Lookup(capabilities, intent.verb)
    }

    /** Without a delta every capability; with one the unconditional ones and those indexed under a changed key. */
    method CandidateIds(delta: Option<Delta>) returns (ids: set<string>)
      requires Valid()
      ensures forall id :: id in ids <==> id in capabilities && Touched(capabilities[id].requirements, delta)
    {
      if delta.None? { return capabilities.Keys; }
      ids := unconditional;
      var keys := DeltaKeys(delta.value.services, delta.value.facts);
      var left := keys;
      hide DeltaKeys, IntentName, WithCondition;
      while left != {}
        invariant left <= keys
        invariant forall id :: id in ids <==> id in unconditional || exists c :: c in keys && c !in left && c in byRequirement && id in byRequirement[c]
        decreases left
      {
        var key :| key in left;
        left := left - {key};
        if key in byRequirement { ids := ids + byRequirement[key]; }
      }
    }
  }

  lemma KnownSnoc(capabilities: map<string, Capability>, ids: seq<string>, k: nat)
    requires KnownIds(capabilities, ids) && k < |ids|
    ensures KnownIds(capabilities, ids[..k + 1]) && ids[..k + 1][..k] == ids[..k] && ids[k] in capabilities
  {
    assert ids[k] in ids;
    assert forall id :: id in ids[..k + 1] ==> id in ids;
  }

  lemma StandsBefore(order: seq<string>, k: nat, id: string)
    requires Ordering.Increasing(Ordering.Less, order) && k < |order| && id in order[..k]
    ensures Ordering.Less(id, order[k])
  {
  }

  lemma {:induction false} NoneYet(rules: seq<RuleObject>, key: Condition)
    requires forall r :: r in rules ==> r.condition != key
    ensures WithCondition(rules, key) == []
  {
    if rules != [] {
      assert rules[|rules| - 1] in rules;
      NoneYet(rules[..|rules| - 1], key);
    }
  }
}
