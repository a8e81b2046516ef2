/** Candidate generation and ranking: blackline/vector/planner.py and scorer.py. */
module Planning {
  import opened Results
  import opened CltIR
  import opened VectorMemory
  import opened VectorStore
  import opened Resolving
  import Text
  import Ordering

  datatype Goal = Goal(action: string, target: string)

  /** A proposed action. The recorded reasons and sources explain it and decide nothing. */
  datatype Candidate = Candidate(capabilityId: string, intent: ActionIntent, target: string, score: int)
  {
    function Identity(): string {
      capabilityId + "|" + target
    }
  }

  function Target(s: ServiceFact): string {
    s.host + ":" + Text.Decimal(s.port)
  }

  // ---------------------------------------------------------------- where a capability or a rule applies

  predicate Stored(m: Memory, s: ServiceFact) {
    s.Identity() in m.services && m.services[s.Identity()] == s
  }

  predicate FitsAll(requirements: seq<Condition>, s: ServiceFact) {
    forall c :: c in requirements && OnServices(c) ==> Fits(c, s)
  }

  predicate NeedsService(requirements: seq<Condition>) {
    exists c :: c in requirements && OnServices(c)
  }

  /** A capability is proposed for every service that meets all its service requirements, or else for the goal's target. */
  ghost predicate AppliesAt(m: Memory, requirements: seq<Condition>, goal: Goal, target: string) {
    if NeedsService(requirements) then exists s :: Stored(m, s) && FitsAll(requirements, s) && target == Target(s)
    else target == goal.target
  }

  /** A rule's action is proposed for every service its condition matches, or else for the goal's target. */
  ghost predicate RuleAppliesAt(m: Memory, c: Condition, goal: Goal, target: string) {
    if exists s :: Stored(m, s) && Fits(c, s) then exists s :: Stored(m, s) && Fits(c, s) && target == Target(s)
    else target == goal.target
  }

  function ServiceRequirements(requirements: seq<Condition>): (r: seq<Condition>)
    ensures forall c :: c in r <==> c in requirements && OnServices(c)
  {
    Ordering.Filter(c => OnServices(c), requirements)
  }

  /** The services that every service requirement matches: matches of the first, narrowed by each further one. */
  method MatchingServices(state: VectorState, requirements: seq<Condition>) returns (r: seq<ServiceFact>)
    requires state.Valid()
    ensures NeedsService(requirements) ==> forall s :: s in r <==> Stored(state.View(), s) && FitsAll(requirements, s)
    ensures !NeedsService(requirements) ==> r == []
  {
    var needed := ServiceRequirements(requirements);
    hide VectorState.Valid, Fits, Ordering.Filter;
    if needed == [] {
      assert !NeedsService(requirements);
      return [];
    }
    assert needed[0] in needed;
    r := state.Matches(needed[0]);
    for k := 1 to |needed|
      invariant forall s :: s in r <==> Stored(state.View(), s) && forall c :: c in needed[..k] ==> Fits(c, s)
    {
      assert needed[..k + 1] == needed[..k] + [needed[k]];
      var more := state.Matches(needed[k]);
      var allowed := set s | s in more :: s.Identity();
      ghost var was := r;
      r := Ordering.Filter((s: ServiceFact) => s.Identity() in allowed, r);
      forall s | Stored(state.View(), s) ensures s.Identity() in allowed <==> Fits(needed[k], s) {
        if s.Identity() in allowed {
          var t :| t in more && t.Identity() == s.Identity();
          assert t == s;
        }
      }
    }
    assert needed[..|needed|] == needed;
  }

  method TargetsOf(services: seq<ServiceFact>) returns (targets: seq<string>)
    ensures forall t :: t in targets <==> exists s :: s in services && t == Target(s)
    ensures targets == [] <==> services == []
  {
    hide Target;
    targets := [];
    for k := 0 to |services|
      invariant |targets| == k && forall j :: 0 <= j < k ==> targets[j] == Target(services[j])
    {
      targets := targets + [Target(services[k])];
    }
    forall t ensures t in targets <==> exists s :: s in services && t == Target(s) {
      if s :| s in services && t == Target(s) {
        var j :| 0 <= j < |services| && services[j] == s;
        assert targets[j] == t;
      }
    }
  }

  method CapabilityTargets(state: VectorState, requirements: seq<Condition>, goal: Goal) returns (targets: seq<string>)
    requires state.Valid()
    ensures forall t :: t in targets <==> AppliesAt(state.View(), requirements, goal, t)
  {
    hide VectorState.Valid, Fits, Target;
    var services := MatchingServices(state, requirements);
    if services == [] {
      if NeedsService(requirements) {
        NoService(state.View(), requirements, services);
        return [];
      }
      return [goal.target];
    }
    assert services != [] ==> NeedsService(requirements);
    targets := TargetsOf(services);
  }

  lemma NoService(m: Memory, requirements: seq<Condition>, services: seq<ServiceFact>)
    requires services == [] && forall s :: s in services <==> Stored(m, s) && FitsAll(requirements, s)
    ensures forall s :: !(Stored(m, s) && FitsAll(requirements, s))
  {
    forall s ensures !(Stored(m, s) && FitsAll(requirements, s)) {
      assert s !in services;
    }
  }

  method RuleTargets(state: VectorState, c: Condition, goal: Goal) returns (targets: seq<string>)
    requires state.Valid()
    ensures forall t :: t in targets <==> RuleAppliesAt(state.View(), c, goal, t)
  {
    hide VectorState.Valid, Fits, Target;
    var services := state.Matches(c);
    if services == [] {
      assert forall s :: Stored(state.View(), s) && Fits(c, s) ==> s in services;
      return [goal.target];
    }
    assert services[0] in services;
    targets := TargetsOf(services);
  }

  // ---------------------------------------------------------------- collecting candidates

  /** A capability proposed for a target. */
  type Proposal = (Capability, string)

  function CandidateFor(p: Proposal): Candidate {
    Candidate(p.0.Identity(), p.0.intent, p.1, 0)
  }

  predicate Listed(candidates: seq<Candidate>, id: string) {
    exists k :: 0 <= k < |candidates| && candidates[k].Identity() == id
  }

  predicate Distinct(candidates: seq<Candidate>) {
    forall a, b :: 0 <= a < b < |candidates| ==> candidates[a].Identity() != candidates[b].Identity()
  }

  /** The dictionary of candidates: one entry for each proposed identity that is not completed. */
  ghost predicate Collected(candidates: seq<Candidate>, proposed: seq<Proposal>, completed: set<string>) {
    && Distinct(candidates)
    && (forall x :: x in candidates ==> x.Identity() !in completed && exists p :: p in proposed && x == CandidateFor(p))
    && (forall p :: p in proposed && CandidateFor(p).Identity() !in completed ==> Listed(candidates, CandidateFor(p).Identity()))
  }

  method AddCandidate(candidates: seq<Candidate>, p: Proposal, completed: set<string>, ghost proposed: seq<Proposal>)
    returns (r: seq<Candidate>)
    requires Collected(candidates, proposed, completed)
    ensures Collected(r, proposed + [p], completed)
    ensures candidates <= r && |r| <= |candidates| + 1
    ensures |r| > |candidates| <==> CandidateFor(p).Identity() !in completed && !Listed(candidates, CandidateFor(p).Identity())
    ensures |r| > |candidates| ==> r[|candidates|] == CandidateFor(p)
  {
    var x := CandidateFor(p);
    hide CandidateFor, Candidate.Identity;
    if x.Identity() in completed || Listed(candidates, x.Identity()) { return candidates; }
    r := candidates + [x];
    forall q | q in proposed + [p] && CandidateFor(q).Identity() !in completed ensures Listed(r, CandidateFor(q).Identity()) {
      if q in proposed {
        var k :| 0 <= k < |candidates| && candidates[k].Identity() == CandidateFor(q).Identity();
        assert r[k] == candidates[k];
      } else {
        assert r[|candidates|].Identity() == CandidateFor(q).Identity();
      }
    }
    assert p in proposed + [p];
  }

  method AddCandidates(candidates: seq<Candidate>, c: Capability, targets: seq<string>, completed: set<string>,
                       ghost proposed: seq<Proposal>)
    returns (r: seq<Candidate>, ghost proposed': seq<Proposal>)
    requires Collected(candidates, proposed, completed)
    ensures Collected(r, proposed', completed)
    ensures forall p :: p in proposed' <==> p in proposed || (p.0 == c && p.1 in targets)
    ensures candidates <= r
  {
    hide Collected;
    r, proposed' := candidates, proposed;
    for k := 0 to |targets|
      invariant Collected(r, proposed', completed) && candidates <= r
      invariant forall p :: p in proposed' <==> p in proposed || (p.0 == c && p.1 in targets[..k])
    {
      assert targets[..k + 1] == targets[..k] + [targets[k]];
      r := AddCandidate(r, (c, targets[k]), completed, proposed');
      proposed' := proposed' + [(c, targets[k])];
    }
    assert targets[..|targets|] == targets;
  }

  ghost predicate ByRequirements(m: Memory, goal: Goal, p: Proposal) {
    p.0.requirements != [] && AppliesAt(m, p.0.requirements, goal, p.1)
  }

  ghost predicate ByRule(m: Memory, goal: Goal, resolver: Resolver, pair: (RuleObject, ActionIntent), p: Proposal)
    requires resolver.Valid()
    reads resolver
  {
    resolver.CapabilityForIntent(pair.1) == Some(p.0) && RuleAppliesAt(m, pair.0.condition, goal, p.1)
  }

  ghost predicate ByRules(m: Memory, goal: Goal, resolver: Resolver, actions: seq<(RuleObject, ActionIntent)>, p: Proposal)
    requires resolver.Valid()
    reads resolver
  {
    exists a :: a in actions && ByRule(m, goal, resolver, a, p)
  }

  lemma ByOneMore(m: Memory, goal: Goal, resolver: Resolver, actions: seq<(RuleObject, ActionIntent)>, k: nat)
    requires resolver.Valid() && k < |actions|
    ensures forall p :: ByRules(m, goal, resolver, actions[..k + 1], p) <==>
              ByRules(m, goal, resolver, actions[..k], p) || ByRule(m, goal, resolver, actions[k], p)
  {
    hide Resolver.Valid, ByRule;
    assert actions[..k + 1] == actions[..k] + [actions[k]];
  }

  method FromCapabilities(goal: Goal, state: VectorState, capabilities: seq<Capability>, completed: set<string>)
    returns (r: seq<Candidate>, ghost proposed: seq<Proposal>)
    requires state.Valid()
    ensures Collected(r, proposed, completed)
    ensures forall p :: p in proposed <==> p.0 in capabilities && ByRequirements(state.View(), goal, p)
  {
    hide Collected, AppliesAt, VectorState.Valid;
    r, proposed := [], [];
    NothingCollected(completed);
    for k := 0 to |capabilities|
      invariant Collected(r, proposed, completed)
      invariant forall p :: p in proposed <==> p.0 in capabilities[..k] && ByRequirements(state.View(), goal, p)
    {
      var c := capabilities[k];
      assert capabilities[..k + 1] == capabilities[..k] + [c];
      if c.requirements != [] {
        var targets := CapabilityTargets(state, c.requirements, goal);
        r, proposed := AddCandidates(r, c, targets, completed, proposed);
      }
    }
    assert capabilities[..|capabilities|] == capabilities;
  }

  lemma NothingCollected(completed: set<string>)
    ensures Collected([], [], completed)
  {
  }

  method FromRules(goal: Goal, state: VectorState, resolver: Resolver, actions: seq<(RuleObject, ActionIntent)>,
                   completed: set<string>, candidates: seq<Candidate>, ghost before: seq<Proposal>)
    returns (r: seq<Candidate>, ghost proposed: seq<Proposal>)
    requires state.Valid() && resolver.Valid() && Collected(candidates, before, completed)
    ensures Collected(r, proposed, completed)
    ensures forall p :: p in proposed <==> p in before || ByRules(state.View(), goal, resolver, actions, p)
  {
    hide Collected, RuleAppliesAt, VectorState.Valid, Resolver.Valid, Resolver.CapabilityForIntent;
    r, proposed := candidates, before;
    assert actions[..0] == [];
    for k := 0 to |actions|
      invariant Collected(r, proposed, completed)
      invariant forall p :: p in proposed <==> p in before || ByRules(state.View(), goal, resolver, actions[..k], p)
    {
      ByOneMore(state.View(), goal, resolver, actions, k);
      var c := resolver.CapabilityForIntent(actions[k].1);
      if c.Some? {
        var targets := RuleTargets(state, actions[k].0.condition, goal);
        r, proposed := AddCandidates(r, c.value, targets, completed, proposed);
      }
    }
    assert actions[..|actions|] == actions;
  }

  /** What the planner proposes: applicable capabilities with requirements, and actions of matching rules. */
  ghost predicate Proposed(m: Memory, goal: Goal, resolver: Resolver, delta: Option<Delta>, looked: seq<RuleObject>, p: Proposal)
    requires resolver.Valid()
    reads resolver
  {
    || (resolver.Registered(p.0) && AllHold(m, p.0.requirements) && Touched(p.0.requirements, delta) && ByRequirements(m, goal, p))
    || ByRules(m, goal, resolver, RuleActions(m, looked), p)
  }

  /** One candidate for each proposed and not yet completed identity, and no other. */
  method Candidates(goal: Goal, state: VectorState, resolver: Resolver, delta: Option<Delta>, completed: set<string>)
    returns (r: seq<Candidate>, ghost proposed: seq<Proposal>, ghost looked: seq<RuleObject>)
    requires state.Valid() && resolver.Valid()
    ensures Collected(r, proposed, completed)
    ensures forall p :: p in proposed <==> Proposed(state.View(), goal, resolver, delta, looked, p)
    ensures forall p :: p in proposed ==> resolver.Registered(p.0)
    ensures delta.None? ==> looked == resolver.rules
  {
    var capabilities := resolver.ApplicableCapabilities(state, delta);
    hide Collected, Touched, ByRequirements, RuleAppliesAt, AllHold, VectorState.Valid;
    r, proposed := FromCapabilities(goal, state, capabilities, completed);
    var actions;
    actions, looked := resolver.MatchingRuleActions(state, delta);
    r, proposed := FromRules(goal, state, resolver, actions, completed, r, proposed);
    hide Resolver.Valid;
  }

  // ---------------------------------------------------------------- ranking

  /** The better score first; ties by identity. */
  predicate Better(a: Candidate, b: Candidate) {
    a.score > b.score || (a.score == b.score && Ordering.Less(a.Identity(), b.Identity()))
  }

  function Place(x: Candidate, s: seq<Candidate>): seq<Candidate> {
    if s == [] || Better(x, s[0]) then [x] + s else [s[0]] + Place(x, s[1..])
  }

  function Rank(s: seq<Candidate>): seq<Candidate> {
    if s == [] then [] else Place(s[0], Rank(s[1..]))
  }

  predicate Ranked(s: seq<Candidate>) {
    forall a, b :: 0 <= a < b < |s| ==> Better(s[a], s[b])
  }

  /** Scores never rise, and equal scores stand in the order of the identities. */
  predicate BestFirst(s: seq<Candidate>) {
    forall a, b :: 0 <= a < b < |s| ==>
      s[a].score >= s[b].score && (s[a].score == s[b].score ==> Ordering.Less(s[a].Identity(), s[b].Identity()))
  }

  lemma BetterIsTransitive(a: Candidate, b: Candidate, c: Candidate)
    requires Better(a, b) && Better(b, c)
    ensures Better(a, c)
  {
    if Ordering.Less(a.Identity(), b.Identity()) && Ordering.Less(b.Identity(), c.Identity()) {
      Ordering.LessIsTransitive(a.Identity(), b.Identity(), c.Identity());
    }
  }

  lemma BetterIsTotal(a: Candidate, b: Candidate)
    requires a.Identity() != b.Identity()
    ensures Better(a, b) || Better(b, a)
  {
    Ordering.LessIsTotal(a.Identity(), b.Identity());
  }

  lemma BetterIsStrict(a: Candidate, b: Candidate)
    ensures !(Better(a, b) && Better(b, a))
  {
    if Ordering.Less(a.Identity(), b.Identity()) { Ordering.LessIsStrict(a.Identity(), b.Identity()); }
  }

  lemma RankedCons(first: Candidate, rest: seq<Candidate>)
    requires Ranked(rest) && forall x :: x in rest ==> Better(first, x)
    ensures Ranked([first] + rest)
  {
    var s := [first] + rest;
    forall a, b | 0 <= a < b < |s| ensures Better(s[a], s[b]) {
      assert s[b] == rest[b - 1] && rest[b - 1] in rest;
    }
  }

  lemma {:induction false} PlaceKeeps(x: Candidate, s: seq<Candidate>)
    requires Ranked(s) && forall y :: y in s ==> y.Identity() != x.Identity()
    ensures Ranked(Place(x, s)) && (forall y :: y in Place(x, s) <==> y == x || y in s) && |Place(x, s)| == |s| + 1
  {
    hide Better;
    if s == [] {
    } else if Better(x, s[0]) {
      forall y | y in s ensures Better(x, y) {
        var k :| 0 <= k < |s| && s[k] == y;
        if k > 0 { BetterIsTransitive(x, s[0], y); }
      }
      RankedCons(x, s);
    } else {
      assert s == [s[0]] + s[1..] && s[0] in s;
      PlaceKeeps(x, s[1..]);
      BetterIsTotal(x, s[0]);
      forall y | y in s[1..] ensures Better(s[0], y) {
        var k :| 0 <= k < |s[1..]| && s[1..][k] == y;
        assert s[k + 1] == y;
      }
      RankedCons(s[0], Place(x, s[1..]));
    }
  }

  predicate Apart(s: seq<Candidate>, x: Candidate) {
    forall y :: y in s ==> y.Identity() != x.Identity()
  }

  /** Ranking is a permutation in strictly better-first order ... */
  lemma {:induction false} RankKeeps(s: seq<Candidate>)
    requires Distinct(s)
    ensures Ranked(Rank(s)) && (forall y :: y in Rank(s) <==> y in s) && |Rank(s)| == |s|
    ensures BestFirst(Rank(s))
  {
    if s != [] {
      var rest := s[1..];
      assert s == [s[0]] + rest;
      RankKeeps(rest);
      forall y | y in rest ensures y.Identity() != s[0].Identity() {
        var k :| 0 <= k < |rest| && rest[k] == y;
      }
      PlaceKeeps(s[0], Rank(rest));
    }
  }

  /** ... which the candidates alone determine: the order in which they were inserted plays no part. */
  lemma RankIgnoresOrder(s: seq<Candidate>, t: seq<Candidate>)
    requires Distinct(s) && Distinct(t) && forall x :: x in s <==> x in t
    ensures Rank(s) == Rank(t)
  {
    RankKeeps(s);
    RankKeeps(t);
    RankedIsCanonical(Rank(s), Rank(t));
  }

  lemma {:induction false} RankedIsCanonical(a: seq<Candidate>, b: seq<Candidate>)
    requires Ranked(a) && Ranked(b) && forall x :: x in a <==> x in b
    ensures a == b
  {
    hide Better;
    assert a != [] ==> a[0] in b;
    assert b != [] ==> b[0] in a;
    if a != [] && b != [] {
      BetterIsStrict(a[0], b[0]);
      assert a[0] == b[0];
      assert a == [a[0]] + a[1..] && b == [b[0]] + b[1..];
      forall x ensures x in a[1..] <==> x in b[1..] {
        BetterIsStrict(x, x);
        assert x in a <==> x == a[0] || x in a[1..];
        assert x in b <==> x == b[0] || x in b[1..];
      }
      RankedIsCanonical(a[1..], b[1..]);
    }
  }
}
