/** The decision cycle and the round loop around it: blackline/vector/vector.py and blackline/engine/runner.py. */
module Investigation {
  import opened Results
  import opened VectorMemory
  import opened VectorStore
  import opened Resolving
  import opened Planning

  datatype Policy = Policy(allowedActions: set<string>, maximumRisk: int, maxActionsPerRound: int, costWeight: int)
  {
    predicate Allows(c: Capability, goal: Goal) {
      && (allowedActions == {} || c.Identity() in allowedActions)
      && c.risk <= maximumRisk
      && (c.goalActions == {} || goal.action in c.goalActions)
    }
  }

  function Score(x: Candidate, c: Capability, costWeight: int): Candidate {
    x.(score := c.priority - c.risk - c.cost * costWeight)
  }

  datatype Decision = Decision(cycle: nat, delta: Delta, ranked: seq<Candidate>, selected: seq<Candidate>, rejected: seq<Candidate>)

  /** Python's s[:k]: the first k, or all of fewer; a negative bound leaves off as many at the end. */
  function FirstOf<T>(s: seq<T>, k: int): (r: seq<T>)
    ensures r <= s
    ensures 0 <= k <= |s| ==> |r| == k
    ensures k > |s| ==> r == s
    ensures -|s| <= k < 0 ==> |s| - |r| == -k
    ensures k < -|s| ==> r == []
  {
    if k >= |s| then s else if k >= 0 then s[..k] else if -k >= |s| then [] else s[..|s| + k]
  }

  function Identities(s: seq<Candidate>): set<string> {
    set x | x in s :: x.Identity()
  }

  /** Every raw candidate is either ranked or rejected, never both, and nothing else is. */
  ghost predicate Split(raw: seq<Candidate>, ranked: seq<Candidate>, rejected: seq<Candidate>) {
    && Distinct(ranked) && Distinct(rejected)
    && Identities(ranked) + Identities(rejected) == Identities(raw)
    && Identities(ranked) !! Identities(rejected)
    && |ranked| + |rejected| == |raw|
  }

  /** The three reasons to reject: not on the list if there is one, too risky, or meant for other goals. */
  predicate Objectionable(policy: Policy, c: Capability, goal: Goal) {
    || (policy.allowedActions != {} && c.Identity() !in policy.allowedActions)
    || c.risk > policy.maximumRisk
    || (c.goalActions != {} && goal.action !in c.goalActions)
  }

  lemma AllowsUnlessObjectionable(policy: Policy, c: Capability, goal: Goal)
    ensures policy.Allows(c, goal) <==> !Objectionable(policy, c, goal)
  {
  }

  /** A candidate that is filed under the verdict on its own capability, and scored by it if it is allowed. */
  ghost predicate Judged(resolver: Resolver, policy: Policy, goal: Goal, x: Candidate, allowed: bool)
    reads resolver
  {
    exists c :: resolver.Registered(c) && c.Identity() == x.capabilityId && allowed == !Objectionable(policy, c, goal) &&
                (allowed ==> x.score == c.priority - c.risk - c.cost * policy.costWeight)
  }

  /**
   * A decision taken on a memory: the raw candidates are those proposed and not completed, each is ranked or rejected
   * by the policy's verdict, and the first few of the ranking are selected.
   */
  ghost predicate DecidedFrom(goal: Goal, policy: Policy, resolver: Resolver, m: Memory, completed: set<string>, d: Decision,
                              raw: seq<Candidate>)
    requires resolver.Valid()
    reads resolver
  {
    && Split(raw, d.ranked, d.rejected) && Unchanged(raw, d.ranked, d.rejected) && BestFirst(d.ranked)
    && (forall x :: x in d.ranked ==> Judged(resolver, policy, goal, x, true))
    && (forall x :: x in d.rejected ==> Judged(resolver, policy, goal, x, false))
    && d.selected == FirstOf(d.ranked, policy.maxActionsPerRound)
    && Distinct(raw) && (forall x :: x in raw ==> x.Identity() !in completed)
    && (forall p :: Proposed(m, goal, resolver, None, resolver.rules, p) && CandidateFor(p).Identity() !in completed ==>
          Listed(raw, CandidateFor(p).Identity()))
    && (forall x :: x in raw ==> exists p :: Proposed(m, goal, resolver, None, resolver.rules, p) && x == CandidateFor(p))
  }

  ghost predicate Decided(goal: Goal, policy: Policy, resolver: Resolver, m: Memory, completed: set<string>, d: Decision)
    requires resolver.Valid()
    reads resolver
  {
    exists raw :: DecidedFrom(goal, policy, resolver, m, completed, d, raw)
  }

  /** Scoring changes nothing but the score, and a rejected candidate is left as it is. */
  ghost predicate Unchanged(raw: seq<Candidate>, scored: seq<Candidate>, rejected: seq<Candidate>) {
    && (forall x :: x in scored ==> exists y :: y in raw && x == y.(score := x.score))
    && (forall x :: x in rejected ==> x in raw)
  }

  lemma UnchangedSnoc(raw: seq<Candidate>, x: Candidate, scored: seq<Candidate>, rejected: seq<Candidate>, y: Candidate, allowed: bool)
    requires Unchanged(raw, scored, rejected) && y == (if allowed then x.(score := y.score) else x)
    ensures if allowed then Unchanged(raw + [x], scored + [y], rejected) else Unchanged(raw + [x], scored, rejected + [y])
  {
    assert x in raw + [x];
    assert forall z :: z in raw ==> z in raw + [x];
  }

  /** The state of the loop over the raw candidates. */
  ghost predicate Judging(v: Vector, raw: seq<Candidate>, scored: seq<Candidate>, rejected: seq<Candidate>)
    reads v, v.resolver
  {
    && Split(raw, scored, rejected) && Unchanged(raw, scored, rejected)
    && (forall x :: x in scored ==> Judged(v.resolver, v.policy, v.goal, x, true))
    && (forall x :: x in rejected ==> Judged(v.resolver, v.policy, v.goal, x, false))
  }

  lemma SplitSnoc(raw: seq<Candidate>, x: Candidate, scored: seq<Candidate>, rejected: seq<Candidate>, y: Candidate, allowed: bool)
    requires Split(raw, scored, rejected) && Apart(raw, x) && y.Identity() == x.Identity()
    ensures if allowed then Split(raw + [x], scored + [y], rejected) else Split(raw + [x], scored, rejected + [y])
  {
    assert x.Identity() !in Identities(raw);
    SnocIdentities(raw, x);
    SnocIdentities(scored, y);
    SnocIdentities(rejected, y);
    DistinctSnoc(scored, y);
    DistinctSnoc(rejected, y);
    hide Distinct, Identities;
  }

  lemma SnocIdentities(s: seq<Candidate>, x: Candidate)
    ensures Identities(s + [x]) == Identities(s) + {x.Identity()}
  {
    assert x in s + [x];
    assert forall y :: y in s + [x] <==> y in s || y == x;
  }

  lemma DistinctSnoc(s: seq<Candidate>, x: Candidate)
    requires Distinct(s)
    ensures x.Identity() !in Identities(s) ==> Distinct(s + [x])
  {
    if x.Identity() !in Identities(s) {
      forall a | 0 <= a < |s| ensures s[a].Identity() != x.Identity() {
        assert s[a] in s;
      }
    }
  }

  /** All observations absorbed, if they are all readable. */
  function Absorbed(m: Memory, os: seq<Observation>): Progress {
    if AllReadable(os) then AbsorbAll(m, os, |os|) else Progress(m, [], [])
  }

  /** The delta names what the observations changed, by their identifiers, and a new revision if they changed anything. */
  ghost predicate Noticed(m: Memory, revision: nat, os: seq<Observation>, delta: Delta) {
    var p := Absorbed(m, os);
    && delta.services == p.services && delta.facts == p.facts
    && delta.revision == revision + (if p.services != [] || p.facts != [] then 1 else 0)
    && |delta.observationIds| == |os| && forall k :: 0 <= k < |os| ==> delta.observationIds[k] == os[k].identifier
  }

  /** Observation k is the first that cannot be read, and what stands before it is absorbed. */
  ghost predicate Unreadable(m: Memory, os: seq<Observation>, k: nat, now: Memory) {
    k < |os| && AllReadable(os[..k]) && !Readable(os[k]) && now == AbsorbAll(m, os[..k], k).memory
  }

  class Vector {
    const goal: Goal
    const policy: Policy
    const state: VectorState
    const resolver: Resolver
    var cycle: nat
    var completed: set<string>
    var decisions: seq<Decision>

    ghost predicate Valid()
      reads this, state, resolver
    {
      state.Valid() && resolver.Valid() && cycle == |decisions|
    }

    constructor (goal: Goal, policy: Policy)
      ensures Valid() && fresh(state) && fresh(resolver) && completed == {} && decisions == []
      ensures this.goal == goal && this.policy == policy
    {
      this.goal, this.policy := goal, policy;
      state := new VectorState();
      resolver := new Resolver();
      cycle, completed, decisions := 0, {}, [];
    }

    method MarkCompleted(x: Candidate)
      modifies this`completed
      ensures completed == old(completed) + {x.Identity()}
    {
      completed := completed + {x.Identity()};
    }

    /** Rank what the policy allows, reject the rest, select the first few. */
    method Decide(delta: Delta) returns (d: Decision, ghost raw: seq<Candidate>)
      requires Valid()
      modifies this`cycle, this`decisions
      ensures Valid() && decisions == old(decisions) + [d] && d.cycle == |decisions| && d.delta == delta
      ensures DecidedFrom(goal, policy, resolver, state.View(), completed, d, raw)
    {
      cycle := cycle + 1;
      var candidates, proposed, looked := Candidates(goal, state, resolver, None, completed);
      raw := candidates;
      assert forall x :: x in raw ==> exists p :: p in proposed && x == CandidateFor(p);
      hide VectorState.Valid, Resolver.Valid, Proposed;
      var scored, rejected := Judge(candidates, proposed);
      RankKeeps(scored);
      SplitPermuted(raw, scored, rejected, Rank(scored));
      hide Split, Unchanged, Rank, Ranked, BestFirst, Distinct, Judged, Judging;
      var ranked := Rank(scored);
      d := Decision(cycle, delta, ranked, FirstOf(ranked, policy.maxActionsPerRound), rejected);
      decisions := decisions + [d];
    }

    /** The loop over the raw candidates: the intent of each resolves to the capability that proposed it. */
    method Judge(candidates: seq<Candidate>, ghost proposed: seq<Proposal>)
      returns (scored: seq<Candidate>, rejected: seq<Candidate>)
      requires resolver.Valid() && Distinct(candidates)
      requires forall x :: x in candidates ==> exists p :: p in proposed && x == CandidateFor(p)
      requires forall p :: p in proposed ==> resolver.Registered(p.0)
      ensures Judging(this, candidates, scored, rejected)
    {
      hide Resolver.Valid, Split, Unchanged, Policy.Allows, Objectionable;
      scored, rejected := [], [];
      NothingSplit();
      assert candidates[..0] == [];
      for k := 0 to |candidates|
        invariant Judging(this, candidates[..k], scored, rejected)
      {
        var x := candidates[k];
        assert x in candidates && candidates[..k + 1] == candidates[..k] + [x];
        ghost var p :| p in proposed && x == CandidateFor(p);
        var c := resolver.CapabilityForIntent(x.intent);
        AllowsUnlessObjectionable(policy, p.0, goal);
        assert c == Some(p.0);
        var y := Score(x, c.value, policy.costWeight);
        UnchangedSnoc(candidates[..k], x, scored, rejected, if policy.Allows(c.value, goal) then y else x, policy.Allows(c.value, goal));
        SplitSnoc(candidates[..k], x, scored, rejected, if policy.Allows(c.value, goal) then y else x, policy.Allows(c.value, goal));
        if policy.Allows(c.value, goal) {
          assert Judged(resolver, policy, goal, y, true);
          scored := scored + [y];
        } else {
          assert Judged(resolver, policy, goal, x, false);
          rejected := rejected + [x];
        }
      }
      assert candidates[..|candidates|] == candidates;
    }

    /** Ingest a state delta and decide on the complete state; unreadable observations raise. */
    method Observe(os: seq<Observation>) returns (r: Result<Decision, nat>)
      requires Valid()
      modifies this`cycle, this`decisions, state
      ensures Valid() && (r.Ok? <==> AllReadable(os))
      ensures decisions == if r.Ok? then old(decisions) + [r.value] else old(decisions)
      ensures r.Ok? ==>
                && r.value.cycle == |decisions|
                && Noticed(old(state.View()), old(state.revision), os, r.value.delta)
                && state.revision == r.value.delta.revision
                && state.View() == Absorbed(old(state.View()), os).memory
                && Decided(goal, policy, resolver, state.View(), completed, r.value)
      ensures r.Err? ==>
                && Unreadable(old(state.View()), os, r.error, state.View())
                && state.revision == old(state.revision)
      ensures r.Ok? ==> Distinct(r.value.selected) && forall x :: x in r.value.selected ==> x.Identity() !in completed
    {
      var delta := state.Ingest(os);
      if delta.Err? { return Err(delta.error); }
      hide VectorState.Valid, Resolver.Valid;
      var d, raw := Decide(delta.value);
      assert Decided(goal, policy, resolver, state.View(), completed, d);
      SelectedAreRaw(raw, d.ranked, d.rejected, d.selected);
      r := Ok(d);
    }
  }

  lemma NothingSplit()
    ensures Split([], [], []) && Unchanged([], [], [])
  {
  }

  lemma SplitPermuted(raw: seq<Candidate>, scored: seq<Candidate>, rejected: seq<Candidate>, ranked: seq<Candidate>)
    requires Split(raw, scored, rejected) && Ranked(ranked) && |ranked| == |scored| && forall x :: x in ranked <==> x in scored
    ensures Split(raw, ranked, rejected)
    ensures Unchanged(raw, scored, rejected) ==> Unchanged(raw, ranked, rejected)
  {
    assert Identities(ranked) == Identities(scored);
    RankedAreDistinct(ranked, scored);
  }

  lemma RankedAreDistinct(ranked: seq<Candidate>, scored: seq<Candidate>)
    requires Distinct(scored) && Ranked(ranked) && forall x :: x in ranked ==> x in scored
    ensures Distinct(ranked)
  {
    forall a, b | 0 <= a < b < |ranked| ensures ranked[a].Identity() != ranked[b].Identity() {
      BetterIsStrict(ranked[a], ranked[b]);
      assert ranked[a] in scored && ranked[b] in scored;
      hide Better;
      var i :| 0 <= i < |scored| && scored[i] == ranked[a];
      var j :| 0 <= j < |scored| && scored[j] == ranked[b];
      assert i != j;
    }
  }

  lemma SelectedAreRaw(raw: seq<Candidate>, ranked: seq<Candidate>, rejected: seq<Candidate>, selected: seq<Candidate>)
    requires Split(raw, ranked, rejected) && selected <= ranked
    ensures Distinct(selected) && forall x :: x in selected ==> x.Identity() in Identities(raw)
  {
    forall x | x in selected ensures x.Identity() in Identities(raw) {
      assert x in ranked && x.Identity() in Identities(ranked);
    }
  }

  // ---------------------------------------------------------------- the round loop

  /** What the tools report after the decisions so far, whether the next plan has steps, whether the user has cancelled. */
  datatype World = World(evidence: seq<Decision> -> seq<Observation>, hasSteps: seq<Decision> -> bool, cancelled: seq<Decision> -> bool)

  /** No candidate is selected in two rounds, nor twice in one. */
  predicate NeverTwice(rounds: seq<Decision>) {
    && (forall i :: 0 <= i < |rounds| ==> Distinct(rounds[i].selected))
    && (forall i, j, x, y :: 0 <= i < j < |rounds| && x in rounds[i].selected && y in rounds[j].selected ==> x.Identity() != y.Identity())
  }

  ghost predicate AllMarked(rounds: seq<Decision>, completed: set<string>) {
    forall i, x :: 0 <= i < |rounds| && x in rounds[i].selected ==> x.Identity() in completed
  }

  method MarkAll(v: Vector, selected: seq<Candidate>)
    modifies v`completed
    ensures v.completed == old(v.completed) + Identities(selected)
  {
    for k := 0 to |selected|
      invariant v.completed == old(v.completed) + Identities(selected[..k])
    {
      assert selected[..k + 1] == selected[..k] + [selected[k]];
      SnocIdentities(selected[..k], selected[k]);
      v.MarkCompleted(selected[k]);
    }
    assert selected[..|selected|] == selected;
  }

  /** What Vector knows after some rounds, when round k is fed the evidence of the decisions before it. */
  function MemoryAfter(m: Memory, evidence: seq<Decision> -> seq<Observation>, rounds: seq<Decision>): Memory {
    if rounds == [] then m
    else
      var before := rounds[..|rounds| - 1];
      Absorbed(MemoryAfter(m, evidence, before), evidence(before)).memory
  }

  function RevisionAfter(revision: nat, rounds: seq<Decision>): nat {
    if rounds == [] then revision else rounds[|rounds| - 1].delta.revision
  }

  /** The identities selected in some rounds. */
  function SelectedIn(rounds: seq<Decision>): set<string> {
    if rounds == [] then {} else SelectedIn(rounds[..|rounds| - 1]) + Identities(rounds[|rounds| - 1].selected)
  }

  /** How an investigation starts. */
  datatype Opening = Opening(memory: Memory, revision: nat, completed: set<string>)

  /** Decision k is the one taken on all evidence up to then, with everything selected before it completed. */
  ghost predicate RoundHeld(v: Vector, from: Opening, world: World, rounds: seq<Decision>, k: nat)
    requires v.resolver.Valid() && k < |rounds|
    reads v.resolver
  {
    var before, d := rounds[..k], rounds[k];
    var m, os := MemoryAfter(from.memory, world.evidence, before), world.evidence(before);
    && AllReadable(os)
    && d.cycle == k + 1
    && Noticed(m, RevisionAfter(from.revision, before), os, d.delta)
    && Decided(v.goal, v.policy, v.resolver, Absorbed(m, os).memory, from.completed + SelectedIn(before), d)
  }

  ghost predicate RoundsHeld(v: Vector, from: Opening, world: World, rounds: seq<Decision>)
    requires v.resolver.Valid()
    reads v.resolver
  {
    forall k: nat :: k < |rounds| ==> RoundHeld(v, from, world, rounds, k)
  }

  /** Nobody had cancelled when a round began, and there was budget for it. */
  predicate MayHold(limit: int, world: World, before: seq<Decision>) {
    |before| < limit && !world.cancelled(before)
  }

  /** The last round selected something, and its plan has steps. */
  predicate GoesOn(world: World, rounds: seq<Decision>) {
    rounds != [] ==> rounds[|rounds| - 1].selected != [] && world.hasSteps(rounds)
  }

  predicate AllAllowed(limit: int, world: World, rounds: seq<Decision>) {
    forall k: nat :: k < |rounds| ==> MayHold(limit, world, rounds[..k]) && GoesOn(world, rounds[..k])
  }

  /**
   * The rounds so far: each was held on the evidence before it and was allowed to begin, exactly what they selected is
   * completed besides what was so at the start, and nothing was selected that was completed or selected before.
   */
  ghost predicate Course(v: Vector, from: Opening, limit: int, world: World, rounds: seq<Decision>, completed: set<string>)
    requires v.resolver.Valid()
    reads v.resolver
  {
    && RoundsHeld(v, from, world, rounds) && AllAllowed(limit, world, rounds)
    && completed == from.completed + SelectedIn(rounds)
    && NeverTwice(rounds) && AllMarked(rounds, completed)
    && forall d, x :: d in rounds && x in d.selected ==> x.Identity() !in from.completed
  }

  /** Why it ended: no further round was due, or one was and its evidence could not be read. */
  ghost predicate Ended(start: Memory, limit: int, world: World, rounds: seq<Decision>, now: Memory, r: Result<seq<Decision>, nat>) {
    var m, due := MemoryAfter(start, world.evidence, rounds), MayHold(limit, world, rounds) && GoesOn(world, rounds);
    match r
    case Ok(decisions) => decisions == rounds && !due && now == m
    case Err(k) => due && Unreadable(m, world.evidence(rounds), k, now)
  }

  /**
   * Rounds of observing, deciding and executing. Every round is decided on all evidence so far, follows one that
   * selected something and whose plan had steps, and begins while nobody has cancelled and there is budget. The loop
   * ends exactly when one of these fails, or when the evidence cannot be read, which raises.
   */
  method Investigate(v: Vector, limit: int, world: World) returns (r: Result<seq<Decision>, nat>)
    requires v.Valid() && v.decisions == []
    modifies v, v.state
    ensures v.Valid()
    ensures Course(v, old(Opening(v.state.View(), v.state.revision, v.completed)), limit, world, v.decisions, v.completed)
    ensures Ended(old(v.state.View()), limit, world, v.decisions, v.state.View(), r)
    ensures v.state.revision == RevisionAfter(old(v.state.revision), v.decisions)
    ensures v.decisions == [] <==> limit < 1 || world.cancelled([]) || !AllReadable(world.evidence([]))
  {
    ghost var from := Opening(v.state.View(), v.state.revision, v.completed);
    var number := 1;
    hide VectorState.Valid, Resolver.Valid, Distinct, RoundsHeld, RoundHeld, Absorbed, Decided, Noticed, AllAllowed;
    hide MemoryAfter, RevisionAfter, SelectedIn, NeverTwice, AllMarked, AllReadable, Course, Unreadable, Ended;
    NothingHeld(v, from, limit, world);
    while number <= limit && !world.cancelled(v.decisions)
      invariant v.Valid() && |v.decisions| == number - 1
      invariant Course(v, from, limit, world, v.decisions, v.completed) && GoesOn(world, v.decisions)
      invariant CaughtUp(from, world, v.decisions, v.state.View(), v.state.revision)
    {
      var round := HoldRound(v, from, limit, world);
      if round.Err? {
        EndsUnread(v, from, limit, world, v.decisions, v.completed, v.state.View(), round.error);
        return Err(round.error);
      }
      if round.value.selected == [] {
        assert v.completed + Identities([]) == v.completed;
        break;
      }
      MarkAll(v, round.value.selected);
      if !world.hasSteps(v.decisions) { break; }
      number := number + 1;
    }
    EndsHere(v, from, limit, world, v.decisions, v.completed);
    r := Ok(v.decisions);
  }

  /** The memory and the revision are those of the decisions so far. */
  predicate CaughtUp(from: Opening, world: World, rounds: seq<Decision>, m: Memory, revision: nat) {
    m == MemoryAfter(from.memory, world.evidence, rounds) && revision == RevisionAfter(from.revision, rounds)
  }

  /** Observe the evidence of the decisions so far and decide; nothing is marked yet. */
  method HoldRound(v: Vector, ghost from: Opening, ghost limit: int, world: World) returns (round: Result<Decision, nat>)
    requires v.Valid() && Course(v, from, limit, world, v.decisions, v.completed)
    requires CaughtUp(from, world, v.decisions, v.state.View(), v.state.revision)
    requires MayHold(limit, world, v.decisions) && GoesOn(world, v.decisions)
    modifies v`cycle, v`decisions, v.state
    ensures v.Valid()
    ensures round.Ok? ==> v.decisions == old(v.decisions) + [round.value]
    ensures round.Ok? ==>
              && Course(v, from, limit, world, v.decisions, v.completed + Identities(round.value.selected))
              && CaughtUp(from, world, v.decisions, v.state.View(), v.state.revision)
    ensures round.Err? ==>
              var os := world.evidence(v.decisions);
              && v.decisions == old(v.decisions) && v.state.revision == old(v.state.revision)
              && Unreadable(MemoryAfter(from.memory, world.evidence, v.decisions), os, round.error, v.state.View())
  {
    hide VectorState.Valid, Resolver.Valid, Distinct, RoundsHeld, RoundHeld, Absorbed, Decided, Noticed, AllAllowed;
    hide MemoryAfter, RevisionAfter, SelectedIn, NeverTwice, AllMarked, AllReadable, Identities, MayHold, GoesOn;
    ghost var before, done := v.decisions, v.completed;
    round := v.Observe(world.evidence(v.decisions));
    if round.Ok? {
      OneMoreRound(before, round.value, done);
      HeldNow(v, from, world, before, round.value);
      OneMoreHeld(v, from, limit, world, before, round.value);
    }
  }

  lemma NothingHeld(v: Vector, from: Opening, limit: int, world: World)
    requires v.resolver.Valid()
    ensures Course(v, from, limit, world, [], from.completed) && CaughtUp(from, world, [], from.memory, from.revision)
  {
  }

  /** No decision is made exactly without budget, when cancelled at the start, or when the first evidence is unreadable. */
  lemma FirstRound(v: Vector, from: Opening, limit: int, world: World, rounds: seq<Decision>, completed: set<string>,
                   now: Memory, r: Result<seq<Decision>, nat>)
    requires v.resolver.Valid() && Course(v, from, limit, world, rounds, completed)
    requires Ended(from.memory, limit, world, rounds, now, r)
    ensures rounds == [] <==> limit < 1 || world.cancelled([]) || !AllReadable(world.evidence([]))
  {
    hide Resolver.Valid, Decided, Noticed, Absorbed, NeverTwice, AllMarked;
    if rounds != [] {
      assert rounds[..0] == [];
      assert MayHold(limit, world, rounds[..0]) && RoundHeld(v, from, world, rounds, 0);
    }
  }

  lemma EndsHere(v: Vector, from: Opening, limit: int, world: World, rounds: seq<Decision>, completed: set<string>)
    requires v.resolver.Valid() && Course(v, from, limit, world, rounds, completed)
    requires !MayHold(limit, world, rounds) || !GoesOn(world, rounds)
    ensures Ended(from.memory, limit, world, rounds, MemoryAfter(from.memory, world.evidence, rounds), Ok(rounds))
    ensures rounds == [] <==> limit < 1 || world.cancelled([]) || !AllReadable(world.evidence([]))
  {
    hide Resolver.Valid, Course, MayHold, GoesOn, AllReadable, MemoryAfter;
    FirstRound(v, from, limit, world, rounds, completed, MemoryAfter(from.memory, world.evidence, rounds), Ok(rounds));
  }

  lemma EndsUnread(v: Vector, from: Opening, limit: int, world: World, rounds: seq<Decision>, completed: set<string>,
                   now: Memory, k: nat)
    requires v.resolver.Valid() && Course(v, from, limit, world, rounds, completed)
    requires MayHold(limit, world, rounds) && GoesOn(world, rounds)
    requires Unreadable(MemoryAfter(from.memory, world.evidence, rounds), world.evidence(rounds), k, now)
    ensures Ended(from.memory, limit, world, rounds, now, Err(k))
    ensures rounds == [] <==> limit < 1 || world.cancelled([]) || !AllReadable(world.evidence([]))
  {
    hide Resolver.Valid, Course, MayHold, GoesOn, AllReadable, MemoryAfter, Unreadable;
    FirstRound(v, from, limit, world, rounds, completed, now, Err(k));
  }

  lemma HeldNow(v: Vector, from: Opening, world: World, before: seq<Decision>, d: Decision)
    requires v.resolver.Valid() && AllReadable(world.evidence(before)) && d.cycle == |before| + 1
    requires var m, os := MemoryAfter(from.memory, world.evidence, before), world.evidence(before);
             && Noticed(m, RevisionAfter(from.revision, before), os, d.delta)
             && Decided(v.goal, v.policy, v.resolver, Absorbed(m, os).memory, from.completed + SelectedIn(before), d)
    ensures RoundHeld(v, from, world, before + [d], |before|)
    ensures MemoryAfter(from.memory, world.evidence, before + [d])
         == Absorbed(MemoryAfter(from.memory, world.evidence, before), world.evidence(before)).memory
    ensures RevisionAfter(from.revision, before + [d]) == d.delta.revision
    ensures SelectedIn(before + [d]) == SelectedIn(before) + Identities(d.selected)
  {
    hide Resolver.Valid, Decided, Noticed, Absorbed, AllReadable;
    assert (before + [d])[..|before|] == before;
  }

  lemma OneMoreHeld(v: Vector, from: Opening, limit: int, world: World, before: seq<Decision>, d: Decision)
    requires v.resolver.Valid() && RoundsHeld(v, from, world, before) && AllAllowed(limit, world, before)
    requires RoundHeld(v, from, world, before + [d], |before|)
    requires MayHold(limit, world, before) && GoesOn(world, before)
    ensures RoundsHeld(v, from, world, before + [d]) && AllAllowed(limit, world, before + [d])
  {
    hide MayHold, GoesOn, Resolver.Valid, Decided, Noticed, Absorbed, AllReadable;
    var rounds := before + [d];
    forall k: nat | k < |rounds|
      ensures RoundHeld(v, from, world, rounds, k) && MayHold(limit, world, rounds[..k]) && GoesOn(world, rounds[..k]) {
      if k < |before| {
        assert RoundHeld(v, from, world, before, k);
        assert rounds[..k] == before[..k];
      } else {
        assert rounds[..k] == before;
      }
    }
  }

  lemma OneMoreRound(rounds: seq<Decision>, d: Decision, completed: set<string>)
    requires NeverTwice(rounds) && AllMarked(rounds, completed)
    requires Distinct(d.selected) && forall x :: x in d.selected ==> x.Identity() !in completed
    ensures NeverTwice(rounds + [d])
    ensures AllMarked(rounds + [d], completed + Identities(d.selected))
  {
    hide Distinct;
  }
}
