/** Execution groups expressed as dependency edges: _attach_wave_dependencies of blackline/engine/planner.py. */
module WaveEdges {
  import opened PlanModel
  import Ordering
  import Graph
  import PlanGroups
  import ScheduleMachine

  // ---------------------------------------------------------------- the edges

  /** The elements of `a` that also stand in `b`. */
  function Common(a: seq<string>, b: seq<string>): (c: seq<string>)
    ensures forall x :: x in c <==> x in a && x in b
  {
    if a == [] then [] else if a[0] in b then [a[0]] + Common(a[1..], b) else Common(a[1..], b)
  }

  function Edge(step: PlanStep, upstream: PlanStep): StepDependency {
    StepDependency(upstream.Identity(), Ordering.SortedStrings(Common(step.consumes, upstream.produces)), true)
  }

  /** The edges of a step to those of the first n steps that stand in a smaller group. */
  function Edges(steps: seq<PlanStep>, step: PlanStep, n: nat): seq<StepDependency>
    requires n <= |steps|
  {
    if n == 0 then []
    else Edges(steps, step, n - 1) +
         if steps[n - 1].executionGroup < step.executionGroup then [Edge(step, steps[n - 1])] else []
  }

  function Attached(steps: seq<PlanStep>, step: PlanStep): PlanStep {
    if step.dependsOn != [] || step.executionGroup <= 0 then step
    else step.(dependsOn := Edges(steps, step, |steps|))
  }

  predicate IsAttached(steps: seq<PlanStep>, planned: seq<PlanStep>) {
    |planned| == |steps| && forall i :: 0 <= i < |steps| ==> planned[i] == Attached(steps, steps[i])
  }

  method AttachWaveDependencies(steps: seq<PlanStep>) returns (planned: seq<PlanStep>)
    ensures IsAttached(steps, planned)
  {
    planned := [];
    for i := 0 to |steps|
      invariant |planned| == i && forall k :: 0 <= k < i ==> planned[k] == Attached(steps, steps[k])
    {
      var step := steps[i];
      if step.dependsOn != [] || step.executionGroup <= 0 {
        planned := planned + [step];
      } else {
        var dependencies := [];
        for n := 0 to |steps|
          invariant dependencies == Edges(steps, step, n)
        {
          if steps[n].executionGroup < step.executionGroup {
            dependencies := dependencies + [Edge(step, steps[n])];
          }
        }
        planned := planned + [step.(dependsOn := dependencies)];
      }
    }
  }

  /** One edge for each step of a smaller group, demanding the kinds the one produces and the other consumes. */
  lemma {:induction false} EdgesAre(steps: seq<PlanStep>, step: PlanStep, n: nat)
    requires n <= |steps|
    ensures forall d :: d in Edges(steps, step, n) <==>
                        exists j :: 0 <= j < n && steps[j].executionGroup < step.executionGroup && d == Edge(step, steps[j])
    ensures forall d :: d in Edges(steps, step, n) ==> d.optional
  {
    if n > 0 { EdgesAre(steps, step, n - 1); }
  }

  // ---------------------------------------------------------------- the plan is preserved

  predicate NoExplicitDependencies(steps: seq<PlanStep>) {
    forall i :: 0 <= i < |steps| ==> steps[i].dependsOn == []
  }

  /** The groups that the edges can tell apart: those up to zero are one. */
  function WaveGroup(step: PlanStep): int {
    if step.executionGroup > 0 then step.executionGroup else 0
  }

  /** Attaching edges changes nothing but the dependencies, and leaves identities and known dependencies alone. */
  lemma StillKnown(steps: seq<PlanStep>, planned: seq<PlanStep>)
    requires IsAttached(steps, planned)
    ensures UniqueIds(planned) <==> UniqueIds(steps)
    ensures KnownDependencies(planned) <==> KnownDependencies(steps)
    ensures forall i :: 0 <= i < |steps| ==> planned[i].(dependsOn := steps[i].dependsOn) == steps[i]
  {
    assert forall i :: 0 <= i < |steps| ==> planned[i].Identity() == steps[i].Identity();
    forall name ensures HasIdentity(planned, name) <==> HasIdentity(steps, name) {
      if j :| 0 <= j < |steps| && steps[j].Identity() == name {
        assert planned[j].Identity() == name;
      }
    }
    hide HasIdentity;
    forall i | 0 <= i < |steps| ensures KnownTo(planned[i], steps) <==> KnownTo(steps[i], steps) {
      NewEdgesAreKnown(steps, steps[i]);
    }
    assert forall i :: 0 <= i < |steps| ==> (KnownTo(planned[i], planned) <==> KnownTo(planned[i], steps));
    KnownStepByStep(steps);
    KnownStepByStep(planned);
  }

  predicate KnownTo(step: PlanStep, steps: seq<PlanStep>) {
    forall d :: d in step.dependsOn ==> HasIdentity(steps, d.stepId)
  }

  lemma KnownStepByStep(steps: seq<PlanStep>)
    ensures KnownDependencies(steps) <==> forall i :: 0 <= i < |steps| ==> KnownTo(steps[i], steps)
  {
  }

  lemma NewEdgesAreKnown(steps: seq<PlanStep>, step: PlanStep)
    ensures KnownTo(Attached(steps, step), steps) <==> KnownTo(step, steps)
  {
    EdgesAre(steps, step, |steps|);
    forall d | d in Edges(steps, step, |steps|) ensures HasIdentity(steps, d.stepId) {
      var j :| 0 <= j < |steps| && d == Edge(step, steps[j]);
    }
  }

  lemma DependsOnLowerGroups(steps: seq<PlanStep>, planned: seq<PlanStep>, i: nat, j: nat)
    requires IsAttached(steps, planned) && UniqueIds(steps) && i < |steps| && j < |steps| && steps[i].dependsOn == []
    ensures DependsOn(planned, i, j) <==> WaveGroup(steps[j]) < WaveGroup(steps[i])
  {
    EdgesAre(steps, steps[i], |steps|);
    assert planned[j].Identity() == steps[j].Identity();
    if DependsOn(planned, i, j) {
      var d :| d in planned[i].dependsOn && d.stepId == planned[j].Identity();
      var k :| 0 <= k < |steps| && steps[k].executionGroup < steps[i].executionGroup && d == Edge(steps[i], steps[k]);
      assert k == j;
    }
    if WaveGroup(steps[j]) < WaveGroup(steps[i]) {
      assert Edge(steps[i], steps[j]) in planned[i].dependsOn;
    }
  }

  /** The attached edges alone never close a cycle: a cycle needs a step with dependencies of its own. */
  lemma EdgesAreAcyclic(steps: seq<PlanStep>, planned: seq<PlanStep>, c: seq<nat>)
    requires IsAttached(steps, planned) && UniqueIds(steps) && Graph.Cycle(planned, c)
    ensures exists k :: 0 <= k < |c| && c[k] < |steps| && steps[c[k]].dependsOn != []
  {
    if forall k :: 0 <= k < |c| ==> steps[c[k]].dependsOn == [] {
      forall k, m | 0 <= k < m < |c| && m == k + 1 ensures WaveGroup(steps[c[m]]) < WaveGroup(steps[c[k]]) {
        DependsOnLowerGroups(steps, planned, c[k], c[m]);
      }
      GroupsDescend(steps, c, |c| - 1);
      DependsOnLowerGroups(steps, planned, c[|c| - 1], c[0]);
      assert false;
    }
  }

  lemma {:induction false} GroupsDescend(steps: seq<PlanStep>, c: seq<nat>, k: nat)
    requires k < |c| && forall m :: 0 <= m < |c| ==> c[m] < |steps|
    requires forall a, b :: 0 <= a < b < |c| && b == a + 1 ==> WaveGroup(steps[c[b]]) < WaveGroup(steps[c[a]])
    ensures WaveGroup(steps[c[k]]) <= WaveGroup(steps[c[0]])
  {
    if k > 0 { GroupsDescend(steps, c, k - 1); }
  }

  // ---------------------------------------------------------------- exactly when the edges close a cycle

  /** A step to which the planner attaches edges. */
  predicate Free(steps: seq<PlanStep>, i: nat)
    requires i < |steps|
  {
    steps[i].dependsOn == [] && steps[i].executionGroup > 0
  }

  /** The dependencies of the plan itself lead from a step to a free step of a larger group. */
  ghost predicate LeadsUp(steps: seq<PlanStep>, d: seq<nat>) {
    && Graph.Chain(steps, d)
    && Free(steps, d[|d| - 1])
    && steps[d[0]].executionGroup < steps[d[|d| - 1]].executionGroup
  }

  /** A free step depends exactly on the steps of smaller groups, any other step as it did before. */
  lemma AttachedDependencies(steps: seq<PlanStep>, planned: seq<PlanStep>, i: nat, j: nat)
    requires IsAttached(steps, planned) && UniqueIds(steps) && i < |steps| && j < |steps|
    ensures DependsOn(planned, i, j) <==>
              if Free(steps, i) then steps[j].executionGroup < steps[i].executionGroup else DependsOn(steps, i, j)
  {
    if Free(steps, i) {
      DependsOnLowerGroups(steps, planned, i, j);
      hide DependsOn;
    } else {
      assert planned[i] == steps[i] && planned[j].Identity() == steps[j].Identity();
    }
  }

  /** Such a chain becomes a cycle: its last step gets an edge to its first. */
  lemma LeadingUpCloses(steps: seq<PlanStep>, planned: seq<PlanStep>, d: seq<nat>)
    requires IsAttached(steps, planned) && UniqueIds(steps) && LeadsUp(steps, d)
    ensures Graph.Cycle(planned, d)
  {
    hide DependsOn, UniqueIds, IsAttached;
    SameCount(steps, planned);
    AttachedDependencies(steps, planned, d[|d| - 1], d[0]);
    forall k, m | 0 <= k < m < |d| && m == k + 1 ensures DependsOn(planned, d[k], d[m]) {
      AttachedDependencies(steps, planned, d[k], d[m]);
      if Free(steps, d[k]) { FreeHasNone(steps, d[k], d[m]); }
    }
  }

  lemma SameCount(steps: seq<PlanStep>, planned: seq<PlanStep>)
    requires IsAttached(steps, planned)
    ensures |planned| == |steps|
  {
  }

  lemma FreeHasNone(steps: seq<PlanStep>, i: nat, j: nat)
    requires i < |steps| && j < |steps| && Free(steps, i)
    ensures !DependsOn(steps, i, j)
  {
  }

  /** A cycle may be entered anywhere. */
  lemma Rotated(steps: seq<PlanStep>, c: seq<nat>, p: nat)
    requires Graph.Cycle(steps, c) && p < |c|
    ensures var r := c[p + 1..] + c[..p + 1];
            Graph.Cycle(steps, r) && |r| == |c| && r[|r| - 1] == c[p] && forall x :: x in r <==> x in c
  {
    hide DependsOn;
    var r := c[p + 1..] + c[..p + 1];
    forall k | 0 <= k < |r| ensures r[k] == c[if k + p + 1 < |c| then k + p + 1 else k + p + 1 - |c|] {
    }
    assert c == c[..p + 1] + c[p + 1..];
  }

  predicate InSteps(steps: seq<PlanStep>, c: seq<nat>) {
    forall k :: 0 <= k < |c| ==> c[k] < |steps|
  }

  predicate NoneFree(steps: seq<PlanStep>, c: seq<nat>)
    requires InSteps(steps, c)
  {
    forall k :: 0 <= k < |c| ==> !Free(steps, c[k])
  }

  /** The place of a free step of greatest group, if there is a free step. */
  lemma {:induction false} GreatestFree(steps: seq<PlanStep>, c: seq<nat>) returns (p: nat)
    requires InSteps(steps, c) && !NoneFree(steps, c)
    ensures p < |c| && Free(steps, c[p])
    ensures forall k :: 0 <= k < |c| && Free(steps, c[k]) ==> steps[c[k]].executionGroup <= steps[c[p]].executionGroup
  {
    var front, last := c[..|c| - 1], c[|c| - 1];
    if NoneFree(steps, front) {
      p := |front|;
      assert forall k :: 0 <= k < |front| ==> !Free(steps, front[k]);
    } else {
      p := GreatestFree(steps, front);
      assert forall k :: 0 <= k < |front| ==> c[k] == front[k];
      if Free(steps, last) && steps[last].executionGroup > steps[c[p]].executionGroup { p := |front|; }
    }
  }

  /** How many steps at the front end with the last free step among them. */
  function UpToLastFree(steps: seq<PlanStep>, c: seq<nat>): (n: nat)
    requires InSteps(steps, c)
    ensures n <= |c| && (n > 0 ==> Free(steps, c[n - 1])) && forall k :: n <= k < |c| ==> !Free(steps, c[k])
  {
    if c == [] then 0 else if Free(steps, c[|c| - 1]) then |c| else UpToLastFree(steps, c[..|c| - 1])
  }

  /**
   * In a cycle that ends with a free step of greatest group, the dependencies from behind the last free step before
   * it lead up to it.
   */
  lemma CycleLeadsUp(steps: seq<PlanStep>, planned: seq<PlanStep>, c: seq<nat>) returns (d: seq<nat>)
    requires IsAttached(steps, planned) && UniqueIds(steps) && Graph.Cycle(planned, c) && InSteps(steps, c)
    requires Free(steps, c[|c| - 1])
    requires forall k :: 0 <= k < |c| && Free(steps, c[k]) ==> steps[c[k]].executionGroup <= steps[c[|c| - 1]].executionGroup
    ensures LeadsUp(steps, d)
  {
    hide DependsOn, UniqueIds, IsAttached, Free;
    SameCount(steps, planned);
    var last := |c| - 1;
    var q := UpToLastFree(steps, c[..last]);
    d := c[q..];
    AttachedDependencies(steps, planned, c[if q > 0 then q - 1 else last], d[0]);
    assert q > 0 ==> c[..last][q - 1] == c[q - 1];
    forall k, m | 0 <= k < m < |d| && m == k + 1 ensures DependsOn(steps, d[k], d[m]) {
      assert d[k] == c[q + k] && d[m] == c[q + m] && c[..last][q + k] == c[q + k];
      AttachedDependencies(steps, planned, d[k], d[m]);
    }
  }

  /** A cycle without a free step was there before. */
  lemma OldCycle(steps: seq<PlanStep>, planned: seq<PlanStep>, c: seq<nat>)
    requires IsAttached(steps, planned) && UniqueIds(steps) && Graph.Cycle(planned, c)
    requires InSteps(steps, c) && NoneFree(steps, c)
    ensures Graph.Cycle(steps, c)
  {
    hide DependsOn, UniqueIds, IsAttached, Free;
    SameCount(steps, planned);
    AttachedDependencies(steps, planned, c[|c| - 1], c[0]);
    forall k, m | 0 <= k < m < |c| && m == k + 1 ensures DependsOn(steps, c[k], c[m]) {
      AttachedDependencies(steps, planned, c[k], c[m]);
    }
  }

  /** A cycle of the plan itself stays. */
  lemma CycleStays(steps: seq<PlanStep>, planned: seq<PlanStep>, c: seq<nat>)
    requires IsAttached(steps, planned) && UniqueIds(steps) && Graph.Cycle(steps, c)
    ensures Graph.Cycle(planned, c)
  {
    hide DependsOn, UniqueIds, IsAttached, Free;
    SameCount(steps, planned);
    AttachedDependencies(steps, planned, c[|c| - 1], c[0]);
    if Free(steps, c[|c| - 1]) { FreeHasNone(steps, c[|c| - 1], c[0]); }
    forall k, m | 0 <= k < m < |c| && m == k + 1 ensures DependsOn(planned, c[k], c[m]) {
      AttachedDependencies(steps, planned, c[k], c[m]);
      if Free(steps, c[k]) { FreeHasNone(steps, c[k], c[m]); }
    }
  }

  /**
   * The attached plan is cyclic exactly when the plan was, or its dependencies lead from some step to a free step of a
   * larger group. So planning is refused exactly for plans that are invalid already and for plans with such a chain.
   */
  lemma EdgesCycleIff(steps: seq<PlanStep>, planned: seq<PlanStep>)
    requires IsAttached(steps, planned) && UniqueIds(steps)
    ensures (exists c :: Graph.Cycle(planned, c)) <==> (exists c :: Graph.Cycle(steps, c)) || exists d :: LeadsUp(steps, d)
    ensures Graph.Valid(planned) <==> Graph.Valid(steps) && forall d :: !LeadsUp(steps, d)
  {
    StillKnown(steps, planned);
    hide Graph.Cycle, LeadsUp, UniqueIds, IsAttached, KnownDependencies;
    if c :| Graph.Cycle(steps, c) { CycleStays(steps, planned, c); }
    if d :| LeadsUp(steps, d) { LeadingUpCloses(steps, planned, d); }
    if c :| Graph.Cycle(planned, c) && !Graph.Cycle(steps, c) {
      var d := NewCycleLeadsUp(steps, planned, c);
      assert LeadsUp(steps, d);
    }
  }

  lemma NewCycleLeadsUp(steps: seq<PlanStep>, planned: seq<PlanStep>, c: seq<nat>) returns (d: seq<nat>)
    requires IsAttached(steps, planned) && UniqueIds(steps) && Graph.Cycle(planned, c) && !Graph.Cycle(steps, c)
    ensures LeadsUp(steps, d)
  {
    hide LeadsUp, UniqueIds, IsAttached, Free, DependsOn;
    SameCount(steps, planned);
    assert InSteps(steps, c);
    if NoneFree(steps, c) { OldCycle(steps, planned, c); }
    var p := GreatestFree(steps, c);
    Rotated(planned, c, p);
    var r := c[p + 1..] + c[..p + 1];
    forall k | 0 <= k < |r| && Free(steps, r[k]) ensures steps[r[k]].executionGroup <= steps[c[p]].executionGroup {
      assert r[k] in c;
      var j :| 0 <= j < |c| && c[j] == r[k];
    }
    d := CycleLeadsUp(steps, planned, r);
  }

  /** An instance: the planner's edges turn this valid plan into a cyclic one. */
  lemma ExplicitDependenciesCanCycle() returns (steps: seq<PlanStep>, planned: seq<PlanStep>)
    ensures IsAttached(steps, planned) && UniqueIds(steps) && KnownDependencies(steps)
    ensures forall c :: !Graph.Cycle(steps, c)
    ensures LeadsUp(steps, [0, 1]) && Graph.Cycle(planned, [0, 1])
  {
    var noRetry := RetrySettings(1, 0, []);
    var a := PlanStep("a", "", "", 0, "a", [], [], [StepDependency("b", [], false)], noRetry);
    var b := PlanStep("b", "", "", 1, "b", [], [], [], noRetry);
    steps := [a, b];
    planned := [Attached(steps, a), Attached(steps, b)];
    assert Edge(b, a) in Edges(steps, b, 1) && Edges(steps, b, 2) == Edges(steps, b, 1);
    assert DependsOn(planned, 1, 0) by { assert Edge(b, a) in planned[1].dependsOn; }
    assert DependsOn(planned, 0, 1) by { assert a.dependsOn[0] in planned[0].dependsOn; }
    assert HasIdentity(steps, "b") by { assert steps[1].Identity() == "b"; }
    assert forall i: nat, j: nat :: i < 2 && j < 2 ==> (DependsOn(steps, i, j) <==> i == 0 && j == 1);
    forall c ensures !Graph.Cycle(steps, c) {
      hide DependsOn;
      assert |c| > 1 && c[0] < 2 && c[1] < 2 && DependsOn(steps, c[0], c[1]) ==> c[0] == 0;
    }
  }

  /** Any layering of the attached plan is exactly the grouping by ascending execution group. */
  lemma LayersAreGroups(steps: seq<PlanStep>, planned: seq<PlanStep>, waves: seq<seq<nat>>, level: map<nat, nat>)
    requires IsAttached(steps, planned) && UniqueIds(steps) && NoExplicitDependencies(steps)
    requires Graph.Layered(planned, waves, level)
    ensures PlanGroups.GroupedBy(steps, WaveGroup, waves, level)
  {
    Graph.AllPlaced(planned, waves, level);
    forall i, j | i in level && i < |steps| && j in level && j < |steps|
      ensures level[i] < level[j] <==> WaveGroup(steps[i]) < WaveGroup(steps[j])
    {
      LevelFollowsGroup(steps, planned, waves, level, i, j);
      LevelFollowsGroup(steps, planned, waves, level, j, i);
    }
    hide Graph.Earliest, Graph.Ascending, IsAttached;
  }

  lemma LevelFollowsGroup(steps: seq<PlanStep>, planned: seq<PlanStep>, waves: seq<seq<nat>>, level: map<nat, nat>,
                          i: nat, j: nat)
    requires IsAttached(steps, planned) && UniqueIds(steps) && NoExplicitDependencies(steps)
    requires Graph.Layered(planned, waves, level)
    requires i in level && i < |steps| && j in level && j < |steps|
    ensures WaveGroup(steps[i]) < WaveGroup(steps[j]) ==> level[i] < level[j]
    ensures WaveGroup(steps[i]) == WaveGroup(steps[j]) ==> level[i] <= level[j]
  {
    StillKnown(steps, planned);
    hide Graph.Layered, IsAttached, UniqueIds, DependsOn, Graph.Chain;
    DependsOnLowerGroups(steps, planned, j, i);
    if WaveGroup(steps[i]) < WaveGroup(steps[j]) {
      Graph.DependencyStandsEarlier(planned, waves, level, j, i);
    } else if WaveGroup(steps[i]) == WaveGroup(steps[j]) {
      var c := Graph.LongestChain(planned, waves, level, i);
      var c' := SameChain(steps, planned, c, j);
      Graph.ChainFits(planned, waves, level, c');
    }
  }

  /** A chain may as well start from another step of the same group. */
  lemma SameChain(steps: seq<PlanStep>, planned: seq<PlanStep>, c: seq<nat>, j: nat) returns (c': seq<nat>)
    requires IsAttached(steps, planned) && UniqueIds(steps) && NoExplicitDependencies(steps)
    requires Graph.Chain(planned, c) && j < |steps| && WaveGroup(steps[c[0]]) == WaveGroup(steps[j])
    ensures Graph.Chain(planned, c') && |c'| == |c| && c'[0] == j
  {
    if |c| > 1 {
      DependsOnLowerGroups(steps, planned, c[0], c[1]);
      DependsOnLowerGroups(steps, planned, j, c[1]);
    }
    StillKnown(steps, planned);
    hide DependsOn, IsAttached, UniqueIds, NoExplicitDependencies;
    c' := [j] + c[1..];
    assert forall k :: 0 < k < |c| ==> c'[k] == c[k];
  }

  /** Optional edges order steps but never cause one to be skipped. */
  lemma EdgesNeverSkip(steps: seq<PlanStep>, planned: seq<PlanStep>, i: nat, outcomes: map<string, StepResult>,
                       store: seq<Artifact>)
    requires IsAttached(steps, planned) && i < |steps|
    ensures ScheduleMachine.DependencySkip(planned[i], outcomes, store) ==
            ScheduleMachine.DependencySkip(steps[i], outcomes, store)
  {
    EdgesAre(steps, steps[i], |steps|);
  }

  /** Planning for execution groups: the edges are accepted, and their waves are the groups. */
  method PlanWaves(steps: seq<PlanStep>) returns (planned: seq<PlanStep>, waves: seq<seq<nat>>, ghost level: map<nat, nat>)
    requires UniqueIds(steps) && NoExplicitDependencies(steps)
    ensures IsAttached(steps, planned)
    ensures Graph.Layered(planned, waves, level) && PlanGroups.GroupedBy(steps, WaveGroup, waves, level)
  {
    planned := AttachWaveDependencies(steps);
    StillKnown(steps, planned);
    var r;
    r, level := Graph.DependencyWaves(planned);
    hide *;
    if r.Err? {
      NoDeadlock(steps, planned, r.error.blocked);
      assert false;
      waves := [];
    } else {
      waves := r.value;
      LayersAreGroups(steps, planned, waves, level);
    }
  }

  lemma NoDeadlock(steps: seq<PlanStep>, planned: seq<PlanStep>, blocked: seq<nat>)
    requires IsAttached(steps, planned) && UniqueIds(steps) && NoExplicitDependencies(steps)
    ensures !Graph.Deadlocked(planned, blocked)
  {
    StillKnown(steps, planned);
    if Graph.Deadlocked(planned, blocked) {
      Graph.StuckMeansCycle(planned, blocked);
      var c :| Graph.Cycle(planned, c) && forall k :: 0 <= k < |c| ==> c[k] in blocked;
      EdgesAreAcyclic(steps, planned, c);
    }
  }

  /** The scheduler sees the edges, and so follows the groups, exactly when two steps stand in different wave groups. */
  lemma EdgesExist(steps: seq<PlanStep>, planned: seq<PlanStep>)
    requires IsAttached(steps, planned) && NoExplicitDependencies(steps)
    ensures (exists i :: 0 <= i < |planned| && planned[i].dependsOn != []) <==>
            exists i, j :: 0 <= i < |steps| && 0 <= j < |steps| && WaveGroup(steps[i]) < WaveGroup(steps[j])
  {
    forall i | 0 <= i < |steps|
      ensures planned[i].dependsOn != [] <==> exists j :: 0 <= j < |steps| && WaveGroup(steps[j]) < WaveGroup(steps[i])
    {
      EdgesAre(steps, steps[i], |steps|);
      if planned[i].dependsOn != [] {
        assert planned[i].dependsOn[0] in planned[i].dependsOn;
      }
      if j :| 0 <= j < |steps| && WaveGroup(steps[j]) < WaveGroup(steps[i]) {
        assert Edge(steps[i], steps[j]) in planned[i].dependsOn;
      }
    }
  }
}
