/** From a plan to the groups that are run one after another: _plan_step_groups of blackline/engine/scheduler.py. */
module PlanGroups {
  import opened Results
  import opened PlanModel
  import Graph
  import Ordering
  import ScheduleMachine

  /** The execution group of a step, inferred from its tool when the plan gives none. */
  function EffectiveGroup(step: PlanStep): int {
    if step.executionGroup != 0 then step.executionGroup
    else if step.tool == "ipintel" then (if step.targetType == "ip" then 0 else 1)
    else if step.tool in {"fingerprint", "whatweb", "katana"} then 1
    else if step.tool == "rdap" then 2
    else if step.tool == "nmap" then (if step.targetType == "ip" then 1 else 2)
    else 0
  }

  /** A group that is given stays. Otherwise a step is in the last group, in the middle one, or in the first. */
  lemma InferredGroups(step: PlanStep)
    ensures step.executionGroup != 0 ==> EffectiveGroup(step) == step.executionGroup
    ensures step.executionGroup == 0 ==>
              && (EffectiveGroup(step) == 2 <==> step.tool == "rdap" || (step.tool == "nmap" && step.targetType != "ip"))
              && (EffectiveGroup(step) == 1 <==>
                    || step.tool in {"fingerprint", "whatweb", "katana"}
                    || (step.tool == "ipintel" && step.targetType != "ip") || (step.tool == "nmap" && step.targetType == "ip"))
              && EffectiveGroup(step) in {0, 1, 2}
  {
  }

  /** The groups hold the steps by ascending value of `key`, each in plan order. */
  ghost predicate GroupedBy(steps: seq<PlanStep>, key: PlanStep -> int, groups: seq<seq<nat>>, stage: map<nat, nat>) {
    && (forall i: nat :: i in stage <==> i < |steps|)
    && (forall i :: i in stage ==> stage[i] < |groups|)
    && (forall g, i :: 0 <= g < |groups| ==> (i in groups[g] <==> i in stage && stage[i] == g))
    && (forall g :: 0 <= g < |groups| ==> groups[g] != [] && Graph.Ascending(groups[g]))
    && (forall i, j :: i in stage && i < |steps| && j in stage && j < |steps| ==>
          (stage[i] < stage[j] <==> key(steps[i]) < key(steps[j])))
  }

  lemma LayeredIsStaged(steps: seq<PlanStep>, waves: seq<seq<nat>>, level: map<nat, nat>)
    requires Graph.Layered(steps, waves, level)
    ensures ScheduleMachine.Staged(steps, waves, level)
  {
    Graph.AllPlaced(steps, waves, level);
    forall i, d | i in level && i < |steps| && d in steps[i].dependsOn
      ensures ScheduleMachine.NamedBefore(steps, level, level[i], d.stepId)
    {
      assert d.stepId in Graph.Provided(steps, level, level[i]);
    }
    hide Graph.Earliest, Graph.Provided, Graph.Ready, Graph.Ascending;
  }

  lemma GroupedIsStaged(steps: seq<PlanStep>, key: PlanStep -> int, groups: seq<seq<nat>>, stage: map<nat, nat>)
    requires GroupedBy(steps, key, groups, stage) && forall i :: 0 <= i < |steps| ==> steps[i].dependsOn == []
    ensures ScheduleMachine.Staged(steps, groups, stage)
  {
    hide Graph.Ascending;
  }

  // ---------------------------------------------------------------- grouping by a key

  /** The indexes of the steps among the first n that have the given key: one entry of the dictionary of groups. */
  function Members(steps: seq<PlanStep>, key: PlanStep -> int, k: int, n: nat): (s: seq<nat>)
    requires n <= |steps|
    ensures Graph.Ascending(s) && forall i: nat :: i in s <==> i < n && key(steps[i]) == k
  {
    if n == 0 then []
    else
      var below := Members(steps, key, k, n - 1);
      Graph.AscendingSnoc(below, n - 1);
      if key(steps[n - 1]) == k then below + [n - 1] else below
  }

  /** The keys of the first n steps, each once, in the order of their first step: the dictionary's own key order. */
  function Keys(steps: seq<PlanStep>, key: PlanStep -> int, n: nat): (ks: seq<int>)
    requires n <= |steps|
    ensures forall i :: 0 <= i < n ==> key(steps[i]) in ks
    ensures forall k :: k in ks ==> exists i :: 0 <= i < n && key(steps[i]) == k
  {
    if n == 0 then []
    else
      var before, k := Keys(steps, key, n - 1), key(steps[n - 1]);
      if k in before then before else before + [k]
  }

  predicate Smaller(a: int, b: int) {
    a < b
  }

  method GroupBy(steps: seq<PlanStep>, key: PlanStep -> int) returns (groups: seq<seq<nat>>, ghost stage: map<nat, nat>)
    ensures GroupedBy(steps, key, groups, stage)
  {
    hide Members, Keys, GroupedBy, Graph.Ascending, Ordering.Increasing;
    var table: map<int, seq<nat>>, keys: seq<int> := map[], [];
    NoMembers(steps, key);
    for n := 0 to |steps|
      invariant Tabulated(steps, key, n, table, keys)
    {
      var k := key(steps[n]);
      NewMember(steps, key, n, table, keys);
      if k !in table { keys := keys + [k]; }
      table := table[k := (if k in table then table[k] else []) + [n]];
    }
    var order := Ordering.SortedSet(Smaller, keys);
    groups := [];
    for g := 0 to |order|
      invariant |groups| == g && forall h :: 0 <= h < g ==> groups[h] == Members(steps, key, order[h], |steps|)
    {
      assert order[g] in order;
      groups := groups + [table[order[g]]];
    }
    stage := IsGrouped(steps, key, order, groups);
  }

  /** The dictionary of groups and its keys after n steps. */
  ghost predicate Tabulated(steps: seq<PlanStep>, key: PlanStep -> int, n: nat, table: map<int, seq<nat>>, keys: seq<int>)
    requires n <= |steps|
  {
    && keys == Keys(steps, key, n)
    && (forall k :: k in table <==> k in keys)
    && (forall k :: k in table ==> table[k] == Members(steps, key, k, n))
  }

  lemma NoMembers(steps: seq<PlanStep>, key: PlanStep -> int)
    ensures Tabulated(steps, key, 0, map[], [])
  {
  }

  lemma NewMember(steps: seq<PlanStep>, key: PlanStep -> int, n: nat, table: map<int, seq<nat>>, keys: seq<int>)
    requires n < |steps| && Tabulated(steps, key, n, table, keys)
    ensures var k := key(steps[n]);
      Tabulated(steps, key, n + 1, table[k := (if k in table then table[k] else []) + [n]],
                if k in table then keys else keys + [k])
  {
    var k0 := key(steps[n]);
    var table', keys' := table[k0 := (if k0 in table then table[k0] else []) + [n]], if k0 in table then keys else keys + [k0];
    KeysGrow(steps, key, n);
    forall k | k in table' ensures table'[k] == Members(steps, key, k, n + 1) {
      MembersGrow(steps, key, k, n);
    }
    hide Keys, Members;
    assert keys' == Keys(steps, key, n + 1);
  }

  lemma MembersGrow(steps: seq<PlanStep>, key: PlanStep -> int, k: int, n: nat)
    requires n < |steps|
    ensures Members(steps, key, k, n + 1) == Members(steps, key, k, n) + if key(steps[n]) == k then [n] else []
    ensures k !in Keys(steps, key, n) ==> Members(steps, key, k, n) == []
  {
    var m := Members(steps, key, k, n);
    if m != [] { assert m[0] in m && key(steps[m[0]]) in Keys(steps, key, n); }
  }

  lemma KeysGrow(steps: seq<PlanStep>, key: PlanStep -> int, n: nat)
    requires n < |steps|
    ensures Keys(steps, key, n + 1)
         == Keys(steps, key, n) + if key(steps[n]) in Keys(steps, key, n) then [] else [key(steps[n])]
  {
  }

  lemma {:induction false} Positions(steps: seq<PlanStep>, key: PlanStep -> int, order: seq<int>, n: nat) returns (stage: map<nat, nat>)
    requires n <= |steps| && forall i :: 0 <= i < n ==> key(steps[i]) in order
    ensures forall i: nat :: i in stage <==> i < n
    ensures forall i: nat :: i < n ==> stage[i] < |order| && order[stage[i]] == key(steps[i])
  {
    stage := map[];
    if n > 0 {
      stage := Positions(steps, key, order, n - 1);
      var g: nat :| g < |order| && order[g] == key(steps[n - 1]);
      stage := stage[n - 1 := g];
    }
  }

  lemma IsGrouped(steps: seq<PlanStep>, key: PlanStep -> int, order: seq<int>, groups: seq<seq<nat>>) returns (stage: map<nat, nat>)
    requires Ordering.Increasing(Smaller, order) && (forall k :: k in order <==> k in Keys(steps, key, |steps|))
    requires |groups| == |order| && forall g :: 0 <= g < |order| ==> groups[g] == Members(steps, key, order[g], |steps|)
    ensures GroupedBy(steps, key, groups, stage)
  {
    hide Graph.Ascending, Keys, Members, Ordering.Increasing;
    forall i | 0 <= i < |steps| ensures key(steps[i]) in order {
      assert key(steps[i]) in Keys(steps, key, |steps|);
    }
    stage := Positions(steps, key, order, |steps|);
    forall g | 0 <= g < |groups| ensures groups[g] != [] && Graph.Ascending(groups[g]) {
      assert order[g] in order;
      var i: nat :| i < |steps| && key(steps[i]) == order[g];
      assert i in groups[g];
    }
    SameOrder(steps, key, order, stage);
    forall g, i: nat | 0 <= g < |groups| ensures i in groups[g] <==> i in stage && stage[i] == g {
      if i < |steps| && order[stage[i]] == order[g] { OnePlace(order, stage[i], g); }
    }
  }

  lemma OnePlace(order: seq<int>, a: nat, b: nat)
    requires Ordering.Increasing(Smaller, order) && a < |order| && b < |order| && order[a] == order[b]
    ensures a == b
  {
  }

  lemma SameOrder(steps: seq<PlanStep>, key: PlanStep -> int, order: seq<int>, stage: map<nat, nat>)
    requires Ordering.Increasing(Smaller, order)
    requires forall i: nat :: i in stage <==> i < |steps|
    requires forall i: nat :: i < |steps| ==> stage[i] < |order| && order[stage[i]] == key(steps[i])
    ensures forall i, j :: i in stage && i < |steps| && j in stage && j < |steps| ==>
              (stage[i] < stage[j] <==> key(steps[i]) < key(steps[j]))
  {
    forall i, j | i in stage && i < |steps| && j in stage && j < |steps|
      ensures stage[i] < stage[j] <==> key(steps[i]) < key(steps[j])
    {
      assert order[stage[i]] == key(steps[i]) && order[stage[j]] == key(steps[j]);
    }
  }

  // ---------------------------------------------------------------- the groups of a plan

  /** A plan with dependencies runs in dependency waves, a plan without any in execution groups. */
  method PlanStepGroups(steps: seq<PlanStep>) returns (r: Result<seq<seq<nat>>, Graph.PlanError>, ghost stage: map<nat, nat>)
    ensures r.Ok? ==> ScheduleMachine.Staged(steps, r.value, stage)
    ensures r.Ok? && (exists i :: 0 <= i < |steps| && steps[i].dependsOn != []) ==> Graph.Layered(steps, r.value, stage)
    ensures (forall i :: 0 <= i < |steps| ==> steps[i].dependsOn == []) ==>
              r.Ok? && GroupedBy(steps, EffectiveGroup, r.value, stage)
    ensures r.Err? ==> r.error.DependencyCycle? && Graph.Deadlocked(steps, r.error.blocked)
  {
    if exists i :: 0 <= i < |steps| && steps[i].dependsOn != [] {
      r, stage := Graph.DependencyWaves(steps);
      if r.Ok? { LayeredIsStaged(steps, r.value, stage); }
    } else {
      var groups;
      groups, stage := GroupBy(steps, EffectiveGroup);
      GroupedIsStaged(steps, EffectiveGroup, groups, stage);
      r := Ok(groups);
    }
  }

  /** The stage of a step can be read off the groups. */
  function FirstWith(groups: seq<seq<nat>>, i: nat): nat {
    if groups == [] || i in groups[0] then 0 else 1 + FirstWith(groups[1..], i)
  }

  function StageOf(groups: seq<seq<nat>>, n: nat): map<nat, nat> {
    map i: nat | i < n :: FirstWith(groups, i)
  }

  lemma {:induction false} FirstIsOnly(groups: seq<seq<nat>>, i: nat, g: nat)
    requires g < |groups| && i in groups[g] && forall h :: 0 <= h < g ==> i !in groups[h]
    ensures FirstWith(groups, i) == g
  {
    if g > 0 {
      FirstIsOnly(groups[1..], i, g - 1);
    }
  }

  lemma StageIsOfGroups(steps: seq<PlanStep>, groups: seq<seq<nat>>, stage: map<nat, nat>)
    requires ScheduleMachine.Staged(steps, groups, stage)
    ensures StageOf(groups, |steps|) == stage
  {
    forall i: nat | i < |steps| ensures FirstWith(groups, i) == stage[i] {
      FirstIsOnly(groups, i, stage[i]);
    }
  }
}
