/** Plan validation and wave construction: blackline/engine/graph.py. */
module Graph {
  import opened Results
  import opened PlanModel
  import Ordering

  datatype PlanError =
    | DuplicateIds
    | UnknownDependency(step: nat)
    | DependencyCycle(blocked: seq<nat>)

  // ---------------------------------------------------------------- layering

  predicate Ascending(s: seq<nat>) {
    forall a, b :: 0 <= a < b < |s| ==> s[a] < s[b]
  }

  predicate Ready(step: PlanStep, done: set<string>) {
    forall d :: d in step.dependsOn ==> d.stepId in done
  }

  /** The identities of the steps placed in waves below w. */
  ghost function Provided(steps: seq<PlanStep>, level: map<nat, nat>, w: nat): set<string> {
    set i | i in level && i < |steps| && level[i] < w :: steps[i].Identity()
  }

  /** `waves` hold the steps of `level`, each in the wave `level` gives it; `remaining` are the steps not placed. */
  ghost predicate Placed(steps: seq<PlanStep>, waves: seq<seq<nat>>, level: map<nat, nat>, remaining: seq<nat>) {
    && (forall i :: i in level ==> i < |steps| && level[i] < |waves|)
    && (forall w, i :: 0 <= w < |waves| ==> (i in waves[w] <==> i in level && level[i] == w))
    && (forall w :: 0 <= w < |waves| ==> waves[w] != [] && Ascending(waves[w]))
    && Ascending(remaining)
    && (forall i: nat :: i in remaining <==> i < |steps| && i !in level)
  }

  /** A placed step was ready for its wave and not for the one before; no remaining step was ready for the last one. */
  ghost predicate Earliest(steps: seq<PlanStep>, waves: nat, level: map<nat, nat>, remaining: seq<nat>) {
    && (forall i :: i in level && i < |steps| ==> InFirstWave(steps, level, i))
    && (forall i :: i in remaining && i < |steps| && waves > 0 ==> !Ready(steps[i], Provided(steps, level, waves - 1)))
  }

  /** A complete layering: every step stands in exactly one wave, the first for which it is ready. */
  ghost predicate Layered(steps: seq<PlanStep>, waves: seq<seq<nat>>, level: map<nat, nat>) {
    Placed(steps, waves, level, []) && Earliest(steps, |waves|, level, [])
  }

  /** No step of the set can ever become ready: each waits for an identity that only the set could provide. */
  ghost predicate Deadlocked(steps: seq<PlanStep>, blocked: seq<nat>) {
    && blocked != []
    && (forall i :: i in blocked ==> StaysBlocked(steps, blocked, i))
  }

  ghost predicate StaysBlocked(steps: seq<PlanStep>, blocked: seq<nat>, i: nat) {
    i < |steps| && exists d :: d in steps[i].dependsOn && OnlyFrom(steps, blocked, d.stepId)
  }

  predicate OnlyFrom(steps: seq<PlanStep>, blocked: seq<nat>, name: string) {
    forall j :: 0 <= j < |steps| && j !in blocked ==> steps[j].Identity() != name
  }

  // ---------------------------------------------------------------- the wave loop

  lemma AscendingCons(first: nat, rest: seq<nat>)
    requires Ascending(rest)
    requires forall i :: i in rest ==> first < i
    ensures Ascending([first] + rest)
  {
    var s := [first] + rest;
    forall a, b | 0 <= a < b < |s| ensures s[a] < s[b] {
      assert s[b] == rest[b - 1] && rest[b - 1] in rest;
    }
  }

  function ReadyAmong(steps: seq<PlanStep>, indexes: seq<nat>, done: set<string>): (ready: seq<nat>)
    requires forall i :: i in indexes ==> i < |steps|
    requires Ascending(indexes)
    ensures forall i :: i in ready <==> i in indexes && Ready(steps[i], done)
    ensures Ascending(ready)
  {
    if indexes == [] then []
    else
      assert forall i :: i in indexes[1..] ==> i in indexes;
      var rest := ReadyAmong(steps, indexes[1..], done);
      assert indexes[0] in indexes;
      AscendingCons(indexes[0], rest);
      if Ready(steps[indexes[0]], done) then [indexes[0]] + rest else rest
  }

  function Without(indexes: seq<nat>, gone: seq<nat>): (kept: seq<nat>)
    requires Ascending(indexes)
    ensures forall i :: i in kept <==> i in indexes && i !in gone
    ensures Ascending(kept)
    ensures |kept| <= |indexes|
    ensures (exists i :: i in indexes && i in gone) ==> |kept| < |indexes|
  {
    if indexes == [] then []
    else
      var rest := Without(indexes[1..], gone);
      AscendingCons(indexes[0], rest);
      if indexes[0] in gone then rest else [indexes[0]] + rest
  }

  ghost function Place(level: map<nat, nat>, wave: seq<nat>, w: nat): map<nat, nat> {
    level + map i | i in wave :: w
  }

  function Identities(steps: seq<PlanStep>, wave: seq<nat>): set<string>
    requires forall i :: i in wave ==> i < |steps|
  {
    set i | i in wave :: steps[i].Identity()
  }

  lemma ProvidedAfter(steps: seq<PlanStep>, level: map<nat, nat>, wave: seq<nat>, w: nat, v: nat)
    requires forall i :: i in level ==> i < |steps| && level[i] < w
    requires forall i :: i in wave ==> i < |steps| && i !in level
    ensures v <= w ==> Provided(steps, Place(level, wave, w), v) == Provided(steps, level, v)
    ensures Provided(steps, Place(level, wave, w), w + 1) == Provided(steps, level, w) + Identities(steps, wave)
  {
    var level' := Place(level, wave, w);
    assert forall i :: i in level' <==> i in level || i in wave;
    assert forall i :: i in level ==> level'[i] == level[i];
    assert forall i :: i in wave ==> level'[i] == w;
  }

  /** One round of the loop keeps the waves a partition ... */
  lemma PlacedStep(steps: seq<PlanStep>, waves: seq<seq<nat>>, level: map<nat, nat>, remaining: seq<nat>, ready: seq<nat>)
    requires Placed(steps, waves, level, remaining)
    requires ready != [] && Ascending(ready) && forall i :: i in ready ==> i in remaining
    ensures Placed(steps, waves + [ready], Place(level, ready, |waves|), Without(remaining, ready))
    ensures |Without(remaining, ready)| < |remaining|
  {
    hide Place, Without, Ascending;
    PlaceFacts(level, ready, |waves|);
    assert ready[0] in ready;
    var more, level' := waves + [ready], Place(level, ready, |waves|);
    forall v, i | 0 <= v < |more| ensures i in more[v] <==> i in level' && level'[i] == v {
      if v < |waves| { assert more[v] == waves[v]; }
    }
  }

  /** ... and every step in its earliest one. */
  lemma EarliestStep(steps: seq<PlanStep>, waves: seq<seq<nat>>, level: map<nat, nat>, remaining: seq<nat>, ready: seq<nat>)
    requires Placed(steps, waves, level, remaining) && Earliest(steps, |waves|, level, remaining)
    requires ready == ReadyAmong(steps, remaining, Provided(steps, level, |waves|))
    ensures Earliest(steps, |waves| + 1, Place(level, ready, |waves|), Without(remaining, ready))
  {
    var w, level', rest := |waves|, Place(level, ready, |waves|), Without(remaining, ready);
    PlaceFacts(level, ready, w);
    InRange(steps, waves, level, remaining);
    EarliestParts(steps, w, level, remaining);
    hide Provided, Ready, Placed, Place, ReadyAmong, Without, InFirstWave;
    forall i | i in level' && i < |steps| ensures InFirstWave(steps, level', i) {
      StaysInFirstWave(steps, level, ready, w, i);
    }
    forall i | i in rest && i < |steps| ensures !Ready(steps[i], Provided(steps, level', w)) {
      ProvidedAfter(steps, level, ready, w, w);
    }
  }

  /** The wave that `level` gives step i is the first for which the step is ready. */
  ghost predicate InFirstWave(steps: seq<PlanStep>, level: map<nat, nat>, i: nat)
    requires i in level && i < |steps|
  {
    && Ready(steps[i], Provided(steps, level, level[i]))
    && (level[i] > 0 ==> !Ready(steps[i], Provided(steps, level, level[i] - 1)))
  }

  lemma StaysInFirstWave(steps: seq<PlanStep>, level: map<nat, nat>, wave: seq<nat>, w: nat, i: nat)
    requires forall j :: j in level ==> j < |steps| && level[j] < w
    requires forall j :: j in wave ==> j < |steps| && j !in level
    requires i < |steps| && (i in level || i in wave)
    requires i in level ==> InFirstWave(steps, level, i)
    requires i in wave ==> Ready(steps[i], Provided(steps, level, w)) && (w > 0 ==> !Ready(steps[i], Provided(steps, level, w - 1)))
    ensures i in Place(level, wave, w) && InFirstWave(steps, Place(level, wave, w), i)
  {
    hide Provided, Ready;
    var v := Place(level, wave, w)[i];
    ProvidedAfter(steps, level, wave, w, v);
    if v > 0 { ProvidedAfter(steps, level, wave, w, v - 1); }
  }

  lemma PlaceFacts(level: map<nat, nat>, wave: seq<nat>, w: nat)
    ensures forall i :: i in Place(level, wave, w) <==> i in level || i in wave
    ensures forall i :: i in wave ==> Place(level, wave, w)[i] == w
    ensures forall i :: i in level && i !in wave ==> Place(level, wave, w)[i] == level[i]
  {
  }

  lemma EarliestParts(steps: seq<PlanStep>, waves: nat, level: map<nat, nat>, remaining: seq<nat>)
    requires Earliest(steps, waves, level, remaining)
    ensures forall i :: i in level && i < |steps| ==> InFirstWave(steps, level, i)
    ensures forall i :: i in remaining && i < |steps| && waves > 0 ==> !Ready(steps[i], Provided(steps, level, waves - 1))
  {
  }

  lemma StuckIsDeadlocked(steps: seq<PlanStep>, waves: seq<seq<nat>>, level: map<nat, nat>, remaining: seq<nat>, completed: set<string>)
    requires Layering(steps, waves, level, remaining, completed) && remaining != []
    requires (forall i :: i in remaining ==> i < |steps|) && Ascending(remaining)
    requires ReadyAmong(steps, remaining, completed) == []
    ensures Deadlocked(steps, remaining)
  {
    hide Earliest;
    forall i | i in remaining ensures StaysBlocked(steps, remaining, i) {
      assert !Ready(steps[i], Provided(steps, level, |waves|));
      var d :| d in steps[i].dependsOn && d.stepId !in Provided(steps, level, |waves|);
      assert OnlyFrom(steps, remaining, d.stepId);
    }
  }

  lemma InRange(steps: seq<PlanStep>, waves: seq<seq<nat>>, level: map<nat, nat>, remaining: seq<nat>)
    requires Placed(steps, waves, level, remaining)
    ensures Ascending(remaining) && forall i :: i in remaining ==> i < |steps| && i !in level
    ensures forall i :: i in level ==> i < |steps| && level[i] < |waves|
  {
  }

  function Range(n: nat): (indexes: seq<nat>)
    ensures Ascending(indexes)
    ensures forall i: nat :: i in indexes <==> i < n
  {
    if n == 0 then [] else
      var below := Range(n - 1);
      AscendingSnoc(below, n - 1);
      below + [n - 1]
  }

  lemma AscendingSnoc(front: seq<nat>, last: nat)
    requires Ascending(front)
    requires forall i :: i in front ==> i < last
    ensures Ascending(front + [last])
  {
    var s := front + [last];
    forall a, b | 0 <= a < b < |s| ensures s[a] < s[b] {
      assert s[a] == front[a] && front[a] in front;
    }
  }

  /** What the loop below keeps. */
  ghost predicate Layering(steps: seq<PlanStep>, waves: seq<seq<nat>>, level: map<nat, nat>, remaining: seq<nat>,
                           completed: set<string>)
  {
    && Placed(steps, waves, level, remaining)
    && Earliest(steps, |waves|, level, remaining)
    && completed == Provided(steps, level, |waves|)
  }

  lemma LayeringStarts(steps: seq<PlanStep>)
    ensures Layering(steps, [], map[], Range(|steps|), {})
  {
  }

  /** One round of the loop. */
  lemma LayeringStep(steps: seq<PlanStep>, waves: seq<seq<nat>>, level: map<nat, nat>, remaining: seq<nat>,
                     completed: set<string>, ready: seq<nat>)
    requires Layering(steps, waves, level, remaining, completed)
    requires (forall i :: i in remaining ==> i < |steps|) && Ascending(remaining)
    requires ready == ReadyAmong(steps, remaining, completed) && ready != []
    ensures Layering(steps, waves + [ready], Place(level, ready, |waves|), Without(remaining, ready), completed + Identities(steps, ready))
    ensures |Without(remaining, ready)| < |remaining|
  {
    InRange(steps, waves, level, remaining);
    hide Placed, Earliest, Provided, Without, ReadyAmong, Place, Identities, Ready;
    EarliestStep(steps, waves, level, remaining, ready);
    PlacedStep(steps, waves, level, remaining, ready);
    ProvidedAfter(steps, level, ready, |waves|, 0);
  }

  lemma LayeringRange(steps: seq<PlanStep>, waves: seq<seq<nat>>, level: map<nat, nat>, remaining: seq<nat>, completed: set<string>)
    requires Layering(steps, waves, level, remaining, completed)
    ensures Ascending(remaining) && forall i :: i in remaining ==> i < |steps|
    ensures remaining == [] ==> Layered(steps, waves, level)
  {
    InRange(steps, waves, level, remaining);
  }

  method DependencyWaves(steps: seq<PlanStep>) returns (r: Result<seq<seq<nat>>, PlanError>, ghost level: map<nat, nat>)
    ensures r.Ok? ==> Layered(steps, r.value, level)
    ensures r.Err? ==> r.error.DependencyCycle? && Ascending(r.error.blocked) && Deadlocked(steps, r.error.blocked)
  {
    hide Layering, Layered, Placed, Earliest, Provided, Without, ReadyAmong, Place, Identities, Ascending, Deadlocked, Ready;
    var remaining: seq<nat> := Range(|steps|);
    var completed: set<string> := {};
    var waves: seq<seq<nat>> := [];
    level := map[];
    LayeringStarts(steps);
    LayeringRange(steps, waves, level, remaining, completed);
    while remaining != []
      invariant Layering(steps, waves, level, remaining, completed)
      invariant Ascending(remaining) && forall i :: i in remaining ==> i < |steps|
      decreases |remaining|
    {
      var ready := ReadyAmong(steps, remaining, completed);
      if ready == [] {
        StuckIsDeadlocked(steps, waves, level, remaining, completed);
        return Err(DependencyCycle(remaining)), level;
      }
      LayeringStep(steps, waves, level, remaining, completed, ready);
      level := Place(level, ready, |waves|);
      waves := waves + [ready];
      remaining := Without(remaining, ready);
      completed := completed + Identities(steps, ready);
    }
    LayeringRange(steps, waves, level, remaining, completed);
    r := Ok(waves);
  }

  // ---------------------------------------------------------------- cycles

  /** Each step of c depends on the next one, and the last on the first. */
  ghost predicate Cycle(steps: seq<PlanStep>, c: seq<nat>) {
    && c != []
    && (forall k :: 0 <= k < |c| ==> c[k] < |steps|)
    && (forall k, m :: 0 <= k < m < |c| && m == k + 1 ==> DependsOn(steps, c[k], c[m]))
    && DependsOn(steps, c[|c| - 1], c[0])
  }

  /** p walks along dependencies inside `within` without repeating itself. */
  ghost predicate Walk(steps: seq<PlanStep>, within: seq<nat>, p: seq<nat>) {
    && p != []
    && (forall k :: 0 <= k < |p| ==> p[k] < |steps| && p[k] in within)
    && (forall k, m :: 0 <= k < m < |p| && m == k + 1 ==> DependsOn(steps, p[k], p[m]))
  }

  function Unvisited(within: seq<nat>, p: seq<nat>): set<nat> {
    set i | i in within && i !in p
  }

  ghost predicate CycleWithin(steps: seq<PlanStep>, within: seq<nat>) {
    exists c :: Cycle(steps, c) && forall k :: 0 <= k < |c| ==> c[k] in within
  }

  ghost predicate Continues(steps: seq<PlanStep>, within: seq<nat>, i: nat) {
    i < |steps| && exists j :: j in within && j < |steps| && DependsOn(steps, i, j)
  }

  lemma NextStep(steps: seq<PlanStep>, within: seq<nat>, i: nat) returns (next: nat)
    requires Continues(steps, within, i)
    ensures next in within && i < |steps| && next < |steps| && DependsOn(steps, i, next)
  {
    next :| next in within && next < |steps| && DependsOn(steps, i, next);
  }

  /** Pigeonhole: a walk that can always be continued inside a finite set must meet itself. */
  lemma {:induction false} WalkCloses(steps: seq<PlanStep>, within: seq<nat>, p: seq<nat>)
    requires forall i :: i in within ==> Continues(steps, within, i)
    requires Walk(steps, within, p)
    ensures CycleWithin(steps, within)
    decreases Unvisited(within, p)
  {
    var last := p[|p| - 1];
    assert last in within;
    hide Continues, Walk, CycleWithin, Unvisited;
    var next := NextStep(steps, within, last);
    hide DependsOn;
    if next in p {
      ClosedWalk(steps, within, p, next);
    } else {
      LongerWalk(steps, within, p, next);
      WalkCloses(steps, within, p + [next]);
    }
  }

  lemma LongerWalk(steps: seq<PlanStep>, within: seq<nat>, p: seq<nat>, next: nat)
    requires Walk(steps, within, p) && next in within && next < |steps| && DependsOn(steps, p[|p| - 1], next)
    ensures Walk(steps, within, p + [next])
    ensures next !in p ==> Unvisited(within, p + [next]) < Unvisited(within, p)
  {
    hide DependsOn;
    assert next in Unvisited(within, p + [next]) <==> false;
    assert next !in p ==> next in Unvisited(within, p);
  }

  lemma ClosedWalk(steps: seq<PlanStep>, within: seq<nat>, p: seq<nat>, next: nat)
    requires Walk(steps, within, p) && next in p && next < |steps| && DependsOn(steps, p[|p| - 1], next)
    ensures CycleWithin(steps, within)
  {
    hide DependsOn;
    var k :| 0 <= k < |p| && p[k] == next;
    assert Cycle(steps, p[k..]);
  }

  /** When the wave loop gets stuck on known dependencies, the blocked steps contain an actual cycle. */
  lemma StuckMeansCycle(steps: seq<PlanStep>, blocked: seq<nat>)
    requires KnownDependencies(steps) && Deadlocked(steps, blocked)
    ensures CycleWithin(steps, blocked)
  {
    hide StaysBlocked, Continues, CycleWithin, KnownDependencies;
    forall i | i in blocked ensures Continues(steps, blocked, i) {
      BlockedContinues(steps, blocked, i);
    }
    WalkFrom(steps, blocked, blocked[0]);
    WalkCloses(steps, blocked, [blocked[0]]);
  }

  lemma WalkFrom(steps: seq<PlanStep>, within: seq<nat>, i: nat)
    requires Continues(steps, within, i) && i in within
    ensures Walk(steps, within, [i])
  {
  }

  lemma BlockedContinues(steps: seq<PlanStep>, blocked: seq<nat>, i: nat)
    requires KnownDependencies(steps) && StaysBlocked(steps, blocked, i)
    ensures Continues(steps, blocked, i)
  {
    var d :| d in steps[i].dependsOn && OnlyFrom(steps, blocked, d.stepId);
    assert HasIdentity(steps, d.stepId);
    var j :| 0 <= j < |steps| && steps[j].Identity() == d.stepId;
    assert DependsOn(steps, i, j);
  }

  lemma DependencyStandsEarlier(steps: seq<PlanStep>, waves: seq<seq<nat>>, level: map<nat, nat>, i: nat, j: nat)
    requires UniqueIds(steps) && Layered(steps, waves, level)
    requires i < |steps| && j < |steps| && DependsOn(steps, i, j)
    ensures i in level && j in level && level[j] < level[i]
  {
    assert i in level;
    var d :| d in steps[i].dependsOn && d.stepId == steps[j].Identity();
    var j' :| j' in level && j' < |steps| && level[j'] < level[i] && steps[j'].Identity() == d.stepId;
    assert j' == j;
  }

  /** A layering leaves no room for a cycle. */
  lemma LayeredMeansAcyclic(steps: seq<PlanStep>, waves: seq<seq<nat>>, level: map<nat, nat>, c: seq<nat>)
    requires UniqueIds(steps) && Layered(steps, waves, level)
    ensures !Cycle(steps, c)
  {
    hide Layered, UniqueIds, DependsOn;
    AllPlaced(steps, waves, level);
    if Cycle(steps, c) {
      forall k, m | 0 <= k < m < |c| && m == k + 1 ensures c[k] in level && c[m] in level && level[c[m]] < level[c[k]] {
        DependencyStandsEarlier(steps, waves, level, c[k], c[m]);
      }
      Descends(level, c, |c| - 1);
      DependencyStandsEarlier(steps, waves, level, c[|c| - 1], c[0]);
    }
  }

  lemma Descends(level: map<nat, nat>, c: seq<nat>, k: nat)
    requires k < |c| && forall m :: 0 <= m < |c| ==> c[m] in level
    requires forall a, b :: 0 <= a < b < |c| && b == a + 1 ==> level[c[b]] < level[c[a]]
    ensures level[c[k]] <= level[c[0]]
  {
    if k > 0 { Descends(level, c, k - 1); }
  }

  /** What validation is to accept: unique identities, known dependencies and no dependency cycle. */
  ghost predicate Valid(steps: seq<PlanStep>) {
    UniqueIds(steps) && KnownDependencies(steps) && forall c :: !Cycle(steps, c)
  }

  /** Validation accepts exactly these plans. */
  method ValidatePlanGraph(steps: seq<PlanStep>) returns (problem: Option<PlanError>)
    ensures problem.None? <==> Valid(steps)
    ensures problem == Some(DuplicateIds) <==> !UniqueIds(steps)
    ensures problem.Some? && problem.value.UnknownDependency? ==>
              var i := problem.value.step;
              i < |steps| && (exists d :: d in steps[i].dependsOn && !HasIdentity(steps, d.stepId)) &&
              KnownDependenciesUpTo(steps, i)
    ensures problem.Some? && problem.value.DependencyCycle? ==> CycleWithin(steps, problem.value.blocked)
  {
    if !UniqueIds(steps) { return Some(DuplicateIds); }
    for i := 0 to |steps|
      invariant KnownDependenciesUpTo(steps, i)
    {
      if exists d :: d in steps[i].dependsOn && !HasIdentity(steps, d.stepId) {
        return Some(UnknownDependency(i));
      }
    }
    var waves, level := DependencyWaves(steps);
    if waves.Err? {
      StuckMeansCycle(steps, waves.error.blocked);
      return Some(waves.error);
    }
    forall c ensures !Cycle(steps, c) {
      LayeredMeansAcyclic(steps, waves.value, level, c);
    }
    return None;
  }

  predicate KnownDependenciesUpTo(steps: seq<PlanStep>, n: nat)
    requires n <= |steps|
  {
    forall i, d :: 0 <= i < n && d in steps[i].dependsOn ==> HasIdentity(steps, d.stepId)
  }

  // ---------------------------------------------------------------- exact layers

  /** A chain of steps, each depending on the next. */
  ghost predicate Chain(steps: seq<PlanStep>, c: seq<nat>) {
    && c != []
    && (forall k :: 0 <= k < |c| ==> c[k] < |steps|)
    && (forall k, m :: 0 <= k < m < |c| && m == k + 1 ==> DependsOn(steps, c[k], c[m]))
  }

  /** No chain that starts at a step is longer than its wave number allows ... */
  lemma {:induction false} ChainFits(steps: seq<PlanStep>, waves: seq<seq<nat>>, level: map<nat, nat>, c: seq<nat>)
    requires UniqueIds(steps) && Layered(steps, waves, level) && Chain(steps, c)
    ensures c[0] in level && |c| <= level[c[0]] + 1
  {
    if |c| > 1 {
      DependencyStandsEarlier(steps, waves, level, c[0], c[1]);
      assert forall k :: 0 <= k < |c[1..]| ==> c[1..][k] == c[k + 1];
      ChainFits(steps, waves, level, c[1..]);
    }
  }

  /** ... and one of exactly that length exists: the wave number is the length of the longest dependency chain. */
  lemma {:induction false} LongestChain(steps: seq<PlanStep>, waves: seq<seq<nat>>, level: map<nat, nat>, i: nat)
    returns (c: seq<nat>)
    requires UniqueIds(steps) && Layered(steps, waves, level) && i < |steps|
    ensures i in level && Chain(steps, c) && c[0] == i && |c| == level[i] + 1
    decreases if i in level then level[i] else 0
  {
    assert i in level && Chain(steps, [i]);
    hide Chain, Layered, DependsOn, UniqueIds;
    if level[i] == 0 {
      c := [i];
    } else {
      var j := WaitsOnPreviousWave(steps, waves, level, i);
      var rest := LongestChain(steps, waves, level, j);
      ChainCons(steps, i, rest);
      c := [i] + rest;
    }
  }

  lemma ChainCons(steps: seq<PlanStep>, i: nat, rest: seq<nat>)
    requires Chain(steps, rest) && i < |steps| && DependsOn(steps, i, rest[0])
    ensures Chain(steps, [i] + rest)
  {
    hide DependsOn;
  }

  lemma WaitsOnPreviousWave(steps: seq<PlanStep>, waves: seq<seq<nat>>, level: map<nat, nat>, i: nat) returns (j: nat)
    requires Layered(steps, waves, level) && i in level && level[i] > 0
    ensures i < |steps| && j < |steps| && j in level && level[j] == level[i] - 1 && DependsOn(steps, i, j)
  {
    var w := level[i];
    assert i < |steps| && Ready(steps[i], Provided(steps, level, w)) && !Ready(steps[i], Provided(steps, level, w - 1));
    hide Layered;
    var d :| d in steps[i].dependsOn && d.stepId !in Provided(steps, level, w - 1);
    j :| j in level && j < |steps| && level[j] < w && steps[j].Identity() == d.stepId;
  }

  /** So the layering is determined by the steps alone, whatever produced it. */
  lemma LayersAreUnique(steps: seq<PlanStep>, waves: seq<seq<nat>>, level: map<nat, nat>,
                        waves': seq<seq<nat>>, level': map<nat, nat>)
    requires UniqueIds(steps) && Layered(steps, waves, level) && Layered(steps, waves', level')
    ensures level == level' && waves == waves'
  {
    hide Layered, UniqueIds;
    SameLevels(steps, waves, level, waves', level');
    NoMoreWaves(steps, waves, waves', level);
    NoMoreWaves(steps, waves', waves, level);
    forall w: nat | w < |waves| ensures waves[w] == waves'[w] {
      SameWave(steps, waves, waves', level, w);
    }
  }

  lemma AllPlaced(steps: seq<PlanStep>, waves: seq<seq<nat>>, level: map<nat, nat>)
    requires Layered(steps, waves, level)
    ensures forall i: nat :: i in level <==> i < |steps|
  {
    hide Earliest;
    forall i: nat | i < |steps| ensures i in level {
      assert i !in [];
    }
  }

  lemma SameLevels(steps: seq<PlanStep>, waves: seq<seq<nat>>, level: map<nat, nat>,
                   waves': seq<seq<nat>>, level': map<nat, nat>)
    requires UniqueIds(steps) && Layered(steps, waves, level) && Layered(steps, waves', level')
    ensures level == level'
  {
    hide Layered, UniqueIds, Chain;
    AllPlaced(steps, waves, level);
    AllPlaced(steps, waves', level');
    forall i: nat | i < |steps| ensures level[i] == level'[i] {
      var c := LongestChain(steps, waves, level, i);
      ChainFits(steps, waves', level', c);
      var c' := LongestChain(steps, waves', level', i);
      ChainFits(steps, waves, level, c');
    }
  }

  lemma SameWave(steps: seq<PlanStep>, waves: seq<seq<nat>>, waves': seq<seq<nat>>, level: map<nat, nat>, w: nat)
    requires Layered(steps, waves, level) && Layered(steps, waves', level) && w < |waves| == |waves'|
    ensures waves[w] == waves'[w]
  {
    hide Earliest;
    assert forall i :: i in waves[w] <==> i in level && level[i] == w;
    assert forall i :: i in waves'[w] <==> i in level && level[i] == w;
    AscendingIsCanonical(waves[w], waves'[w]);
  }

  lemma NoMoreWaves(steps: seq<PlanStep>, waves: seq<seq<nat>>, waves': seq<seq<nat>>, level: map<nat, nat>)
    requires Layered(steps, waves, level) && Layered(steps, waves', level)
    ensures |waves'| <= |waves|
  {
    if waves' != [] {
      var w := |waves'| - 1;
      assert waves'[w] != [] && waves'[w][0] in waves'[w];
      assert level[waves'[w][0]] == w;
    }
  }

  predicate Smaller(a: nat, b: nat) {
    a < b
  }

  lemma AscendingIsCanonical(a: seq<nat>, b: seq<nat>)
    requires Ascending(a) && Ascending(b)
    requires forall i :: i in a <==> i in b
    ensures a == b
  {
    Ordering.IncreasingIsCanonical(Smaller, a, b);
  }
}
