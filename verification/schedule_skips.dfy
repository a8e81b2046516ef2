/** Who reaches the executor: skips spread along required dependencies and nowhere else. */
module ScheduleSkips {
  import opened Results
  import opened PlanModel
  import opened ScheduleMachine
  import opened ScheduleSafety
  import opened ScheduleOrder
  import opened ScheduleTheorems
  import Graph

  // ---------------------------------------------------------------- a group is opened against what came before it

  predicate NamesNone(P: Problem, group: seq<nat>, name: string) {
    forall k :: k in group && k < |P.steps| ==> P.steps[k].Identity() != name
  }

  lemma {:induction false} OpenedOutcomes(P: Problem, l: Ledger, group: seq<nat>, name: string)
    requires InPlan(P, group) && NamesNone(P, group, name)
    ensures name in OpenedLedger(P, l, group).outcomes <==> name in l.outcomes
    ensures name in l.outcomes ==> OpenedLedger(P, l, group).outcomes[name] == l.outcomes[name]
  {
    if group != [] {
      InPlanSnoc(P, group);
      assert group[|group| - 1] in group && forall k :: k in group[..|group| - 1] ==> k in group;
      OpenedOutcomes(P, l, group[..|group| - 1], name);
    }
  }

  /** A step of a group is runnable exactly when it is not skipped against the ledger from before the group. */
  lemma {:induction false} RunnableIff(P: Problem, l: Ledger, group: seq<nat>, i: nat)
    requires InPlan(P, group) && i in group && Graph.Ascending(group)
    requires i < |P.steps| && forall d :: d in P.steps[i].dependsOn ==> NamesNone(P, group, d.stepId)
    ensures i in Runnable(P, l, group) <==> Skip(P, l, i).None?
    ensures Skip(P, l, i).Some? ==> i in OpenedLedger(P, l, group).slots && OpenedLedger(P, l, group).slots[i].outcome == SKIPPED
  {
    var last, front := group[|group| - 1], group[..|group| - 1];
    InPlanSnoc(P, group);
    AscendingFront(group);
    RunnableFacts(P, l, front);
    forall d | d in P.steps[i].dependsOn ensures NamesNone(P, front, d.stepId) {
      assert NamesNone(P, group, d.stepId);
    }
    if i == last {
      SameSkip(P, l, front, i);
    } else {
      RunnableIff(P, l, front, i);
    }
  }

  lemma SameSkip(P: Problem, l: Ledger, group: seq<nat>, i: nat)
    requires InPlan(P, group) && i < |P.steps| && forall d :: d in P.steps[i].dependsOn ==> NamesNone(P, group, d.stepId)
    ensures Skip(P, OpenedLedger(P, l, group), i) == Skip(P, l, i)
  {
    var l' := OpenedLedger(P, l, group);
    OpenedStore(P, l, group);
    forall d | d in P.steps[i].dependsOn ensures Unavailable(l'.outcomes, d.stepId) == Unavailable(l.outcomes, d.stepId) {
      OpenedOutcomes(P, l, group, d.stepId);
    }
    assert RequiresUnavailable(P.steps[i], l'.outcomes) == RequiresUnavailable(P.steps[i], l.outcomes);
  }

  lemma GroupNamesNoDependency(P: Problem, i: nat)
    requires ValidProblem(P) && i < |P.steps|
    ensures i in P.stage && P.stage[i] < |P.groups| && GroupsInPlan(P)
    ensures i in P.groups[P.stage[i]] && Graph.Ascending(P.groups[P.stage[i]])
    ensures forall d :: d in P.steps[i].dependsOn ==> NamesNone(P, P.groups[P.stage[i]], d.stepId)
  {
    StagedInPlan(P);
    forall d | d in P.steps[i].dependsOn ensures NamesNone(P, P.groups[P.stage[i]], d.stepId) {
      assert NamedBefore(P.steps, P.stage, P.stage[i], d.stepId);
      var j :| j in P.stage && j < |P.steps| && P.stage[j] < P.stage[i] && P.steps[j].Identity() == d.stepId;
      forall k | k in P.groups[P.stage[i]] && k < |P.steps| ensures P.steps[k].Identity() != d.stepId {
        assert P.stage[k] == P.stage[i];
      }
    }
  }

  // ---------------------------------------------------------------- the executor never misses an artifact

  /** No step that the pool holds lacks a required artifact in the store its snapshot is taken from. */
  ghost predicate Supplied(P: Problem, s: State) {
    Active(s) ==> forall i :: i in s.pool.steps ==> i < |P.steps| && !MissesArtifact(P.steps[i], s.ledger.store)
  }

  lemma {:induction false} RunnableSupplied(P: Problem, l: Ledger, group: seq<nat>)
    requires InPlan(P, group)
    ensures forall i :: i in Runnable(P, l, group) ==> i < |P.steps| && !MissesArtifact(P.steps[i], l.store)
  {
    if group != [] {
      InPlanSnoc(P, group);
      RunnableSupplied(P, l, group[..|group| - 1]);
      OpenedStore(P, l, group[..|group| - 1]);
    }
  }

  lemma StepSupplied(P: Problem, s: State, a: Action)
    requires Supplied(P, s) && Enabled(P, s, a)
    ensures Supplied(P, Apply(P, s, a))
  {
    if a == OpenWave {
      RunnableSupplied(P, s.ledger, P.groups[s.wave]);
      OpenedStore(P, s.ledger, P.groups[s.wave]);
      hide MissesArtifact, Runnable, OpenedLedger, OpeningEvents;
    } else {
      assert Active(Apply(P, s, a)) ==> Active(s) && Apply(P, s, a).pool.steps == s.pool.steps && Apply(P, s, a).ledger == s.ledger;
    }
  }

  /** In every run, whenever a worker is about to call or inside the executor, all required artifacts are there. */
  lemma {:induction false} ExecutorIsSupplied(P: Problem, acts: seq<Action>)
    requires Exec(P, acts).Some?
    ensures Supplied(P, Exec(P, acts).value)
  {
    hide Supplied, Apply, Enabled;
    if acts != [] {
      ExecutorIsSupplied(P, acts[..|acts| - 1]);
      StepSupplied(P, Exec(P, acts[..|acts| - 1]).value, acts[|acts| - 1]);
    } else {
      NothingToSupply(P);
    }
  }

  lemma NothingToSupply(P: Problem)
    ensures Supplied(P, Initial(P))
  {
  }

  // ---------------------------------------------------------------- which steps were started

  predicate RunsIn(P: Problem, i: nat)
    requires GroupsInPlan(P) && i in P.stage && P.stage[i] < |P.groups|
  {
    i in Runnable(P, Reference(P, P.stage[i]), P.groups[P.stage[i]])
  }

  predicate Queueing(life: Life) {
    life == InQueue || life.Trying? || life.Paused? || (life.Over? && life.attempts > 0)
  }

  predicate Entered(P: Problem, s: State, i: nat) {
    i in P.stage && P.stage[i] < |P.groups| && (P.stage[i] < s.wave || (Active(s) && P.stage[i] == s.wave))
  }

  /** In an uncancelled run the sequential reference decides which entered steps were queued and which were skipped. */
  ghost predicate Routed(P: Problem, s: State)
    requires GroupsInPlan(P)
  {
    !s.cancelled ==> forall i: nat :: i < |P.steps| && Entered(P, s, i) ==> RoutedLife(P, i, LifeOf(s.trace, i))
  }

  predicate RoutedLife(P: Problem, i: nat, life: Life)
    requires GroupsInPlan(P) && i in P.stage && P.stage[i] < |P.groups|
  {
    if RunsIn(P, i) then Queueing(life) else life == Bypassed
  }

  lemma RoutedKept(P: Problem, s: State, s': State)
    requires GroupsInPlan(P) && Routed(P, s) && (!s'.cancelled ==> !s.cancelled)
    requires !s'.cancelled ==> forall i: nat :: Entered(P, s', i) ==> Entered(P, s, i)
    requires !s'.cancelled ==> forall i: nat :: i < |P.steps| ==>
               LifeOf(s'.trace, i) == LifeOf(s.trace, i) || (Queueing(LifeOf(s.trace, i)) && Queueing(LifeOf(s'.trace, i)))
    ensures Routed(P, s')
  {
    hide LifeOf, RunsIn, Entered;
  }

  lemma WorkerRouted(P: Problem, s: State, i: nat, t: Thread, e: Event)
    requires GroupsInPlan(P) && Routed(P, s) && !s.cancelled && At(s, i, P) && e.step == i
    requires Queueing(LifeOf(s.trace, i)) && Queueing(Advance(LifeOf(s.trace, i), e))
    ensures Routed(P, SetThread(s, i, t, [e]))
  {
    var s' := SetThread(s, i, t, [e]);
    forall j: nat ensures LifeOf(s'.trace, j) == if j == i then Advance(LifeOf(s.trace, i), e) else LifeOf(s.trace, j) {
      LifeOfSnoc(s.trace, e, j);
    }
    hide LifeOf, Routed;
    RoutedKept(P, s, s');
  }

  lemma OpenRouted(P: Problem, s: State)
    requires ValidProblem(P) && GroupsInPlan(P) && Inv(P, s) && Agrees(P, s) && Routed(P, s) && MayOpen(P, s)
    ensures Routed(P, AfterOpen(P, s))
  {
    var s', group := AfterOpen(P, s), P.groups[s.wave];
    assert s.ledger == Reference(P, s.wave);
    GroupOfWave(P, s);
    forall i: nat | i < |P.steps| && Entered(P, s', i) ensures RoutedLife(P, i, LifeOf(s'.trace, i)) {
      OpeningLife(P, s.ledger, group, s.trace, i);
      FreshBefore(P, s, i);
      hide LifeOf, Runnable, OpenedLedger, OpeningEvents, Reference, Graph.Ascending, Inv, ValidProblem;
    }
  }

  lemma FreshBefore(P: Problem, s: State, i: nat)
    requires Inv(P, s) && i < |P.steps| && i in P.stage && s.phase == Between
    ensures P.stage[i] >= s.wave ==> LifeOf(s.trace, i) == Fresh
  {
    assert LifeFits(P, s, i, LifeOf(s.trace, i));
  }

  lemma WorkerLife(P: Problem, s: State, i: nat)
    requires Inv(P, s) && At(s, i, P)
    ensures ThreadLife(s.pool.running[i], LifeOf(s.trace, i)) && ThreadOk(P, i, s.pool.running[i])
  {
    WorkerFits(P, s, i);
  }

  /** A worker that moves on without an event changes no life. */
  lemma SilentRouted(P: Problem, s: State, i: nat, t: Thread)
    requires GroupsInPlan(P) && Routed(P, s)
    ensures Routed(P, SetThread(s, i, t, []))
  {
    assert SetThread(s, i, t, []).trace == s.trace;
    hide LifeOf;
    RoutedKept(P, s, SetThread(s, i, t, []));
  }

  lemma BeginRouted(P: Problem, s: State, i: nat, a: nat)
    requires GroupsInPlan(P) && Routed(P, s) && At(s, i, P) && s.pool.running[i] == Waiting(a)
    ensures Routed(P, AfterBegin(P, s, i, a))
  {
    if !s.cancelled { SilentRouted(P, s, i, Cleared(a)); }
  }

  lemma AnnounceRouted(P: Problem, s: State, i: nat, a: nat)
    requires GroupsInPlan(P) && Inv(P, s) && Routed(P, s) && At(s, i, P) && s.pool.running[i] == Cleared(a)
    ensures Routed(P, AfterAnnounce(s, i, a))
  {
    if !s.cancelled {
      hide Inv, LifeOf, Routed;
      WorkerLife(P, s, i);
      WorkerRouted(P, s, i, Announced(a), Started(i, a));
    }
  }

  lemma ReturnRouted(P: Problem, s: State, i: nat, a: nat, attempt: Attempt)
    requires GroupsInPlan(P) && Inv(P, s) && Routed(P, s) && At(s, i, P) && s.pool.running[i] == Executing(a)
    ensures Routed(P, AfterAttempt(P, s, i, a, attempt))
  {
    hide Inv, LifeOf, Routed, AttemptResult, RunsIn;
    var s' := AfterAttempt(P, s, i, a, attempt);
    if s.cancelled {
      CancelledRouted(P, s');
    } else if attempt.Interrupted? {
      assert s'.trace == s.trace;
      RoutedKept(P, s, s');
    } else {
      WorkerLife(P, s, i);
      var step, r := P.steps[i], AttemptResult(P, i, attempt);
      if CanRetry(step, a, r) {
        WorkerRouted(P, s, i, if step.retryPolicy.backoffSeconds > 0 then BackingOff(a) else Waiting(a + 1), Retrying(i, a));
      } else {
        WorkerRouted(P, s, i, Finished(Value(r)), Ended(i, a, r.outcome));
      }
    }
  }

  lemma CancelledRouted(P: Problem, s: State)
    requires GroupsInPlan(P) && s.cancelled
    ensures Routed(P, s)
  {
  }

  lemma WakeRouted(P: Problem, s: State, i: nat, a: nat)
    requires GroupsInPlan(P) && Routed(P, s) && At(s, i, P) && s.pool.running[i] == BackingOff(a)
    ensures Routed(P, AfterWake(P, s, i, a))
  {
    if !s.cancelled { SilentRouted(P, s, i, Waiting(a + 1)); }
  }

  lemma QuietRouted(P: Problem, s: State, a: Action)
    requires GroupsInPlan(P) && Routed(P, s) && Enabled(P, s, a)
    requires !a.OpenWave? && !a.Begin? && !a.Announce? && !a.Call? && !a.Return? && !a.Wake?
    ensures Routed(P, Apply(P, s, a))
  {
    hide LifeOf, Routed, MergedWave;
    RoutedKept(P, s, Apply(P, s, a));
  }

  lemma StepRouted(P: Problem, s: State, a: Action)
    requires ValidProblem(P) && GroupsInPlan(P) && Inv(P, s) && Agrees(P, s) && Routed(P, s) && Enabled(P, s, a)
    ensures Routed(P, Apply(P, s, a))
  {
    hide Inv, Agrees, Routed, ValidProblem, GroupsInPlan;
    match a
    case OpenWave => OpenRouted(P, s);
    case Begin(i) => BeginRouted(P, s, i, s.pool.running[i].attempt);
    case Announce(i) => AnnounceRouted(P, s, i, s.pool.running[i].attempt);
    case Call(i) => SilentRouted(P, s, i, Executing(s.pool.running[i].attempt));
    case Return(i) => ReturnRouted(P, s, i, s.pool.running[i].attempt, P.execute(i, s.pool.running[i].attempt, s.ledger.store));
    case Wake(i) => WakeRouted(P, s, i, s.pool.running[i].attempt);
    case _ => QuietRouted(P, s, a);
  }

  lemma NothingRouted(P: Problem)
    requires GroupsInPlan(P)
    ensures Routed(P, Initial(P))
  {
  }

  lemma {:induction false} RunRouted(P: Problem, acts: seq<Action>)
    requires ValidProblem(P) && GroupsInPlan(P) && Exec(P, acts).Some?
    ensures Routed(P, Exec(P, acts).value)
  {
    hide Inv, ValidProblem, GroupsInPlan, Agrees, Routed, Enabled, Apply;
    if acts == [] {
      NothingRouted(P);
    } else {
      var front := acts[..|acts| - 1];
      RunRouted(P, front);
      RunKeeps(P, front);
      RunAgrees(P, front);
      StepRouted(P, Exec(P, front).value, acts[|acts| - 1]);
    }
  }

  // ---------------------------------------------------------------- what later groups leave unchanged

  /** The reference ledger after k groups is sound and holds steps of these groups only. */
  ghost predicate Sound(P: Problem, k: nat)
    requires GroupsInPlan(P) && k <= |P.groups|
  {
    && LedgerOk(P, Reference(P, k))
    && forall i :: i in Reference(P, k).slots ==> i in P.stage && P.stage[i] < k
  }

  /** l2 adds to l1 slots of stage k only. */
  ghost predicate Extends(P: Problem, l1: Ledger, l2: Ledger, k: nat) {
    && (forall i :: i in l1.slots ==> i in l2.slots && l2.slots[i] == l1.slots[i])
    && (forall i :: i in l2.slots && i !in l1.slots ==> i in P.stage && P.stage[i] == k)
  }

  lemma OpenedExtends(P: Problem, l: Ledger, group: seq<nat>, k: nat)
    requires UniqueIds(P.steps) && LedgerOk(P, l) && InPlan(P, group) && Graph.Ascending(group)
    requires forall i :: i in group ==> i in P.stage && P.stage[i] == k && i !in l.slots
    ensures LedgerOk(P, OpenedLedger(P, l, group)) && Extends(P, l, OpenedLedger(P, l, group), k)
    ensures forall i :: i in Runnable(P, l, group) ==> i in P.stage && P.stage[i] == k && i !in OpenedLedger(P, l, group).slots
  {
    hide LedgerOk, OpenedLedger, Runnable, InPlan, Graph.Ascending, UniqueIds;
    OpenedSlots(P, l, group);
    RunnableFacts(P, l, group);
    OpenedLedgerOk(P, l, group);
  }

  lemma GroupOfStage(P: Problem, k: nat)
    requires ValidProblem(P) && k < |P.groups|
    ensures InPlan(P, P.groups[k]) && Graph.Ascending(P.groups[k])
    ensures forall i :: i in P.groups[k] ==> i < |P.steps| && i in P.stage && P.stage[i] == k
    ensures forall i :: i in P.stage && P.stage[i] == k ==> i in P.groups[k]
  {
    forall i | i in P.groups[k] ensures i < |P.steps| {
      assert i in P.stage;
    }
  }

  lemma Uniqueness(P: Problem)
    requires ValidProblem(P)
    ensures UniqueIds(P.steps)
  {
  }

  lemma MergedExtends(P: Problem, l: Ledger, results: map<nat, StepResult>, k: nat)
    requires UniqueIds(P.steps) && LedgerOk(P, l)
    requires forall i :: i in results ==> i < |P.steps| && i in P.stage && P.stage[i] == k && i !in l.slots
    ensures LedgerOk(P, MergedWave(P, l, results)) && Extends(P, l, MergedWave(P, l, results), k)
  {
    var order := InOrder(results.Keys, |P.steps|);
    InOrderMembers(results.Keys, |P.steps|);
    assert InPlan(P, order);
    hide UniqueIds, LedgerOk, Graph.Ascending, InOrder, Merged;
    MergedSlots(P, l, order, results);
    MergedLedgerOk(P, l, order, results);
  }

  /** Group k's own part of the reference: the opened ledger and the results that are merged into it. */
  lemma ReferenceParts(P: Problem, k: nat) returns (l: Ledger, results: map<nat, StepResult>)
    requires ValidProblem(P) && GroupsInPlan(P) && k < |P.groups| && Sound(P, k)
    ensures l == OpenedLedger(P, Reference(P, k), P.groups[k])
    ensures LedgerOk(P, l) && Extends(P, Reference(P, k), l, k)
    ensures forall i :: i in results ==> i < |P.steps| && i in P.stage && P.stage[i] == k && i !in l.slots
    ensures Reference(P, k + 1) == MergedWave(P, l, results)
  {
    var before, group := Reference(P, k), P.groups[k];
    assert LedgerOk(P, before) && forall i :: i in before.slots ==> i in P.stage && P.stage[i] < k;
    hide ValidProblem, LedgerOk, MergedWave, OpenedLedger, Runnable, Settle, Extends, Sound, Graph.Ascending, InPlan;
    GroupOfStage(P, k);
    Uniqueness(P);
    OpenedExtends(P, before, group, k);
    RunnableInPlan(P, before, group);
    l := OpenedLedger(P, before, group);
    results := Settled(P, Runnable(P, before, group), l.store);
  }

  lemma Settled(P: Problem, run: seq<nat>, store: seq<Artifact>) returns (results: map<nat, StepResult>)
    requires InPlan(P, run)
    ensures results == SettledResults(P, run, store) && forall i :: i in results ==> i in run && i < |P.steps|
  {
    results := SettledResults(P, run, store);
  }

  lemma ReferenceStep(P: Problem, k: nat)
    requires ValidProblem(P) && GroupsInPlan(P) && k < |P.groups| && Sound(P, k)
    ensures Sound(P, k + 1) && Extends(P, Reference(P, k), Reference(P, k + 1), k)
    ensures Extends(P, OpenedLedger(P, Reference(P, k), P.groups[k]), Reference(P, k + 1), k)
  {
    var l, results := ReferenceParts(P, k);
    hide ValidProblem, LedgerOk, MergedWave, OpenedLedger, Reference, GroupsInPlan, UniqueIds, Extends, Sound, InPlan;
    Uniqueness(P);
    MergedExtends(P, l, results, k);
    ExtendsTwice(P, Reference(P, k), l, Reference(P, k + 1), k);
    SoundNext(P, k);
  }

  lemma ExtendsTwice(P: Problem, l1: Ledger, l2: Ledger, l3: Ledger, k: nat)
    requires Extends(P, l1, l2, k) && Extends(P, l2, l3, k)
    ensures Extends(P, l1, l3, k)
  {
  }

  lemma SoundNext(P: Problem, k: nat)
    requires GroupsInPlan(P) && k < |P.groups| && Sound(P, k)
    requires LedgerOk(P, Reference(P, k + 1)) && Extends(P, Reference(P, k), Reference(P, k + 1), k)
    ensures Sound(P, k + 1)
  {
    hide LedgerOk, Reference, GroupsInPlan;
  }

  lemma {:induction false} ReferenceSound(P: Problem, k: nat)
    requires ValidProblem(P) && GroupsInPlan(P) && k <= |P.groups|
    ensures Sound(P, k)
  {
    hide ValidProblem, GroupsInPlan, Sound;
    if k == 0 {
      NothingSound(P);
    } else {
      ReferenceSound(P, k - 1);
      ReferenceStep(P, k - 1);
    }
  }

  lemma NothingSound(P: Problem)
    requires GroupsInPlan(P)
    ensures Sound(P, 0)
  {
  }

  /** Slots of the first k groups do not change afterwards, and none is added. */
  lemma {:induction false} ReferenceStable(P: Problem, k: nat, m: nat, i: nat)
    requires ValidProblem(P) && GroupsInPlan(P) && k <= m <= |P.groups| && i in P.stage && P.stage[i] < k
    ensures i in Reference(P, k).slots <==> i in Reference(P, m).slots
    ensures i in Reference(P, k).slots ==> Reference(P, m).slots[i] == Reference(P, k).slots[i]
  {
    hide ValidProblem, GroupsInPlan, Sound, Reference;
    if k < m {
      ReferenceStable(P, k, m - 1, i);
      ReferenceSound(P, m - 1);
      ReferenceStep(P, m - 1);
    }
  }

  /** So a dependency's outcome, as the group of its dependant saw it, is its final outcome. */
  lemma DependencyOutcome(P: Problem, i: nat, d: StepDependency)
    requires ValidProblem(P) && GroupsInPlan(P) && i < |P.steps| && i in P.stage && P.stage[i] <= |P.groups|
    requires d in P.steps[i].dependsOn
    ensures Unavailable(Reference(P, P.stage[i]).outcomes, d.stepId) == Unavailable(Reference(P, |P.groups|).outcomes, d.stepId)
  {
    assert NamedBefore(P.steps, P.stage, P.stage[i], d.stepId);
    var j :| j in P.stage && j < |P.steps| && P.stage[j] < P.stage[i] && P.steps[j].Identity() == d.stepId;
    hide ValidProblem, GroupsInPlan, Reference;
    ReferenceSound(P, P.stage[i]);
    ReferenceSound(P, |P.groups|);
    ReferenceStable(P, P.stage[i], |P.groups|, j);
    Uniqueness(P);
    OutcomeOfSlot(P, Reference(P, P.stage[i]), j);
    OutcomeOfSlot(P, Reference(P, |P.groups|), j);
  }

  lemma OutcomeOfSlot(P: Problem, l: Ledger, j: nat)
    requires UniqueIds(P.steps) && LedgerOk(P, l) && j < |P.steps|
    ensures P.steps[j].Identity() in l.outcomes <==> j in l.slots
    ensures j in l.slots ==> l.outcomes[P.steps[j].Identity()] == l.slots[j]
  {
    var name := P.steps[j].Identity();
    assert j in l.slots ==> Recorded(P, l, j);
    assert name in l.outcomes ==> SlotNamed(P, l, name);
    if SlotNamed(P, l, name) {
      var k :| k in l.slots && k < |P.steps| && P.steps[k].Identity() == name;
      assert k == j;
    }
  }

  // ---------------------------------------------------------------- the results

  predicate Executed(s: State, i: nat) {
    CountStarted(s.trace, i) > 0
  }

  /** In a finished run every announced attempt was a call of the executor. */
  lemma ExecutedMeansCalled(P: Problem, acts: seq<Action>, i: nat)
    requires ValidProblem(P) && Exec(P, acts).Some? && Exec(P, acts).value.phase == Done
    ensures Calls(acts, i) == CountStarted(Exec(P, acts).value.trace, i)
    ensures Calls(acts, i) > 0 <==> Executed(Exec(P, acts).value, i)
  {
    CallsAreAnnounced(P, acts, i);
    RunKeeps(P, acts);
    NobodyRuns(P, Exec(P, acts).value);
    hide Exec, Inv, ValidProblem;
  }

  lemma NobodyRuns(P: Problem, s: State)
    requires Inv(P, s) && s.phase == Done
    ensures s.pool.running == map[]
  {
    hide Traced, Filled, LedgerOk, Threads, Graph.Ascending;
  }

  /** The final outcomes and the store at the opening of its group decide whether a step runs. */
  lemma RunsInIff(P: Problem, i: nat)
    requires ValidProblem(P) && GroupsInPlan(P) && i < |P.steps| && i in P.stage && P.stage[i] < |P.groups|
    ensures RunsIn(P, i) <==>
              && !RequiresUnavailable(P.steps[i], Reference(P, |P.groups|).outcomes)
              && !MissesArtifact(P.steps[i], Reference(P, P.stage[i]).store)
    ensures !RunsIn(P, i) ==> i in Reference(P, |P.groups|).slots && Reference(P, |P.groups|).slots[i].outcome == SKIPPED
  {
    var k := P.stage[i];
    var l, final := Reference(P, k), Reference(P, |P.groups|);
    GroupNamesNoDependency(P, i);
    hide ValidProblem, GroupsInPlan, Sound, Reference, Graph.Ascending, Unavailable, OpenedLedger, Runnable, NamesNone, MissesArtifact;
    RunnableIff(P, l, P.groups[k], i);
    SkipIsFinal(P, i);
    forall d | d in P.steps[i].dependsOn ensures Unavailable(l.outcomes, d.stepId) == Unavailable(final.outcomes, d.stepId) {
      DependencyOutcome(P, i, d);
    }
    assert RequiresUnavailable(P.steps[i], l.outcomes) == RequiresUnavailable(P.steps[i], final.outcomes);
  }

  /** A slot that the opening of its own group filled keeps its result to the end. */
  lemma SkipIsFinal(P: Problem, i: nat)
    requires ValidProblem(P) && GroupsInPlan(P) && i in P.stage && P.stage[i] < |P.groups|
    ensures var k := P.stage[i]; var l := OpenedLedger(P, Reference(P, k), P.groups[k]);
            i in l.slots ==> i in Reference(P, |P.groups|).slots && Reference(P, |P.groups|).slots[i] == l.slots[i]
  {
    hide ValidProblem, GroupsInPlan, Sound, Reference, OpenedLedger;
    ReferenceSound(P, P.stage[i]);
    ReferenceStep(P, P.stage[i]);
    ReferenceStable(P, P.stage[i] + 1, |P.groups|, i);
  }

  /**
   * In a finished run that nobody cancelled, a step was executed exactly when no required dependency ended failed or
   * skipped and the store at the opening of its group had every required artifact; every other step ended skipped.
   */
  lemma ExecutedIff(P: Problem, acts: seq<Action>, i: nat)
    requires ValidProblem(P) && Exec(P, acts).Some? && i < |P.steps|
    requires Exec(P, acts).value.phase == Done && !Exec(P, acts).value.cancelled
    ensures GroupsInPlan(P) && i in P.stage && P.stage[i] < |P.groups|
    ensures Executed(Exec(P, acts).value, i) <==>
              && !RequiresUnavailable(P.steps[i], Exec(P, acts).value.ledger.outcomes)
              && !MissesArtifact(P.steps[i], Reference(P, P.stage[i]).store)
    ensures !Executed(Exec(P, acts).value, i) ==>
              i in Exec(P, acts).value.ledger.slots && Exec(P, acts).value.ledger.slots[i].outcome == SKIPPED
    ensures Executed(Exec(P, acts).value, i) <==> Calls(acts, i) > 0
  {
    ExecutedMeansCalled(P, acts, i);
    var s := Exec(P, acts).value;
    GroupNamesNoDependency(P, i);
    ScheduleIndependence(P, acts);
    RunsInIff(P, i);
    StartedIffRunsIn(P, acts, i);
    hide *;
  }

  /** What a runnable step leaves in the reference: its settled result against the store its group was opened with. */
  lemma ReferenceResult(P: Problem, i: nat)
    requires ValidProblem(P) && GroupsInPlan(P) && i < |P.steps| && i in P.stage && P.stage[i] < |P.groups| && RunsIn(P, i)
    ensures var settled := Settle(P, i, 1, Reference(P, P.stage[i]).store);
            && (i in Reference(P, |P.groups|).slots <==> settled.Value?)
            && (settled.Value? ==> Reference(P, |P.groups|).slots[i] == settled.result)
  {
    hide *;
    ResultAfterGroup(P, i);
    ReferenceStable(P, P.stage[i] + 1, |P.groups|, i);
  }

  lemma ResultAfterGroup(P: Problem, i: nat)
    requires ValidProblem(P) && GroupsInPlan(P) && i < |P.steps| && i in P.stage && P.stage[i] < |P.groups| && RunsIn(P, i)
    ensures var settled, l := Settle(P, i, 1, Reference(P, P.stage[i]).store), Reference(P, P.stage[i] + 1);
            (i in l.slots <==> settled.Value?) && (settled.Value? ==> l.slots[i] == settled.result)
  {
    hide *;
    var k := P.stage[i];
    ReferenceSound(P, k);
    SoundSlots(P, k);
    GroupOfStage(P, k);
    IsRunnable(P, i);
    GroupResult(P, Reference(P, k), P.groups[k], k, i);
    ReferenceNext(P, k);
  }

  lemma SoundSlots(P: Problem, k: nat)
    requires GroupsInPlan(P) && k <= |P.groups| && Sound(P, k)
    ensures forall j :: j in Reference(P, k).slots ==> j in P.stage && P.stage[j] < k
  {
    hide Reference;
  }

  lemma IsRunnable(P: Problem, i: nat)
    requires GroupsInPlan(P) && i in P.stage && P.stage[i] < |P.groups| && RunsIn(P, i)
    ensures InPlan(P, P.groups[P.stage[i]]) && i in Runnable(P, Reference(P, P.stage[i]), P.groups[P.stage[i]])
  {
    hide Reference, Runnable;
  }

  lemma ReferenceNext(P: Problem, k: nat)
    requires GroupsInPlan(P) && k < |P.groups|
    ensures Reference(P, k + 1) == RunGroup(P, Reference(P, k), P.groups[k])
  {
    hide RunGroup;
  }

  lemma GroupResult(P: Problem, before: Ledger, group: seq<nat>, k: nat, i: nat)
    requires InPlan(P, group) && Graph.Ascending(group) && i in Runnable(P, before, group) && i < |P.steps|
    requires forall j :: j in group ==> j in P.stage && P.stage[j] == k
    requires i in P.stage && P.stage[i] == k && forall j :: j in before.slots ==> j in P.stage && P.stage[j] < k
    ensures var settled, l := Settle(P, i, 1, before.store), RunGroup(P, before, group);
            (i in l.slots <==> settled.Value?) && (settled.Value? ==> l.slots[i] == settled.result)
  {
    hide Settle, Graph.Ascending, InPlan;
    var l, run := OpenedLedger(P, before, group), Runnable(P, before, group);
    OpenedStore(P, before, group);
    RunnableInPlan(P, before, group);
    RunnableFacts(P, before, group);
    OpenedSlots(P, before, group);
    var results := Settled(P, run, l.store);
    InOrderMembers(results.Keys, |P.steps|);
    var order := InOrder(results.Keys, |P.steps|);
    assert InPlan(P, order) by { OrderInPlan(P, results, order); }
    hide OpenedLedger, Runnable, InOrder, Merged;
    MergedSlots(P, l, order, results);
  }

  lemma OrderInPlan(P: Problem, results: map<nat, StepResult>, order: seq<nat>)
    requires forall i :: i in order ==> i < |P.steps|
    ensures InPlan(P, order)
  {
  }

  /**
   * The results of a finished run that nobody cancelled: for a step that was executed, what its last attempt gave
   * against the store its group was opened with, every attempt before that one having been retried.
   */
  lemma ExecutedResult(P: Problem, acts: seq<Action>, i: nat) returns (last: nat)
    requires ValidProblem(P) && RanThrough(P, acts) && i < |P.steps| && Executed(Exec(P, acts).value, i)
    ensures GroupsInPlan(P) && i in P.stage && P.stage[i] < |P.groups| && i in Exec(P, acts).value.ledger.slots
    ensures 1 <= last <= P.steps[i].retryPolicy.maxAttempts
    ensures IsFinal(P, i, last, Reference(P, P.stage[i]).store, Value(Exec(P, acts).value.ledger.slots[i]))
    ensures forall a :: 1 <= a < last ==> IsRetried(P, i, a, Reference(P, P.stage[i]).store)
  {
    GroupNamesNoDependency(P, i);
    ScheduleIndependence(P, acts);
    AllFilled(P, acts);
    StartedIffRunsIn(P, acts, i);
    ReferenceResult(P, i);
    last := SettleMeaning(P, i, Reference(P, P.stage[i]).store);
    hide *;
  }

  lemma StartedIffRunsIn(P: Problem, acts: seq<Action>, i: nat)
    requires ValidProblem(P) && Exec(P, acts).Some? && i < |P.steps| && GroupsInPlan(P)
    requires i in P.stage && P.stage[i] < |P.groups|
    requires Exec(P, acts).value.phase == Done && !Exec(P, acts).value.cancelled
    ensures Executed(Exec(P, acts).value, i) <==> RunsIn(P, i)
  {
    assert RanThrough(P, acts);
    hide *;
    RunRouted(P, acts);
    RunAgrees(P, acts);
    AllFilled(P, acts);
    RunKeeps(P, acts);
    LifeDecides(P, Exec(P, acts).value, i);
  }

  lemma LifeDecides(P: Problem, s: State, i: nat)
    requires GroupsInPlan(P) && Inv(P, s) && Agrees(P, s) && Routed(P, s) && s.phase == Done && !s.cancelled
    requires i < |P.steps| && i in P.stage && P.stage[i] < |P.groups| && i in s.ledger.slots
    ensures Executed(s, i) <==> RunsIn(P, i)
  {
    hide GroupsInPlan, Inv, Agrees, Routed, RunsIn, LifeOf, CountStarted, CountTerminal;
    FinalLife(P, s, i);
    LifeCounts(s.trace, i);
    FinalRoute(P, s, i);
  }

  lemma FinalRoute(P: Problem, s: State, i: nat)
    requires GroupsInPlan(P) && Agrees(P, s) && Routed(P, s) && s.phase == Done && !s.cancelled
    requires i < |P.steps| && i in P.stage && P.stage[i] < |P.groups|
    ensures RoutedLife(P, i, LifeOf(s.trace, i))
  {
    assert Entered(P, s, i);
    hide RoutedLife, LifeOf, Reference;
  }

  lemma FinalLife(P: Problem, s: State, i: nat)
    requires Inv(P, s) && i < |P.steps| && i in s.ledger.slots
    ensures LifeOf(s.trace, i).Over? || LifeOf(s.trace, i) == Bypassed
  {
    assert LifeFits(P, s, i, LifeOf(s.trace, i));
  }

  /** Step i names step j as a dependency that is not optional. */
  ghost predicate Requires(P: Problem, i: nat, j: nat) {
    i < |P.steps| && j < |P.steps| && exists d :: d in P.steps[i].dependsOn && !d.optional && d.stepId == P.steps[j].Identity()
  }

  /** c leads along required dependencies, each step requiring the next. */
  ghost predicate RequiredChain(P: Problem, c: seq<nat>) {
    c != [] && forall k, m :: 0 <= k < m < |c| && m == k + 1 ==> Requires(P, c[k], c[m])
  }

  /** Every step from which a failed or skipped step can be reached over required edges ends skipped and unexecuted. */
  lemma {:induction false} SkipsPropagate(P: Problem, acts: seq<Action>, c: seq<nat>)
    requires ValidProblem(P) && Exec(P, acts).Some?
    requires Exec(P, acts).value.phase == Done && !Exec(P, acts).value.cancelled
    requires RequiredChain(P, c) && |c| > 1
    requires c[|c| - 1] in Exec(P, acts).value.ledger.slots
    requires Exec(P, acts).value.ledger.slots[c[|c| - 1]].outcome in {FAILED, SKIPPED}
    ensures !Executed(Exec(P, acts).value, c[0]) && Calls(acts, c[0]) == 0
    ensures c[0] in Exec(P, acts).value.ledger.slots && Exec(P, acts).value.ledger.slots[c[0]].outcome == SKIPPED
    decreases |c|
  {
    var rest := c[1..];
    assert Requires(P, c[0], c[1]);
    RestOfChain(P, c);
    hide *;
    if |c| > 2 {
      SkipsPropagate(P, acts, rest);
    }
    SkipsOne(P, acts, c[0], c[1]);
    CallsMeanExecuted(P, acts, c[0]);
  }

  lemma CallsMeanExecuted(P: Problem, acts: seq<Action>, i: nat)
    requires ValidProblem(P) && Exec(P, acts).Some? && Exec(P, acts).value.phase == Done
    ensures !Executed(Exec(P, acts).value, i) ==> Calls(acts, i) == 0
  {
    hide ValidProblem, Exec;
    ExecutedMeansCalled(P, acts, i);
  }

  lemma RestOfChain(P: Problem, c: seq<nat>)
    requires RequiredChain(P, c) && |c| > 1
    ensures RequiredChain(P, c[1..]) && c[1..][0] == c[1] && c[1..][|c[1..]| - 1] == c[|c| - 1]
  {
    hide Requires;
  }

  lemma SkipsOne(P: Problem, acts: seq<Action>, i: nat, j: nat)
    requires ValidProblem(P) && Exec(P, acts).Some?
    requires Exec(P, acts).value.phase == Done && !Exec(P, acts).value.cancelled
    requires Requires(P, i, j) && j in Exec(P, acts).value.ledger.slots
    requires Exec(P, acts).value.ledger.slots[j].outcome in {FAILED, SKIPPED}
    ensures !Executed(Exec(P, acts).value, i)
    ensures i in Exec(P, acts).value.ledger.slots && Exec(P, acts).value.ledger.slots[i].outcome == SKIPPED
  {
    var s := Exec(P, acts).value;
    ExecutedIff(P, acts, i);
    RunKeeps(P, acts);
    RequiredUnavailable(P, s.ledger, i, j);
    hide *;
  }

  lemma RequiredUnavailable(P: Problem, l: Ledger, i: nat, j: nat)
    requires LedgerOk(P, l) && Requires(P, i, j) && j in l.slots && l.slots[j].outcome in {FAILED, SKIPPED}
    ensures RequiresUnavailable(P.steps[i], l.outcomes)
  {
    assert Recorded(P, l, j);
    var d :| d in P.steps[i].dependsOn && !d.optional && d.stepId == P.steps[j].Identity();
    assert Unavailable(l.outcomes, d.stepId);
  }
}
