/** The results about whole runs of the scheduler. A run is any sequence of actions, each possible when it is taken. */
module ScheduleTheorems {
  import opened Results
  import opened PlanModel
  import opened Artifacts
  import opened ScheduleMachine
  import opened ScheduleSafety
  import opened ScheduleOrder
  import Graph

  // ---------------------------------------------------------------- safety

  ghost predicate DependenciesRecorded(P: Problem, l: Ledger, i: nat)
    requires i < |P.steps|
  {
    forall d :: d in P.steps[i].dependsOn ==> d.stepId in l.outcomes
  }

  /**
   * After every run, cancelled and interrupted ones included: at most max_concurrency workers exist; a worker that is
   * inside the executor belongs to a step all of whose dependencies have a recorded outcome; and each step was handed
   * to the executor at most max_attempts times, never without being announced.
   */
  lemma RunsAreSafe(P: Problem, acts: seq<Action>)
    requires ValidProblem(P) && Exec(P, acts).Some?
    ensures |Exec(P, acts).value.pool.running| <= P.maxConcurrency
    ensures forall i :: i in Exec(P, acts).value.pool.running ==> i < |P.steps| && DependenciesRecorded(P, Exec(P, acts).value.ledger, i)
    ensures forall i: nat :: i < |P.steps| ==>
              Calls(acts, i) <= CountStarted(Exec(P, acts).value.trace, i) <= P.steps[i].retryPolicy.maxAttempts
  {
    var s := Exec(P, acts).value;
    RunKeeps(P, acts);
    forall i: nat | i < |P.steps|
      ensures Calls(acts, i) <= CountStarted(s.trace, i) <= P.steps[i].retryPolicy.maxAttempts
    {
      CallsAreAnnounced(P, acts, i);
      assert LifeFits(P, s, i, LifeOf(s.trace, i));
      LifeCounts(s.trace, i);
    }
    forall i | i in s.pool.running ensures i < |P.steps| && DependenciesRecorded(P, s.ledger, i) {
      RunningHasDependencies(P, s, i);
    }
  }

  lemma RunningHasDependencies(P: Problem, s: State, i: nat)
    requires ValidProblem(P) && Inv(P, s) && i in s.pool.running
    ensures i < |P.steps| && DependenciesRecorded(P, s.ledger, i)
  {
    RunningPlace(P, s, i);
    hide Shape, Filled, Threads, Traced, UniqueIds;
    EarlierRecorded(P, s.ledger, i);
  }

  lemma RunningPlace(P: Problem, s: State, i: nat)
    requires Shape(P, s) && Filled(P, s) && i in s.pool.running
    ensures i < |P.steps| && i in P.stage
    ensures forall j :: j in P.stage && P.stage[j] < P.stage[i] ==> j in s.ledger.slots
  {
    hide Graph.Ascending;
    assert i in s.pool.steps && Active(s);
  }

  lemma EarlierRecorded(P: Problem, l: Ledger, i: nat)
    requires Staged(P.steps, P.groups, P.stage) && LedgerOk(P, l) && i < |P.steps| && i in P.stage
    requires forall j :: j in P.stage && P.stage[j] < P.stage[i] ==> j in l.slots
    ensures DependenciesRecorded(P, l, i)
  {
    forall d | d in P.steps[i].dependsOn ensures d.stepId in l.outcomes {
      assert NamedBefore(P.steps, P.stage, P.stage[i], d.stepId);
      var j :| j in P.stage && j < |P.steps| && P.stage[j] < P.stage[i] && P.steps[j].Identity() == d.stepId;
      assert Recorded(P, l, j);
    }
  }

  /** The events of a step are queued, (started retrying)*, then started and a terminal event, or a skip: never else. */
  lemma TracesAreWellFormed(P: Problem, acts: seq<Action>, i: nat)
    requires ValidProblem(P) && Exec(P, acts).Some? && i < |P.steps|
    ensures LifeOf(Exec(P, acts).value.trace, i) != Broken
    ensures CountTerminal(Exec(P, acts).value.trace, i) <= 1
    ensures i in Exec(P, acts).value.ledger.slots ==> CountTerminal(Exec(P, acts).value.trace, i) == 1
  {
    var s := Exec(P, acts).value;
    RunKeeps(P, acts);
    assert LifeFits(P, s, i, LifeOf(s.trace, i));
    LifeCounts(s.trace, i);
  }

  // ---------------------------------------------------------------- cancellation

  /** The calls of the executor for one step, and all of them. */
  function Calls(acts: seq<Action>, i: nat): nat {
    if acts == [] then 0 else Calls(acts[..|acts| - 1], i) + if acts[|acts| - 1] == Call(i) then 1 else 0
  }

  function AllCalls(acts: seq<Action>): nat {
    if acts == [] then 0 else AllCalls(acts[..|acts| - 1]) + if acts[|acts| - 1].Call? then 1 else 0
  }

  predicate IsAnnounced(s: State, i: nat) {
    i in s.pool.running && s.pool.running[i].Announced?
  }

  /** The workers that have passed the test for cancellation and not yet called the executor. */
  function PastTest(s: State): set<nat> {
    set i | i in s.pool.running && (s.pool.running[i].Cleared? || s.pool.running[i].Announced?)
  }

  function One(b: bool): nat {
    if b then 1 else 0
  }

  lemma StartedAfter(trace: seq<Event>, e: seq<Event>, i: nat)
    requires |e| <= 1
    ensures CountStarted(trace + e, i) == CountStarted(trace, i) + One(e != [] && e[0].Started? && e[0].step == i)
  {
    if e == [] { assert trace + e == trace; } else { assert (trace + e)[..|trace|] == trace; }
  }

  lemma {:induction false} OpeningStartsNothing(P: Problem, l: Ledger, group: seq<nat>, trace: seq<Event>, i: nat)
    requires InPlan(P, group)
    ensures CountStarted(trace + OpeningEvents(P, l, group), i) == CountStarted(trace, i)
  {
    if group == [] {
      assert trace + [] == trace;
    } else {
      InPlanSnoc(P, group);
      var front := OpeningEvents(P, l, group[..|group| - 1]);
      OpeningStartsNothing(P, l, group[..|group| - 1], trace, i);
      var events := OpeningEvents(P, l, group);
      assert trace + events == (trace + front) + [events[|events| - 1]];
      StartedAfter(trace + front, [events[|events| - 1]], i);
    }
  }

  lemma CallStep(P: Problem, s: State, a: Action, i: nat)
    requires Inv(P, s) && Enabled(P, s, a)
    ensures CountStarted(Apply(P, s, a).trace, i) == CountStarted(s.trace, i) + One(a == Announce(i))
    ensures One(IsAnnounced(Apply(P, s, a), i)) + One(a == Call(i)) == One(IsAnnounced(s, i)) + One(a == Announce(i))
  {
    hide CountStarted, Inv, MergedWave, AttemptResult, AfterAttempt, GivesUp, OpeningEvents, OpenedLedger, Runnable;
    NewPlaces(P, s);
    match a
    case OpenWave => OpeningStartsNothing(P, s.ledger, P.groups[s.wave], s.trace, i);
    case Begin(j) => BeginStartsNothing(P, s, j, s.pool.running[j].attempt, i);
    case Announce(j) => StartedAfter(s.trace, [Started(j, s.pool.running[j].attempt)], i);
    case Call(j) => StartedAfter(s.trace, [], i);
    case Return(j) =>
      var n := s.pool.running[j].attempt;
      ReturnStartsNothing(P, s, j, n, P.execute(j, n, s.ledger.store), i);
    case Wake(j) => WakeStartsNothing(P, s, j, s.pool.running[j].attempt, i);
    case _ =>
  }

  lemma GivingUpStartsNothing(P: Problem, s: State, j: nat, a: nat, reason: string, i: nat)
    requires j < |P.steps| && !IsAnnounced(s, j)
    ensures var s' := GivesUp(P, s, j, a, reason);
            CountStarted(s'.trace, i) == CountStarted(s.trace, i) && IsAnnounced(s', i) == IsAnnounced(s, i)
  {
    StartedAfter(s.trace, [Ended(j, a, SkippedResult(P.steps[j], reason).outcome)], i);
    hide CountStarted;
  }

  lemma BeginStartsNothing(P: Problem, s: State, j: nat, a: nat, i: nat)
    requires j < |P.steps| && !IsAnnounced(s, j)
    ensures var s' := AfterBegin(P, s, j, a);
            CountStarted(s'.trace, i) == CountStarted(s.trace, i) && IsAnnounced(s', i) == IsAnnounced(s, i)
  {
    hide CountStarted, GivesUp;
    GivingUpStartsNothing(P, s, j, a, "execution cancelled", i);
    StartedAfter(s.trace, [], i);
  }

  lemma WakeStartsNothing(P: Problem, s: State, j: nat, a: nat, i: nat)
    requires j < |P.steps| && !IsAnnounced(s, j)
    ensures var s' := AfterWake(P, s, j, a);
            CountStarted(s'.trace, i) == CountStarted(s.trace, i) && IsAnnounced(s', i) == IsAnnounced(s, i)
  {
    hide CountStarted, GivesUp;
    GivingUpStartsNothing(P, s, j, a, "execution cancelled during retry backoff", i);
    StartedAfter(s.trace, [], i);
  }

  lemma ReturnStartsNothing(P: Problem, s: State, j: nat, a: nat, attempt: Attempt, i: nat)
    requires j < |P.steps| && !IsAnnounced(s, j)
    ensures var s' := AfterAttempt(P, s, j, a, attempt);
            CountStarted(s'.trace, i) == CountStarted(s.trace, i) && IsAnnounced(s', i) == IsAnnounced(s, i)
  {
    hide CountStarted, AttemptResult;
    StartedAfter(s.trace, [], i);
    StartedAfter(s.trace, [Retrying(j, a)], i);
    if !attempt.Interrupted? { StartedAfter(s.trace, [Ended(j, a, AttemptResult(P, j, attempt).outcome)], i); }
  }

  lemma NewPlaces(P: Problem, s: State)
    requires Inv(P, s)
    ensures s.phase == Between ==> s.pool.running == map[]
    ensures s.pool.pending != [] ==> s.pool.pending[0] !in s.pool.running
  {
    assert s.pool.pending != [] ==> s.pool.pending[0] in s.pool.pending;
    hide Traced, Filled, LedgerOk, Threads, Graph.Ascending;
  }

  /** Every announced attempt is one call of the executor, made or just about to be made. */
  lemma {:induction false} CallsAreAnnounced(P: Problem, acts: seq<Action>, i: nat)
    requires ValidProblem(P) && Exec(P, acts).Some?
    ensures Calls(acts, i) + One(IsAnnounced(Exec(P, acts).value, i)) == CountStarted(Exec(P, acts).value.trace, i)
  {
    hide Apply, Enabled, Inv, ValidProblem, IsAnnounced;
    if acts == [] {
      NothingCalled(P, i);
    } else {
      var front := acts[..|acts| - 1];
      CallsAreAnnounced(P, front, i);
      RunKeeps(P, front);
      CallStep(P, Exec(P, front).value, acts[|acts| - 1], i);
    }
  }

  lemma NothingCalled(P: Problem, i: nat)
    ensures CountStarted(Initial(P).trace, i) == 0 && !IsAnnounced(Initial(P), i)
  {
  }

  /** What a single step may do once the run is cancelled: only a call takes a worker out of those past the test. */
  lemma CancelledStep(P: Problem, s: State, a: Action)
    requires s.cancelled && Enabled(P, s, a)
    ensures Apply(P, s, a).cancelled
    ensures PastTest(Apply(P, s, a)) == PastTest(s) - if a.Call? then {a.step} else {}
    ensures a.Call? ==> a.step in PastTest(s)
  {
    hide AttemptResult, MergedWave;
  }

  /**
   * Cancellation is for good. From then on no worker passes its test; each worker already past it makes one more call
   * of the executor or is still to make it, and nobody else makes any; so at most as many calls begin as workers were
   * past their test.
   */
  lemma {:induction false} CancelBoundsCalls(P: Problem, acts: seq<Action>, more: seq<Action>)
    requires Exec(P, acts).Some? && Exec(P, acts + more).Some? && Exec(P, acts).value.cancelled
    ensures Exec(P, acts + more).value.cancelled
    ensures PastTest(Exec(P, acts + more).value) <= PastTest(Exec(P, acts).value)
    ensures forall i: nat ::
              Calls(more, i) + One(i in PastTest(Exec(P, acts + more).value)) == One(i in PastTest(Exec(P, acts).value))
    ensures AllCalls(more) + |PastTest(Exec(P, acts + more).value)| == |PastTest(Exec(P, acts).value)|
    decreases |more|
  {
    hide Apply, Enabled, PastTest;
    if more == [] {
      assert acts + more == acts;
    } else {
      var front, last := more[..|more| - 1], more[|more| - 1];
      assert (acts + more)[..|acts + more| - 1] == acts + front;
      CancelBoundsCalls(P, acts, front);
      CancelledStep(P, Exec(P, acts + front).value, last);
    }
  }

  /** So at most max_concurrency calls of the executor begin after a cancellation. */
  lemma CancelAllowsFewCalls(P: Problem, acts: seq<Action>, more: seq<Action>)
    requires ValidProblem(P)
    requires Exec(P, acts).Some? && Exec(P, acts + more).Some? && Exec(P, acts).value.cancelled
    ensures AllCalls(more) <= |PastTest(Exec(P, acts).value)| <= P.maxConcurrency
  {
    RunKeeps(P, acts);
    CancelBoundsCalls(P, acts, more);
    var s := Exec(P, acts).value;
    hide Exec, AllCalls, LifeOf, Traced, Filled, LedgerOk, Shape;
    PartIsSmaller(PastTest(s), s.pool.running.Keys);
    assert |s.pool.running.Keys| == |s.pool.running|;
  }

  lemma {:induction false} PartIsSmaller(a: set<nat>, b: set<nat>)
    requires a <= b
    ensures |a| <= |b|
    decreases a
  {
    if a != {} {
      var x :| x in a;
      PartIsSmaller(a - {x}, b - {x});
    }
  }

  /** And these calls do happen: the test is not repeated, so a worker past it goes on to the executor. */
  lemma CallsAfterCancelHappen(P: Problem, acts: seq<Action>, i: nat) returns (more: seq<Action>)
    requires ValidProblem(P) && Exec(P, acts).Some? && Exec(P, acts).value.cancelled && i in PastTest(Exec(P, acts).value)
    ensures Exec(P, acts + more).Some? && Calls(more, i) == 1
  {
    hide *;
    RunKeeps(P, acts);
    var s := Exec(P, acts).value;
    PastTestIsAt(P, s, i);
    MayCallNext(P, s, i);
    OneCall(i);
    if s.pool.running[i].Cleared? {
      TwoMore(P, acts, Announce(i), Call(i));
      more := [Announce(i), Call(i)];
    } else {
      ExecSnoc(P, acts, Call(i));
      more := [Call(i)];
    }
  }

  lemma MayCallNext(P: Problem, s: State, i: nat)
    requires At(s, i, P) && i in PastTest(s)
    ensures s.pool.running[i].Cleared? ==> Enabled(P, s, Announce(i)) && Enabled(P, Apply(P, s, Announce(i)), Call(i))
    ensures !s.pool.running[i].Cleared? ==> Enabled(P, s, Call(i))
    ensures i in s.pool.running
  {
  }

  lemma OneCall(i: nat)
    ensures Calls([Call(i)], i) == 1 && Calls([Announce(i), Call(i)], i) == 1
  {
    assert Calls([], i) == 0;
    assert [Announce(i), Call(i)][..1] == [Announce(i)];
  }

  lemma ExecSnoc(P: Problem, acts: seq<Action>, a: Action)
    requires Exec(P, acts).Some? && Enabled(P, Exec(P, acts).value, a)
    ensures Exec(P, acts + [a]) == Some(Apply(P, Exec(P, acts).value, a))
  {
    hide Enabled, Apply;
    assert (acts + [a])[..|acts|] == acts;
  }

  lemma TwoMore(P: Problem, acts: seq<Action>, a: Action, b: Action)
    requires Exec(P, acts).Some? && Enabled(P, Exec(P, acts).value, a)
    requires Enabled(P, Apply(P, Exec(P, acts).value, a), b)
    ensures Exec(P, acts + [a, b]).Some?
  {
    hide *;
    ExecSnoc(P, acts, a);
    ExecSnoc(P, acts + [a], b);
    assert acts + [a, b] == (acts + [a]) + [b];
  }

  lemma PastTestIsAt(P: Problem, s: State, i: nat)
    requires Inv(P, s) && i in PastTest(s)
    ensures At(s, i, P) && i in s.pool.running
  {
    hide Traced, Filled, LedgerOk, Threads, Graph.Ascending;
  }

  /** The tuple of results the program returns: the filled slots in plan order. */
  function ResultOrder(P: Problem, s: State): seq<nat> {
    InOrder(s.ledger.slots.Keys, |P.steps|)
  }

  /**
   * The account of every finished run: the counter equals the number of filled slots and of returned results; results
   * stand in plan order; all groups before the last one entered are complete; an interrupted group contributed only
   * the steps its dependencies skipped; an uncancelled run fills every slot.
   */
  lemma FinishedAccount(P: Problem, acts: seq<Action>)
    requires ValidProblem(P) && Exec(P, acts).Some? && Exec(P, acts).value.phase == Done
    ensures var s := Exec(P, acts).value;
            && s.ledger.completed == |s.ledger.slots| == |ResultOrder(P, s)|
            && Graph.Ascending(ResultOrder(P, s)) && (forall i :: i in ResultOrder(P, s) <==> i in s.ledger.slots)
            && (forall i :: i in P.stage && P.stage[i] + 1 < s.wave ==> i in s.ledger.slots)
            && (forall i :: i in s.ledger.slots ==> i in P.stage && P.stage[i] < s.wave)
            && (s.interrupted ==> forall i :: i in s.ledger.slots && P.stage[i] + 1 == s.wave ==> LifeOf(s.trace, i) == Bypassed)
            && (!s.cancelled ==> forall i: nat :: i < |P.steps| ==> i in s.ledger.slots)
  {
    var s := Exec(P, acts).value;
    RunKeeps(P, acts);
    hide ValidProblem, LifeOf, Inv;
    InOrderMembers(s.ledger.slots.Keys, |P.steps|);
    InOrderLength(s.ledger.slots.Keys, |P.steps|);
    SlotsInPlan(P, s);
    if s.interrupted { InterruptedSlots(P, s); }
    FilledSlots(P, s);
    if !s.cancelled { AllFilled(P, acts); }
  }

  lemma SlotsInPlan(P: Problem, s: State)
    requires Inv(P, s)
    ensures forall i :: i in s.ledger.slots ==> i < |P.steps|
    ensures s.ledger.completed == |s.ledger.slots|
  {
  }

  lemma FilledSlots(P: Problem, s: State)
    requires Inv(P, s) && s.phase == Done
    ensures forall i :: i in P.stage && P.stage[i] + 1 < s.wave ==> i in s.ledger.slots
    ensures forall i :: i in s.ledger.slots ==> i in P.stage && P.stage[i] < s.wave
  {
    hide Traced, Threads, LedgerOk, Shape;
  }

  lemma InterruptedSlots(P: Problem, s: State)
    requires Inv(P, s) && s.phase == Done && s.interrupted
    ensures forall i :: i in s.ledger.slots && i in P.stage && P.stage[i] + 1 == s.wave ==> LifeOf(s.trace, i) == Bypassed
  {
    forall i | i in s.ledger.slots && i in P.stage && P.stage[i] + 1 == s.wave ensures LifeOf(s.trace, i) == Bypassed {
      assert i < |P.steps| && LifeFits(P, s, i, LifeOf(s.trace, i));
      hide LifeOf;
    }
  }

  /** A run that is over and that nobody cancelled. */
  predicate RanThrough(P: Problem, acts: seq<Action>) {
    Exec(P, acts).Some? && Exec(P, acts).value.phase == Done && !Exec(P, acts).value.cancelled
  }

  lemma AllFilled(P: Problem, acts: seq<Action>)
    requires ValidProblem(P) && RanThrough(P, acts)
    ensures forall i: nat :: i < |P.steps| ==> i in Exec(P, acts).value.ledger.slots
  {
    var s := Exec(P, acts).value;
    RunKeeps(P, acts);
    StagedInPlan(P);
    RunAgrees(P, acts);
    hide LifeOf, Exec, Traced, Threads, LedgerOk, Reference, UniqueIds;
    forall i: nat | i < |P.steps| ensures i in s.ledger.slots {
      assert i in P.stage && P.stage[i] < |P.groups|;
    }
  }

  lemma {:induction false} InOrderLength(keys: set<nat>, n: nat)
    requires forall i :: i in keys ==> i < n
    ensures |InOrder(keys, n)| == |keys|
  {
    if n > 0 {
      var rest := keys - {n - 1};
      InOrderLength(rest, n - 1);
      SameBelow(keys, rest, n - 1);
    }
  }

  lemma {:induction false} SameBelow(a: set<nat>, b: set<nat>, n: nat)
    requires forall i: nat :: i < n ==> (i in a <==> i in b)
    ensures InOrder(a, n) == InOrder(b, n)
  {
    if n > 0 { SameBelow(a, b, n - 1); }
  }

  // ---------------------------------------------------------------- schedule independence

  /**
   * Whatever order the futures completed in and whenever the steps were submitted, a finished run that nobody
   * cancelled leaves the slots, outcomes, store and counter of the sequential reference.
   */
  lemma ScheduleIndependence(P: Problem, acts: seq<Action>)
    requires ValidProblem(P) && RanThrough(P, acts)
    ensures GroupsInPlan(P) && Exec(P, acts).value.ledger == Reference(P, |P.groups|)
  {
    StagedInPlan(P);
    hide ValidProblem, Exec;
    RunAgrees(P, acts);
  }

  /** The concurrency limit plays no part either: two runs under different limits end alike. */
  lemma LimitDoesNotMatter(P: Problem, limit: nat, acts: seq<Action>, acts': seq<Action>)
    requires ValidProblem(P) && limit >= 1
    requires RanThrough(P, acts) && RanThrough(P.(maxConcurrency := limit), acts')
    ensures Exec(P.(maxConcurrency := limit), acts').value.ledger == Exec(P, acts).value.ledger
  {
    var P' := P.(maxConcurrency := limit);
    ScheduleIndependence(P, acts);
    ScheduleIndependence(P', acts');
    hide ValidProblem, Exec;
    SameReference(P, limit, |P.groups|);
  }

  lemma {:induction false} SameReference(P: Problem, limit: nat, k: nat)
    requires GroupsInPlan(P) && GroupsInPlan(P.(maxConcurrency := limit)) && k <= |P.groups|
    ensures Reference(P.(maxConcurrency := limit), k) == Reference(P, k)
  {
    hide RunGroup, InPlan;
    if k > 0 {
      SameReference(P, limit, k - 1);
      SameGroup(P, limit, Reference(P, k - 1), P.groups[k - 1]);
    }
  }

  lemma SameGroup(P: Problem, limit: nat, before: Ledger, group: seq<nat>)
    requires InPlan(P, group) && InPlan(P.(maxConcurrency := limit), group)
    ensures RunGroup(P.(maxConcurrency := limit), before, group) == RunGroup(P, before, group)
  {
    var P' := P.(maxConcurrency := limit);
    SameOpening(P, limit, before, group);
    RunnableInPlan(P, before, group);
    var run, l := Runnable(P, before, group), OpenedLedger(P, before, group);
    SameSettling(P, limit, run, l.store);
    var results := SettledResults(P, run, l.store);
    assert forall i :: i in results ==> i in run && i < |P.steps|;
    InOrderMembers(results.Keys, |P.steps|);
    hide OpenedLedger, Runnable, SettledResults, Merged, InOrder;
    SameMerging(P, limit, l, InOrder(results.Keys, |P.steps|), results);
  }

  lemma {:induction false} SameOpening(P: Problem, limit: nat, l: Ledger, group: seq<nat>)
    requires InPlan(P, group) && InPlan(P.(maxConcurrency := limit), group)
    ensures OpenedLedger(P.(maxConcurrency := limit), l, group) == OpenedLedger(P, l, group)
    ensures Runnable(P.(maxConcurrency := limit), l, group) == Runnable(P, l, group)
  {
    if group != [] {
      InPlanSnoc(P, group);
      SameOpening(P, limit, l, group[..|group| - 1]);
    }
  }

  lemma {:induction false} SameSettle(P: Problem, limit: nat, i: nat, a: nat, store: seq<Artifact>)
    requires i < |P.steps|
    ensures Settle(P.(maxConcurrency := limit), i, a, store) == Settle(P, i, a, store)
    decreases P.steps[i].retryPolicy.maxAttempts - a
  {
    if a < P.steps[i].retryPolicy.maxAttempts { SameSettle(P, limit, i, a + 1, store); }
  }

  lemma SameSettling(P: Problem, limit: nat, runnable: seq<nat>, store: seq<Artifact>)
    requires InPlan(P, runnable) && InPlan(P.(maxConcurrency := limit), runnable)
    ensures SettledResults(P.(maxConcurrency := limit), runnable, store) == SettledResults(P, runnable, store)
  {
    forall i | i in runnable ensures Settle(P.(maxConcurrency := limit), i, 1, store) == Settle(P, i, 1, store) {
      SameSettle(P, limit, i, 1, store);
    }
  }

  lemma {:induction false} SameMerging(P: Problem, limit: nat, l: Ledger, order: seq<nat>, results: map<nat, StepResult>)
    requires InPlan(P, order) && InPlan(P.(maxConcurrency := limit), order) && forall i :: i in order ==> i in results
    ensures Merged(P.(maxConcurrency := limit), l, order, results) == Merged(P, l, order, results)
  {
    if order != [] {
      InPlanSnoc(P, order);
      assert forall i :: i in order[..|order| - 1] ==> i in order;
      SameMerging(P, limit, l, order[..|order| - 1], results);
    }
  }

  // ---------------------------------------------------------------- the final store

  /** The artifacts of the given results, in the given order. */
  function Listed(order: seq<nat>, results: map<nat, StepResult>): seq<Artifact>
    requires forall i :: i in order ==> i in results
  {
    if order == [] then []
    else
      assert order[|order| - 1] in order;
      assert forall i :: i in order[..|order| - 1] ==> i in order;
      Listed(order[..|order| - 1], results) + results[order[|order| - 1]].artifacts
  }

  lemma {:induction false} MergedStore(P: Problem, l: Ledger, order: seq<nat>, results: map<nat, StepResult>)
    requires InPlan(P, order) && forall i :: i in order ==> i in results
    ensures Merged(P, l, order, results).store == AddedAll(l.store, Listed(order, results))
  {
    if order != [] {
      var front, i := order[..|order| - 1], order[|order| - 1];
      InPlanSnoc(P, order);
      assert i in order && forall j :: j in front ==> j in order;
      MergedStore(P, l, front, results);
      AddedAllJoin(l.store, Listed(front, results), results[i].artifacts);
    }
  }

  lemma {:induction false} OpenedStore(P: Problem, l: Ledger, group: seq<nat>)
    requires InPlan(P, group)
    ensures OpenedLedger(P, l, group).store == l.store
  {
    if group != [] {
      InPlanSnoc(P, group);
      OpenedStore(P, l, group[..|group| - 1]);
    }
  }

  /** What one group adds to the store. */
  function GroupArtifacts(P: Problem, before: Ledger, group: seq<nat>): seq<Artifact>
    requires InPlan(P, group)
  {
    RunnableInPlan(P, before, group);
    var results := SettledResults(P, Runnable(P, before, group), OpenedLedger(P, before, group).store);
    InOrderMembers(results.Keys, |P.steps|);
    Listed(InOrder(results.Keys, |P.steps|), results)
  }

  lemma GroupStore(P: Problem, k: nat)
    requires GroupsInPlan(P) && 0 < k <= |P.groups|
    ensures Reference(P, k).store == AddedAll(Reference(P, k - 1).store, GroupArtifacts(P, Reference(P, k - 1), P.groups[k - 1]))
  {
    var group, before := P.groups[k - 1], Reference(P, k - 1);
    OpenedStore(P, before, group);
    RunnableInPlan(P, before, group);
    var l := OpenedLedger(P, before, group);
    var results := SettledResults(P, Runnable(P, before, group), l.store);
    InOrderMembers(results.Keys, |P.steps|);
    MergedStore(P, l, InOrder(results.Keys, |P.steps|), results);
    hide OpenedLedger, Runnable, SettledResults, InOrder, Merged, Listed, AddedAll;
  }

  /** All artifacts the sequential run produces in its first k groups, by group and then by step index. */
  function Produced(P: Problem, k: nat): seq<Artifact>
    requires GroupsInPlan(P) && k <= |P.groups|
  {
    if k == 0 then [] else Produced(P, k - 1) + GroupArtifacts(P, Reference(P, k - 1), P.groups[k - 1])
  }

  /** The store is what remains of the initial and all produced artifacts, in (group, index) order, when later duplicates are dropped. */
  lemma {:induction false} FinalStore(P: Problem, k: nat)
    requires GroupsInPlan(P) && k <= |P.groups| && DistinctKeys(P.initial)
    ensures Reference(P, k).store == FirstOccurrences(P.initial + Produced(P, k))
  {
    hide *;
    if k == 0 {
      NothingProduced(P);
    } else {
      FinalStore(P, k - 1);
      GroupStore(P, k);
      ProducedOne(P, k);
    }
  }

  lemma NothingProduced(P: Problem)
    requires GroupsInPlan(P) && DistinctKeys(P.initial)
    ensures Reference(P, 0).store == FirstOccurrences(P.initial + Produced(P, 0))
  {
    assert Reference(P, 0) == EmptyLedger(P) && P.initial + Produced(P, 0) == P.initial;
    DistinctAreFirst(P.initial);
  }

  lemma ProducedOne(P: Problem, k: nat)
    requires GroupsInPlan(P) && 0 < k <= |P.groups|
    ensures FirstOccurrences(P.initial + Produced(P, k))
         == AddedAll(FirstOccurrences(P.initial + Produced(P, k - 1)), GroupArtifacts(P, Reference(P, k - 1), P.groups[k - 1]))
  {
    var before, more := P.initial + Produced(P, k - 1), GroupArtifacts(P, Reference(P, k - 1), P.groups[k - 1]);
    ProducedSnoc(P, k);
    hide *;
    AddedAllIsFirstOccurrences(before);
    AddedAllJoin([], before, more);
    AddedAllIsFirstOccurrences(before + more);
  }

  lemma ProducedSnoc(P: Problem, k: nat)
    requires GroupsInPlan(P) && 0 < k <= |P.groups|
    ensures P.initial + Produced(P, k) == (P.initial + Produced(P, k - 1)) + GroupArtifacts(P, Reference(P, k - 1), P.groups[k - 1])
  {
    hide GroupArtifacts, Reference;
  }
}
