/** The scheduler as it is written: schedule_plan, _run_wave and the control object, tied to the step system. */
module ScheduleProgram {
  import opened Results
  import opened PlanModel
  import opened Artifacts
  import opened ScheduleMachine
  import opened ScheduleSafety
  import opened ScheduleOrder
  import opened ScheduleTheorems
  import opened ScheduleProgress
  import opened Entries
  import Graph

  /** Cooperative cancellation state of one run. */
  class ExecutionControl {
    var cancelled: bool
    var reason: string

    constructor (cancelled: bool)
      ensures this.cancelled == cancelled && reason == ""
    {
      this.cancelled, reason := cancelled, "";
    }

    method Cancel(why: string)
      modifies this
      ensures cancelled && reason == why
    {
      cancelled, reason := true, why;
    }
  }

  // ---------------------------------------------------------------- the environment

  /**
   * The world beside the main thread. `cancels` and `moves` are asked at every moment the clock counts: does a user
   * cancel now, and which worker may run now? `interrupts` is asked at every moment inside a wave, which `heard`
   * counts: does a keyboard interrupt reach the main thread now? `drops` says which futures a pool drops that shuts
   * down before they start.
   */
  class Environment {
    const cancels: nat -> bool
    const moves: nat -> Option<nat>
    const interrupts: nat -> bool
    const drops: nat -> bool
    var clock: nat
    var heard: nat

    constructor (cancels: nat -> bool, moves: nat -> Option<nat>, interrupts: nat -> bool, drops: nat -> bool)
      ensures this.cancels == cancels && this.moves == moves && this.interrupts == interrupts && this.drops == drops
      ensures clock == heard == 0
    {
      this.cancels, this.moves, this.interrupts, this.drops := cancels, moves, interrupts, drops;
      clock, heard := 0, 0;
    }
  }

  ghost predicate Asked(happens: nat -> bool, from: nat, to: nat) {
    exists t: nat :: from <= t < to && happens(t)
  }

  /** Nobody ever cancels, and no keyboard interrupt ever reaches the main thread. */
  ghost predicate Calm(env: Environment) {
    forall t: nat :: !env.cancels(t) && !env.interrupts(t)
  }

  ghost predicate ExecutorInterrupts(P: Problem) {
    exists i: nat, a: nat, store: seq<Artifact> :: P.execute(i, a, store).Interrupted?
  }

  /** Where a run began: whether it was cancelled already, and the two counts of moments. */
  datatype Origin = Origin(cancelled: bool, clock: nat, heard: nat)

  /**
   * A run is cancelled exactly when it began so, a user has cancelled since, or it was interrupted. It is interrupted
   * if a keyboard interrupt came, and only then or when the executor itself was interrupted.
   */
  ghost predicate Accounted(P: Problem, from: Origin, env: Environment, cancelled: bool, interrupted: bool, keyboard: bool)
    reads env
  {
    && from.clock <= env.clock && from.heard <= env.heard
    && (cancelled <==> from.cancelled || Asked(env.cancels, from.clock, env.clock) || interrupted)
    && (Asked(env.interrupts, from.heard, env.heard) ==> interrupted || keyboard)
    && (keyboard ==> Asked(env.interrupts, from.heard, env.heard))
    && (interrupted ==> Asked(env.interrupts, from.heard, env.heard) || ExecutorInterrupts(P))
  }

  lemma AskedLater(happens: nat -> bool, from: nat, to: nat)
    requires from <= to
    ensures Asked(happens, from, to + 1) <==> Asked(happens, from, to) || happens(to)
  {
    if happens(to) {
      assert from <= to < to + 1;
    }
    if Asked(happens, from, to) {
      var t: nat :| from <= t < to && happens(t);
      assert from <= t < to + 1;
    }
  }

  /** A future that ends in an interruption was interrupted by the executor. */
  ghost predicate NoStrayInterruption(P: Problem, s: State) {
    forall i :: i in s.pool.running && s.pool.running[i] == Finished(Interruption) ==> ExecutorInterrupts(P)
  }

  lemma NoStrayStep(P: Problem, s: State, a: Action)
    requires NoStrayInterruption(P, s) && Enabled(P, s, a)
    ensures NoStrayInterruption(P, Apply(P, s, a))
  {
    hide ExecutorInterrupts, OpenedLedger, Runnable, OpeningEvents, MergedWave, AllFinished, CanRetry;
    var s' := Apply(P, s, a);
    match a
    case Return(i) =>
      var a := s.pool.running[i].attempt;
      if P.execute(i, a, s.ledger.store).Interrupted? { InterruptedOnce(P, i, a, s.ledger.store); }
      assert forall j :: j in s'.pool.running && j != i ==> s'.pool.running[j] == s.pool.running[j];
    case _ =>
  }

  lemma InterruptedOnce(P: Problem, i: nat, a: nat, store: seq<Artifact>)
    requires P.execute(i, a, store).Interrupted?
    ensures ExecutorInterrupts(P)
  {
  }

  lemma {:induction false} NoStrayInterruptions(P: Problem, acts: seq<Action>)
    requires Exec(P, acts).Some?
    ensures NoStrayInterruption(P, Exec(P, acts).value)
  {
    hide Apply, Enabled;
    if acts != [] {
      NoStrayInterruptions(P, acts[..|acts| - 1]);
      NoStrayStep(P, Exec(P, acts[..|acts| - 1]).value, acts[|acts| - 1]);
    }
  }

  // ---------------------------------------------------------------- reachable states

  ghost predicate Reachable(P: Problem, s: State) {
    exists acts :: Exec(P, acts) == Some(s)
  }

  lemma Start(P: Problem)
    ensures Reachable(P, Initial(P))
  {
    assert Exec(P, []) == Some(Initial(P));
  }

  lemma Take(P: Problem, s: State, a: Action)
    requires Reachable(P, s) && Enabled(P, s, a)
    ensures Reachable(P, Apply(P, s, a))
    ensures ValidProblem(P) ==> Measure(P, Apply(P, s, a)) < Measure(P, s)
  {
    hide Apply, Enabled, Measure, Inv, ValidProblem;
    var acts :| Exec(P, acts) == Some(s);
    assert (acts + [a])[..|acts + [a]| - 1] == acts;
    assert Exec(P, acts + [a]) == Some(Apply(P, s, a));
    if ValidProblem(P) {
      RunKeeps(P, acts);
      StepUses(P, s, a);
    }
  }

  lemma Sound(P: Problem, s: State)
    requires ValidProblem(P) && Reachable(P, s)
    ensures Inv(P, s)
    ensures GroupsInPlan(P) && Agrees(P, s)
  {
    hide Inv, Agrees, ValidProblem, GroupsInPlan;
    var acts :| Exec(P, acts) == Some(s);
    StagedInPlan(P);
    RunKeeps(P, acts);
    RunAgrees(P, acts);
  }

  // ---------------------------------------------------------------- the local variables of schedule_plan

  /** The list of result slots agrees with the slots of a ledger. */
  ghost predicate SlotsAre(P: Problem, slots: seq<Option<StepResult>>, m: map<nat, StepResult>) {
    && |slots| == |P.steps|
    && (forall i :: i in m ==> i < |slots|)
    && (forall i: nat :: i < |slots| ==> slots[i] == if i in m then Some(m[i]) else None)
  }

  ghost predicate Locals(P: Problem, slots: seq<Option<StepResult>>, outcomes: map<string, StepResult>, completed: nat,
                         l: Ledger)
  {
    SlotsAre(P, slots, l.slots) && outcomes == l.outcomes && completed == l.completed
  }

  lemma PrefixInPlan(P: Problem, indexes: seq<nat>, k: nat)
    requires InPlan(P, indexes) && k < |indexes|
    ensures InPlan(P, indexes[..k]) && InPlan(P, indexes[..k + 1]) && indexes[k] < |P.steps|
    ensures indexes[..k + 1][..k] == indexes[..k] && indexes[..k + 1][k] == indexes[k]
  {
    var longer := indexes[..k + 1];
    forall i | i in longer ensures i in indexes {
    }
    InPlanSnoc(P, longer);
    assert longer[..k] == indexes[..k];
  }

  /** Recording a result in the local variables is recording it in the ledger. */
  lemma RecordLocals(P: Problem, slots: seq<Option<StepResult>>, outcomes: map<string, StepResult>, completed: nat,
                     l: Ledger, i: nat, r: StepResult)
    requires Locals(P, slots, outcomes, completed, l) && i < |P.steps|
    ensures i < |slots|
    ensures Locals(P, slots[i := Some(r)], outcomes[P.steps[i].Identity() := r], completed + 1, Record(P, l, i, r))
  {
  }

  lemma OpenOne(P: Problem, group: seq<nat>, l: Ledger, k: nat)
    requires InPlan(P, group) && k < |group|
    ensures InPlan(P, group[..k]) && InPlan(P, group[..k + 1]) && group[k] < |P.steps|
    ensures var l' := OpenedLedger(P, l, group[..k]);
            && l'.store == l.store
            && (Skip(P, l', group[k]).Some? ==>
                  OpenedLedger(P, l, group[..k + 1]) == Record(P, l', group[k], Skip(P, l', group[k]).value) &&
                  Runnable(P, l, group[..k + 1]) == Runnable(P, l, group[..k]))
            && (Skip(P, l', group[k]).None? ==>
                  OpenedLedger(P, l, group[..k + 1]) == l' &&
                  Runnable(P, l, group[..k + 1]) == Runnable(P, l, group[..k]) + [group[k]])
  {
    PrefixInPlan(P, group, k);
    OpenedStore(P, l, group[..k]);
  }

  lemma OpenNone(P: Problem, l: Ledger)
    ensures InPlan(P, []) && OpenedLedger(P, l, []) == l && Runnable(P, l, []) == []
  {
  }

  /** The first loop over a group: record a skip, or keep the step for the pool. */
  method OpenGroup(P: Problem, group: seq<nat>, slots: seq<Option<StepResult>>, outcomes: map<string, StepResult>,
                   completed: nat, artifacts: seq<Artifact>, ghost l: Ledger)
    returns (slots': seq<Option<StepResult>>, outcomes': map<string, StepResult>, completed': nat, runnable: seq<nat>)
    requires InPlan(P, group) && Locals(P, slots, outcomes, completed, l) && artifacts == l.store
    ensures Locals(P, slots', outcomes', completed', OpenedLedger(P, l, group)) && runnable == Runnable(P, l, group)
  {
    hide InPlan, OpenedLedger, Runnable, SlotsAre, DependencySkip;
    slots', outcomes', completed', runnable := slots, outcomes, completed, [];
    OpenNone(P, l);
    assert group[..0] == [];
    for k := 0 to |group|
      invariant InPlan(P, group[..k])
      invariant Locals(P, slots', outcomes', completed', OpenedLedger(P, l, group[..k]))
      invariant runnable == Runnable(P, l, group[..k])
    {
      OpenOne(P, group, l, k);
      var step := P.steps[group[k]];
      match DependencySkip(step, outcomes', artifacts)
      case Some(skipped) =>
        RecordLocals(P, slots', outcomes', completed', OpenedLedger(P, l, group[..k]), group[k], skipped);
        slots' := slots'[group[k] := Some(skipped)];
        outcomes' := outcomes'[step.Identity() := skipped];
        completed' := completed' + 1;
      case None =>
        runnable := runnable + [group[k]];
    }
    assert group[..|group|] == group;
  }

  /** The second loop over a group: record the results by ascending index and add their artifacts to the store. */
  method MergeResults(P: Problem, results: seq<Entry<StepResult>>, slots: seq<Option<StepResult>>,
                      outcomes: map<string, StepResult>, completed: nat, store: ArtifactStore, ghost l: Ledger,
                      ghost m: map<nat, StepResult>)
    returns (slots': seq<Option<StepResult>>, outcomes': map<string, StepResult>, completed': nat)
    requires Lists(results, m) && (forall i :: i in m ==> i < |P.steps|)
    requires Locals(P, slots, outcomes, completed, l) && store.Valid() && store.artifacts == l.store
    modifies store
    ensures Locals(P, slots', outcomes', completed', MergedWave(P, l, m))
    ensures store.Valid() && store.artifacts == MergedWave(P, l, m).store
  {
    hide Lists, SlotsAre, Merged, InOrder, InPlan;
    slots', outcomes', completed' := slots, outcomes, completed;
    var sorted := SortedByIndex(results);
    ghost var order := InOrder(m.Keys, |P.steps|);
    SortedIsInOrder(P, results, m);
    MergeNone(P, l, m);
    assert order[..0] == [];
    for k := 0 to |sorted|
      invariant Mergeable(P, order[..k], m)
      invariant Locals(P, slots', outcomes', completed', Merged(P, l, order[..k], m))
      invariant store.Valid() && store.artifacts == Merged(P, l, order[..k], m).store
    {
      MergeOne(P, l, order, m, k);
      var i, result := sorted[k].index, sorted[k].value;
      RecordLocals(P, slots', outcomes', completed', Merged(P, l, order[..k], m), i, result);
      slots' := slots'[i := Some(result)];
      outcomes' := outcomes'[P.steps[i].Identity() := result];
      store.Extend(result.artifacts);
      completed' := completed' + 1;
    }
    assert order[..|order|] == order;
  }

  predicate Mergeable(P: Problem, order: seq<nat>, m: map<nat, StepResult>) {
    InPlan(P, order) && forall i :: i in order ==> i in m
  }

  lemma MergeNone(P: Problem, l: Ledger, m: map<nat, StepResult>)
    ensures Mergeable(P, [], m) && Merged(P, l, [], m) == l
  {
  }

  lemma MergeOne(P: Problem, l: Ledger, order: seq<nat>, m: map<nat, StepResult>, k: nat)
    requires Mergeable(P, order, m) && k < |order|
    ensures Mergeable(P, order[..k], m) && Mergeable(P, order[..k + 1], m) && order[k] < |P.steps| && order[k] in m
    ensures var before, r := Merged(P, l, order[..k], m), m[order[k]];
            Merged(P, l, order[..k + 1], m) == Record(P, before, order[k], r).(store := AddedAll(before.store, r.artifacts))
  {
    PrefixInPlan(P, order, k);
    assert forall i :: i in order[..k + 1] ==> i in order;
    assert forall i :: i in order[..k] ==> i in order;
  }

  /** The sorted list of results runs through the indexes in the order of the step system. */
  lemma SortedIsInOrder(P: Problem, results: seq<Entry<StepResult>>, m: map<nat, StepResult>)
    requires Lists(results, m) && forall i :: i in m ==> i < |P.steps|
    ensures var sorted, order := SortedByIndex(results), InOrder(m.Keys, |P.steps|);
            && |sorted| == |order| && Mergeable(P, order, m)
            && forall k :: 0 <= k < |sorted| ==> sorted[k].index == order[k] && Stands(sorted[k], m)
  {
    hide SortedByIndex, InOrder, Lists, Stands, Sorted;
    var sorted, order := SortedByIndex(results), InOrder(m.Keys, |P.steps|);
    SortedStands(results, m);
    InOrderMembers(m.Keys, |P.steps|);
    SortedAscends(sorted);
    hide Graph.Ascending;
    forall i: nat ensures i in Indexes(sorted) <==> i in order {
      SortedNames(results, m, i);
    }
    assert forall k :: 0 <= k < |sorted| ==> Indexes(sorted)[k] == sorted[k].index;
    Graph.AscendingIsCanonical(Indexes(sorted), order);
  }

  lemma SortedAscends(entries: seq<Entry<StepResult>>)
    requires Sorted(entries)
    ensures Graph.Ascending(Indexes(entries))
  {
  }

  // ---------------------------------------------------------------- the local variables of _run_wave

  ghost predicate Mirrors(P: Problem, s: State, pending: seq<nat>, running: seq<Entry<Thread>>,
                          results: seq<Entry<StepResult>>)
  {
    && Reachable(P, s) && s.phase == InWave
    && s.pool.pending == pending
    && Lists(running, s.pool.running)
    && Lists(results, s.pool.results)
  }

  /** What no action inside a wave touches. */
  predicate SameGroup(s: State, s': State) {
    s'.ledger == s.ledger && s'.wave == s.wave && s'.pool.steps == s.pool.steps
  }

  /** The part of the state that belongs to the main thread. */
  predicate WorkersMoved(s: State, s': State) {
    && SameGroup(s, s') && s'.phase == s.phase && s'.interrupted == s.interrupted
    && s'.pool.pending == s.pool.pending && s'.pool.results == s.pool.results
  }

  lemma PoolInPlan(P: Problem, s: State)
    requires ValidProblem(P) && Reachable(P, s)
    ensures forall i :: i in s.pool.running ==> Active(s) && i < |P.steps|
    ensures forall i :: i in s.pool.results ==> i < |P.steps|
    ensures s.pool.pending != [] ==> s.pool.pending[0] !in s.pool.running
    ensures forall i :: i in s.pool.running ==> i !in s.pool.results
  {
    Sound(P, s);
    assert s.pool.pending != [] ==> s.pool.pending[0] in s.pool.pending;
    hide Traced, LedgerOk, Filled, Reference, UniqueIds, Reachable, Agrees, Graph.Ascending;
  }

  /** A worker runs up to its next visible point: one piece of _execute_with_retries. */
  method WorkerStep(P: Problem, i: nat, t: Thread, artifacts: seq<Artifact>, control: ExecutionControl, ghost s: State)
    returns (t': Thread, ghost s': State)
    requires ValidProblem(P) && Reachable(P, s) && At(s, i, P) && s.pool.running[i] == t && !t.Finished?
    requires s.cancelled == control.cancelled && artifacts == s.ledger.store
    ensures Reachable(P, s') && WorkersMoved(s, s') && s'.cancelled == s.cancelled
    ensures s'.pool.running == s.pool.running[i := t'] && Measure(P, s') < Measure(P, s)
  {
    hide Reachable, ValidProblem, Measure, AttemptResult;
    var step := P.steps[i];
    match t
    case Waiting(a) =>
      t' := if control.cancelled then Finished(Value(SkippedResult(step, "execution cancelled"))) else Cleared(a);
      Take(P, s, Begin(i));
      s' := Apply(P, s, Begin(i));
    case Cleared(a) =>
      t' := Announced(a);
      Take(P, s, Announce(i));
      s' := Apply(P, s, Announce(i));
    case Announced(a) =>
      t' := Executing(a);
      Take(P, s, Call(i));
      s' := Apply(P, s, Call(i));
    case Executing(a) =>
      var attempt := P.execute(i, a, artifacts);
      if attempt.Interrupted? {
        t' := Finished(Interruption);
      } else {
        var result := AttemptResult(P, i, attempt);
        if !CanRetry(step, a, result) {
          t' := Finished(Value(result));
        } else {
          t' := if step.retryPolicy.backoffSeconds > 0 then BackingOff(a) else Waiting(a + 1);
        }
      }
      Take(P, s, Return(i));
      s' := Apply(P, s, Return(i));
    case BackingOff(a) =>
      t' := if control.cancelled then Finished(Value(SkippedResult(step, "execution cancelled during retry backoff")))
            else Waiting(a + 1);
      Take(P, s, Wake(i));
      s' := Apply(P, s, Wake(i));
  }

  lemma RunningAt(P: Problem, s: State, running: seq<Entry<Thread>>, k: nat)
    requires ValidProblem(P) && Reachable(P, s) && Lists(running, s.pool.running) && k < |running|
    ensures At(s, running[k].index, P) && s.pool.running[running[k].index] == running[k].value
  {
    hide ValidProblem, Reachable;
    PoolInPlan(P, s);
    assert Stands(running[k], s.pool.running);
  }

  lemma Unblocked(P: Problem, s: State)
    requires Reachable(P, s) && !s.cancelled
    ensures Reachable(P, s.(cancelled := true))
    ensures ValidProblem(P) ==> Measure(P, s.(cancelled := true)) < Measure(P, s)
  {
    hide Reachable, Measure, ValidProblem;
    Take(P, s, Cancel);
  }

  /** One moment of the main thread: a user may cancel now, and inside a wave a keyboard interrupt may arrive. */
  method Moment(P: Problem, inWave: bool, control: ExecutionControl, env: Environment, ghost from: Origin, ghost s: State)
    returns (keyboard: bool, ghost s': State)
    requires ValidProblem(P) && Reachable(P, s) && s.cancelled == control.cancelled
    requires Accounted(P, from, env, s.cancelled, s.interrupted, false)
    modifies control, env
    ensures Reachable(P, s') && s' == s.(cancelled := control.cancelled) && (old(control.cancelled) ==> control.cancelled)
    ensures Accounted(P, from, env, s'.cancelled, s'.interrupted, keyboard) && (keyboard ==> inWave)
    ensures Measure(P, s') <= Measure(P, s)
  {
    hide Reachable, ValidProblem, Measure, Asked, ExecutorInterrupts;
    s' := s;
    if env.cancels(env.clock) && !control.cancelled {
      Unblocked(P, s');
      control.Cancel("recon cancelled by user");
      s' := s'.(cancelled := true);
    }
    keyboard := inWave && env.interrupts(env.heard);
    AskedLater(env.cancels, from.clock, env.clock);
    AskedLater(env.interrupts, from.heard, env.heard);
    env.clock := env.clock + 1;
    if inWave { env.heard := env.heard + 1; }
  }

  /** What the other threads do meanwhile: workers take steps, a user may cancel, a keyboard interrupt may arrive. */
  method OthersRun(P: Problem, inWave: bool, running: seq<Entry<Thread>>, artifacts: seq<Artifact>,
                   control: ExecutionControl, env: Environment, ghost from: Origin, ghost s: State)
    returns (running': seq<Entry<Thread>>, keyboard: bool, ghost s': State)
    requires ValidProblem(P) && Reachable(P, s) && Lists(running, s.pool.running)
    requires s.cancelled == control.cancelled && artifacts == s.ledger.store
    requires Accounted(P, from, env, s.cancelled, s.interrupted, false)
    modifies control, env
    ensures Reachable(P, s') && WorkersMoved(s, s') && Lists(running', s'.pool.running) && |running'| == |running|
    ensures s'.cancelled == control.cancelled && (old(control.cancelled) ==> control.cancelled)
    ensures Accounted(P, from, env, s'.cancelled, s'.interrupted, keyboard) && (keyboard ==> inWave)
    ensures Measure(P, s') <= Measure(P, s)
  {
    hide Reachable, ValidProblem, Measure, Lists, Accounted;
    running', keyboard, s' := running, false, s;
    var turn := env.moves(env.clock);
    keyboard, s' := Moment(P, inWave, control, env, from, s');
    while !keyboard && turn.Some? && 0 <= turn.value < |running'| && !running'[turn.value].value.Finished?
      invariant Reachable(P, s') && WorkersMoved(s, s') && Lists(running', s'.pool.running) && |running'| == |running|
      invariant s'.cancelled == control.cancelled && (old(control.cancelled) ==> control.cancelled)
      invariant Accounted(P, from, env, s'.cancelled, s'.interrupted, keyboard) && (keyboard ==> inWave)
      invariant Measure(P, s') <= Measure(P, s)
      decreases Measure(P, s')
    {
      running', s' := Advanced(P, running', turn.value, artifacts, control, s');
      turn := env.moves(env.clock);
      keyboard, s' := Moment(P, inWave, control, env, from, s');
    }
  }

  method Advanced(P: Problem, running: seq<Entry<Thread>>, k: nat, artifacts: seq<Artifact>, control: ExecutionControl,
                  ghost s: State)
    returns (running': seq<Entry<Thread>>, ghost s': State)
    requires ValidProblem(P) && Reachable(P, s) && Lists(running, s.pool.running)
    requires k < |running| && !running[k].value.Finished?
    requires s.cancelled == control.cancelled && artifacts == s.ledger.store
    ensures Reachable(P, s') && WorkersMoved(s, s') && Lists(running', s'.pool.running) && |running'| == |running|
    ensures s'.cancelled == s.cancelled && Measure(P, s') < Measure(P, s)
  {
    hide Reachable, ValidProblem, Measure, Lists;
    RunningAt(P, s, running, k);
    var t;
    t, s' := WorkerStep(P, running[k].index, running[k].value, artifacts, control, s);
    Updated(running, s.pool.running, k, t);
    running' := running[k := Entry(running[k].index, t)];
  }

  predicate SomeFinished(running: seq<Entry<Thread>>) {
    exists k :: 0 <= k < |running| && running[k].value.Finished?
  }

  /** Wait until at least one future is done, or a keyboard interrupt arrives. */
  method AwaitOne(P: Problem, running: seq<Entry<Thread>>, artifacts: seq<Artifact>, control: ExecutionControl,
                  env: Environment, ghost from: Origin, ghost s: State)
    returns (running': seq<Entry<Thread>>, keyboard: bool, ghost s': State)
    requires ValidProblem(P) && Reachable(P, s) && Lists(running, s.pool.running) && running != []
    requires s.cancelled == control.cancelled && artifacts == s.ledger.store
    requires Accounted(P, from, env, s.cancelled, s.interrupted, false)
    modifies control, env
    ensures Reachable(P, s') && WorkersMoved(s, s') && Lists(running', s'.pool.running)
    ensures s'.cancelled == control.cancelled && (old(control.cancelled) ==> control.cancelled)
    ensures Accounted(P, from, env, s'.cancelled, s'.interrupted, keyboard)
    ensures Measure(P, s') <= Measure(P, s)
    ensures !keyboard ==> SomeFinished(running')
  {
    hide Reachable, ValidProblem, Measure, Lists, Accounted, SomeFinished;
    running', keyboard, s' := OthersRun(P, true, running, artifacts, control, env, from, s);
    while !keyboard && !SomeFinished(running')
      invariant Reachable(P, s') && WorkersMoved(s, s') && Lists(running', s'.pool.running) && running' != []
      invariant s'.cancelled == control.cancelled && (old(control.cancelled) ==> control.cancelled)
      invariant Accounted(P, from, env, s'.cancelled, s'.interrupted, keyboard)
      invariant Measure(P, s') <= Measure(P, s)
      decreases Measure(P, s')
    {
      var turn := env.moves(env.clock);
      var k := if turn.Some? && turn.value < |running'| then turn.value else 0;
      NotFinished(running', k);
      running', s' := Advanced(P, running', k, artifacts, control, s');
      running', keyboard, s' := OthersRun(P, true, running', artifacts, control, env, from, s');
    }
  }

  lemma NotFinished(running: seq<Entry<Thread>>, k: nat)
    requires !SomeFinished(running) && k < |running|
    ensures !running[k].value.Finished?
  {
  }

  /** Take the results of the futures that are done; a keyboard interrupt may come before any of them. */
  method CollectDone(P: Problem, running: seq<Entry<Thread>>, results: seq<Entry<StepResult>>, interrupted: bool,
                     control: ExecutionControl, env: Environment, ghost from: Origin, ghost s: State)
    returns (running': seq<Entry<Thread>>, results': seq<Entry<StepResult>>, interrupted': bool, keyboard: bool, ghost s': State)
    requires ValidProblem(P) && Mirrors(P, s, s.pool.pending, running, results)
    requires s.cancelled == control.cancelled && s.interrupted == interrupted
    requires Accounted(P, from, env, s.cancelled, interrupted, false)
    requires SomeFinished(running)
    modifies control, env
    ensures Mirrors(P, s', s.pool.pending, running', results') && SameGroup(s, s')
    ensures s'.cancelled == control.cancelled && s'.interrupted == interrupted'
    ensures old(control.cancelled) ==> control.cancelled
    ensures Accounted(P, from, env, s'.cancelled, interrupted', keyboard)
    ensures Measure(P, s') <= Measure(P, s) && (!keyboard ==> Measure(P, s') < Measure(P, s))
  {
    hide Reachable, ValidProblem, Measure, Lists, Accounted;
    running', results', interrupted', keyboard, s' := running, results, interrupted, false, s;
    var k := 0;
    while k < |running'|
      invariant k <= |running'|
      invariant Mirrors(P, s', s.pool.pending, running', results') && SameGroup(s, s')
      invariant s'.cancelled == control.cancelled && s'.interrupted == interrupted'
      invariant old(control.cancelled) ==> control.cancelled
      invariant Accounted(P, from, env, s'.cancelled, interrupted', keyboard) && !keyboard
      invariant Measure(P, s') <= Measure(P, s)
      invariant Measure(P, s') == Measure(P, s) ==> running' == running && forall j :: 0 <= j < k ==> !running[j].value.Finished?
      decreases |running'| - k
    {
      keyboard, s' := Moment(P, true, control, env, from, s');
      if keyboard { return; }
      var job := running'[k];
      if job.value.Finished? {
        running', results', interrupted', s' :=
          CollectOne(P, running', results', interrupted', k, control, env, from, s');
      } else {
        k := k + 1;
      }
    }
  }

  /** Take one future that is done: its result, or an interruption that cancels the run. */
  method CollectOne(P: Problem, running: seq<Entry<Thread>>, results: seq<Entry<StepResult>>, interrupted: bool, k: nat,
                    control: ExecutionControl, env: Environment, ghost from: Origin, ghost s: State)
    returns (running': seq<Entry<Thread>>, results': seq<Entry<StepResult>>, interrupted': bool, ghost s': State)
    requires ValidProblem(P) && Mirrors(P, s, s.pool.pending, running, results)
    requires s.cancelled == control.cancelled && s.interrupted == interrupted
    requires Accounted(P, from, env, s.cancelled, interrupted, false)
    requires k < |running| && running[k].value.Finished?
    modifies control
    ensures Mirrors(P, s', s.pool.pending, running', results') && SameGroup(s, s')
    ensures s'.cancelled == control.cancelled && s'.interrupted == interrupted'
    ensures old(control.cancelled) ==> control.cancelled
    ensures Accounted(P, from, env, s'.cancelled, interrupted', false)
    ensures Measure(P, s') < Measure(P, s)
    ensures k <= |running'| && |running'| == |running| - 1
  {
    hide Reachable, ValidProblem, Measure, Lists, Accounted;
    var job := running[k];
    RunningAt(P, s, running, k);
    PoolInPlan(P, s);
    Take(P, s, Collect(job.index));
    Removed(running, s.pool.running, k);
    running' := running[..k] + running[k + 1..];
    results', interrupted' := results, interrupted;
    match job.value.end {
      case Value(result) =>
        Appended(results, s.pool.results, Entry(job.index, result));
        results' := results + [Entry(job.index, result)];
      case Interruption =>
        interrupted' := true;
        control.Cancel("recon cancelled by user");
        InterruptedWorker(P, from, env, s, job.index);
    }
    s' := Apply(P, s, Collect(job.index));
  }

  lemma InterruptedWorker(P: Problem, from: Origin, env: Environment, s: State, i: nat)
    requires Reachable(P, s) && i in s.pool.running && s.pool.running[i] == Finished(Interruption)
    requires Accounted(P, from, env, s.cancelled, s.interrupted, false)
    ensures Accounted(P, from, env, true, true, false)
  {
    hide ExecutorInterrupts, Asked;
    var acts :| Exec(P, acts) == Some(s);
    NoStrayInterruptions(P, acts);
  }

  /** After an interrupt the pool shuts down: futures that have not started are dropped, the others run to their end. */
  method Shutdown(P: Problem, running: seq<Entry<Thread>>, artifacts: seq<Artifact>, control: ExecutionControl,
                  env: Environment, ghost s: State)
    returns (ghost s': State)
    requires ValidProblem(P) && Reachable(P, s) && Lists(running, s.pool.running) && s.phase == Draining
    requires s.cancelled == control.cancelled && artifacts == s.ledger.store
    ensures Reachable(P, s') && SameGroup(s, s') && s'.phase == Draining && AllFinished(s'.pool.running)
    ensures s'.interrupted == s.interrupted && s'.cancelled == s.cancelled
    ensures Measure(P, s') <= Measure(P, s)
  {
    hide Reachable, ValidProblem, Measure, Lists;
    var left := running;
    s' := s;
    var k := 0;
    while k < |left|
      invariant k <= |left|
      invariant Reachable(P, s') && Lists(left, s'.pool.running) && SameGroup(s, s') && s'.phase == Draining
      invariant s'.interrupted == s.interrupted && s'.cancelled == s.cancelled
      invariant Measure(P, s') <= Measure(P, s)
      invariant forall j :: 0 <= j < k ==> left[j].value.Finished?
      decreases Measure(P, s'), |left| - k
    {
      var job := left[k];
      if job.value.Finished? {
        k := k + 1;
      } else if job.value == Waiting(1) && env.drops(job.index) {
        RunningAt(P, s', left, k);
        Take(P, s', Abandon(job.index));
        Removed(left, s'.pool.running, k);
        left := left[..k] + left[k + 1..];
        s' := DropThread(s', job.index);
      } else {
        left, s' := Advanced(P, left, k, artifacts, control, s');
        k := 0;
      }
    }
    AllOver(left, s'.pool.running);
  }

  lemma AllOver(running: seq<Entry<Thread>>, m: map<nat, Thread>)
    requires Lists(running, m) && forall k :: 0 <= k < |running| ==> running[k].value.Finished?
    ensures AllFinished(m)
  {
    forall i | i in m ensures m[i].Finished? {
      assert Named(running, i);
      var k :| 0 <= k < |running| && running[k].index == i;
      assert Stands(running[k], m);
    }
  }

  lemma NothingListed<T>(m: map<nat, T>)
    ensures Lists<T>([], map[])
    ensures Lists([], m) ==> m == map[]
  {
  }

  lemma Close(P: Problem, s: State)
    requires ValidProblem(P) && Reachable(P, s) && MayClose(P, s)
    ensures Reachable(P, AfterClose(P, s)) && Measure(P, AfterClose(P, s)) < Measure(P, s)
    ensures s.interrupted ==> AfterClose(P, s).ledger == MergedWave(P, s.ledger, map[])
  {
    hide ValidProblem, Reachable, Measure, Merged, InPlan;
    Take(P, s, CloseWave);
    var none: map<nat, StepResult> := map[];
    assert none.Keys == {};
    NothingInOrder(|P.steps|);
    MergeNone(P, s.ledger, map[]);
  }

  lemma {:induction false} NothingInOrder(n: nat)
    ensures InOrder({}, n) == []
  {
    if n > 0 { NothingInOrder(n - 1); }
  }

  /** Run the steps of one group on the bounded pool; an interrupted wave returns nothing. */
  method RunWave(P: Problem, steps: seq<nat>, artifacts: seq<Artifact>, control: ExecutionControl, env: Environment,
                 ghost from: Origin, ghost s0: State)
    returns (results: seq<Entry<StepResult>>, ghost m: map<nat, StepResult>, ghost s: State)
    requires ValidProblem(P) && Reachable(P, s0) && s0.phase == InWave && s0.pool == Pool(steps, steps, map[], map[])
    requires !s0.interrupted && s0.cancelled == control.cancelled && artifacts == s0.ledger.store
    requires Accounted(P, from, env, s0.cancelled, s0.interrupted, false)
    modifies control, env
    ensures Reachable(P, s) && s.phase == Between && s.wave == s0.wave + 1 && Measure(P, s) < Measure(P, s0)
    ensures Lists(results, m) && (forall i :: i in m ==> i < |P.steps|) && s.ledger == MergedWave(P, s0.ledger, m)
    ensures s.cancelled == control.cancelled && (old(control.cancelled) ==> control.cancelled)
    ensures Accounted(P, from, env, s.cancelled, s.interrupted, false)
    ensures s.interrupted ==> s.cancelled && results == []
    ensures s.pool.running == map[]
  {
    hide Reachable, ValidProblem, Measure, Lists, MergedWave, Accounted, SomeFinished;
    NothingListed<Thread>(map[]);
    NothingListed<StepResult>(map[]);
    var running: seq<Entry<Thread>>, collected: seq<Entry<StepResult>>, keyboard := [], [], false;
    running, keyboard, s := OthersRun(P, false, running, artifacts, control, env, from, s0);
    if steps == [] {
      NothingListed(s.pool.running);
      Close(P, s);
      return [], map[], AfterClose(P, s);
    }
    var pending, interrupted := steps, false;
    while pending != [] || running != []
      invariant Mirrors(P, s, pending, running, collected) && SameGroup(s0, s)
      invariant s.cancelled == control.cancelled && (old(control.cancelled) ==> control.cancelled)
      invariant s.interrupted == interrupted && Measure(P, s) <= Measure(P, s0)
      invariant Accounted(P, from, env, s.cancelled, interrupted, false)
      decreases Measure(P, s)
    {
      pending, running, keyboard, s := SubmitPending(P, pending, running, collected, artifacts, control, env, from, s);
      if !keyboard {
        if running == [] { break; }
        running, keyboard, s := AwaitOne(P, running, artifacts, control, env, from, s);
      }
      if !keyboard {
        running, collected, interrupted, keyboard, s := CollectDone(P, running, collected, interrupted, control, env, from, s);
      }
      if keyboard {
        s := LeaveInterrupted(P, running, artifacts, control, env, from, s);
        return [], map[], s;
      }
    }
    NothingListed(s.pool.running);
    PoolInPlan(P, s);
    Close(P, s);
    Sound(P, s);
    results, m := if interrupted then [] else collected, if interrupted then map[] else s.pool.results;
    s := AfterClose(P, s);
  }

  /** A keyboard interrupt in the main thread: cancel, wait for the pool to drain and return nothing. */
  method LeaveInterrupted(P: Problem, running: seq<Entry<Thread>>, artifacts: seq<Artifact>, control: ExecutionControl,
                          env: Environment, ghost from: Origin, ghost s: State)
    returns (ghost s': State)
    requires ValidProblem(P) && Reachable(P, s) && Lists(running, s.pool.running) && s.phase == InWave
    requires s.cancelled == control.cancelled && artifacts == s.ledger.store
    requires Accounted(P, from, env, s.cancelled, s.interrupted, true)
    modifies control
    ensures Reachable(P, s') && s'.phase == Between && s'.wave == s.wave + 1 && Measure(P, s') < Measure(P, s)
    ensures s'.ledger == MergedWave(P, s.ledger, map[]) && s'.pool.running == map[]
    ensures control.cancelled && s'.cancelled && s'.interrupted
    ensures Accounted(P, from, env, s'.cancelled, s'.interrupted, false)
  {
    hide Reachable, ValidProblem, Measure, Lists, MergedWave, Asked;
    Take(P, s, Interrupt);
    control.Cancel("recon cancelled by user");
    s' := Shutdown(P, running, artifacts, control, env, Apply(P, s, Interrupt));
    PoolInPlan(P, s');
    Close(P, s');
    s' := AfterClose(P, s');
  }

  /** Hand pending steps to the pool while there is room and nobody has cancelled; an interrupt may come at any time. */
  method SubmitPending(P: Problem, pending: seq<nat>, running: seq<Entry<Thread>>, ghost results: seq<Entry<StepResult>>,
                       artifacts: seq<Artifact>, control: ExecutionControl, env: Environment, ghost from: Origin, ghost s: State)
    returns (pending': seq<nat>, running': seq<Entry<Thread>>, keyboard: bool, ghost s': State)
    requires ValidProblem(P) && Mirrors(P, s, pending, running, results)
    requires s.cancelled == control.cancelled && artifacts == s.ledger.store
    requires Accounted(P, from, env, s.cancelled, s.interrupted, false)
    modifies control, env
    ensures Mirrors(P, s', pending', running', results) && SameGroup(s, s') && s'.interrupted == s.interrupted
    ensures s'.cancelled == control.cancelled && (old(control.cancelled) ==> control.cancelled)
    ensures Accounted(P, from, env, s'.cancelled, s'.interrupted, keyboard)
    ensures Measure(P, s') <= Measure(P, s)
    ensures running' == [] && !keyboard ==> pending' == [] || control.cancelled
  {
    hide Reachable, ValidProblem, Measure, Lists, Accounted;
    pending', running', s' := pending, running, s;
    keyboard, s' := Moment(P, true, control, env, from, s');
    while !keyboard && pending' != [] && |running'| < P.maxConcurrency && !control.cancelled
      invariant Mirrors(P, s', pending', running', results) && SameGroup(s, s') && s'.interrupted == s.interrupted
      invariant s'.cancelled == control.cancelled && (old(control.cancelled) ==> control.cancelled)
      invariant Accounted(P, from, env, s'.cancelled, s'.interrupted, keyboard)
      invariant Measure(P, s') <= Measure(P, s)
      decreases Measure(P, s')
    {
      SameLength(running', s'.pool.running);
      PoolInPlan(P, s');
      Take(P, s', Submit);
      Appended(running', s'.pool.running, Entry(pending'[0], Waiting(1)));
      running' := running' + [Entry(pending'[0], Waiting(1))];
      pending' := pending'[1..];
      s' := AfterSubmit(s');
      running', keyboard, s' := OthersRun(P, true, running', artifacts, control, env, from, s');
    }
    AtLeastOne(P);
  }

  lemma SameLength<T>(entries: seq<Entry<T>>, m: map<nat, T>)
    requires Lists(entries, m)
    ensures |entries| == |m|
  {
  }

  lemma AtLeastOne(P: Problem)
    requires ValidProblem(P)
    ensures P.maxConcurrency >= 1
  {
  }

  // ---------------------------------------------------------------- schedule_plan

  /** The filled slots in plan order. */
  function FilledSlots(slots: seq<Option<StepResult>>): seq<StepResult> {
    if slots == [] then []
    else
      var last := slots[|slots| - 1];
      FilledSlots(slots[..|slots| - 1]) + if last.Some? then [last.value] else []
  }

  /** The results of the given steps of a ledger. */
  function ResultsOf(l: Ledger, order: seq<nat>): seq<StepResult>
    requires forall i :: i in order ==> i in l.slots
  {
    seq(|order|, k requires 0 <= k < |order| => assert order[k] in order; l.slots[order[k]])
  }

  lemma {:induction false} FilledAre(P: Problem, slots: seq<Option<StepResult>>, l: Ledger, n: nat)
    requires SlotsAre(P, slots, l.slots) && n <= |slots|
    ensures forall i :: i in InOrder(l.slots.Keys, n) ==> i in l.slots
    ensures FilledSlots(slots[..n]) == ResultsOf(l, InOrder(l.slots.Keys, n))
  {
    InOrderMembers(l.slots.Keys, n);
    if n > 0 {
      InOrderMembers(l.slots.Keys, n - 1);
      FilledAre(P, slots, l, n - 1);
      assert slots[..n][..n - 1] == slots[..n - 1];
    }
  }

  lemma OpenedAt(P: Problem, s: State)
    requires ValidProblem(P) && Reachable(P, s) && s.phase == Between && s.wave < |P.groups| && !s.cancelled
    ensures MayOpen(P, s) && !s.interrupted
    ensures Reachable(P, AfterOpen(P, s)) && Measure(P, AfterOpen(P, s)) < Measure(P, s)
  {
    Sound(P, s);
    GroupCanOpen(P, s);
    hide ValidProblem, Reachable, Measure, Inv, GroupInRange;
    Take(P, s, OpenWave);
    NotInterrupted(P, s);
  }

  lemma CancelledFirst(P: Problem)
    ensures Reachable(P, Initial(P).(cancelled := true))
  {
    hide Reachable;
    Start(P);
    Take(P, Initial(P), Cancel);
  }

  lemma Finishes(P: Problem, s: State)
    requires Reachable(P, s) && s.phase == Between && (s.cancelled || s.wave == |P.groups|)
    ensures Reachable(P, s.(phase := Done))
  {
    hide Reachable;
    Take(P, s, Finish);
  }

  lemma {:induction false} AllInOrder(keys: set<nat>, n: nat)
    requires forall i: nat :: i < n ==> i in keys
    ensures |InOrder(keys, n)| == n && forall i :: 0 <= i < n ==> InOrder(keys, n)[i] == i
  {
    if n > 0 { AllInOrder(keys, n - 1); }
  }

  /** A run that nobody cancelled returns one result for each step, in plan order, as the sequential reference has it. */
  lemma UncancelledResults(P: Problem, s: State)
    requires ValidProblem(P) && Reachable(P, s) && s.phase == Done && !s.cancelled
    ensures GroupsInPlan(P) && s.ledger == Reference(P, |P.groups|)
    ensures |ResultOrder(P, s)| == |P.steps|
    ensures forall i: nat :: i < |P.steps| ==> ResultOrder(P, s)[i] == i && i in s.ledger.slots
  {
    hide ValidProblem;
    var acts :| Exec(P, acts) == Some(s);
    ScheduleIndependence(P, acts);
    AllFilled(P, acts);
    hide InOrder;
    AllInOrder(s.ledger.slots.Keys, |P.steps|);
  }

  /** One result for each step, in plan order: the result the sequential reference has for it. */
  predicate Uncancelled(P: Problem, results: seq<StepResult>)
    requires GroupsInPlan(P)
  {
    var l := Reference(P, |P.groups|);
    |results| == |P.steps| && forall i: nat :: i < |results| ==> i in l.slots && results[i] == l.slots[i]
  }

  lemma NoneAsked(P: Problem, from: Origin, env: Environment, cancelled: bool, interrupted: bool)
    requires Accounted(P, from, env, cancelled, interrupted, false)
    ensures !from.cancelled && Calm(env) && !ExecutorInterrupts(P) ==> !cancelled
    ensures cancelled <==> from.cancelled || Asked(env.cancels, from.clock, env.clock) || interrupted
    ensures Asked(env.interrupts, from.heard, env.heard) ==> interrupted
    ensures interrupted ==> Asked(env.interrupts, from.heard, env.heard) || ExecutorInterrupts(P)
  {
    hide ExecutorInterrupts;
  }

  /**
   * Run a validated plan in stable waves with bounded parallelism. Unless the run is cancelled, the results are those of
   * the sequential reference; and it is cancelled exactly if it was so at the start, a user cancels, or it is
   * interrupted, which takes a keyboard interrupt during a wave or an executor that is interrupted itself.
   */
  method SchedulePlan(P: Problem, control: ExecutionControl, env: Environment, store: ArtifactStore)
    returns (results: seq<StepResult>, ghost s: State)
    requires ValidProblem(P) && store.Valid() && store.artifacts == P.initial
    modifies control, env, store
    ensures Reachable(P, s) && s.phase == Done && s.cancelled == control.cancelled
    ensures store.Valid() && store.artifacts == s.ledger.store
    ensures (forall i :: i in ResultOrder(P, s) ==> i in s.ledger.slots) && results == ResultsOf(s.ledger, ResultOrder(P, s))
    ensures old(control.cancelled) ==> control.cancelled && results == []
    ensures control.cancelled <==>
            old(control.cancelled) || Asked(env.cancels, old(env.clock), env.clock) || s.interrupted
    ensures Asked(env.interrupts, old(env.heard), env.heard) ==> s.interrupted
    ensures s.interrupted ==> Asked(env.interrupts, old(env.heard), env.heard) || ExecutorInterrupts(P)
    ensures !old(control.cancelled) && Calm(env) && !ExecutorInterrupts(P) ==> !control.cancelled
    ensures !control.cancelled ==>
              && GroupsInPlan(P) && Uncancelled(P, results)
              && store.artifacts == Reference(P, |P.groups|).store
  {
    hide Reachable, ValidProblem, Measure, Lists, MergedWave, SlotsAre, InOrder, FilledSlots, OpenedLedger, Runnable, OpeningEvents;
    hide Accounted, Asked, ExecutorInterrupts, Calm, InPlan, Reference;
    ghost var from := Origin(control.cancelled, env.clock, env.heard);
    var slots := seq(|P.steps|, _ => None);
    var outcomes: map<string, StepResult>, completed := map[], 0;
    s := Initial(P).(cancelled := control.cancelled);
    Start(P);
    CancelledFirst(P);
    NoSlots(P, slots);
    NothingListed<Thread>(map[]);
    FirstAccount(P, env, control.cancelled);
    var nobody: seq<Entry<Thread>>, keyboard, g := [], false, 0;
    nobody, keyboard, s := OthersRun(P, false, [], store.artifacts, control, env, from, s);
    NothingListed(s.pool.running);
    while g < |P.groups| && !control.cancelled
      invariant s.pool.running == map[] && Reachable(P, s) && s.phase == Between && g == s.wave <= |P.groups|
      invariant Locals(P, slots, outcomes, completed, s.ledger)
      invariant store.Valid() && store.artifacts == s.ledger.store
      invariant s.cancelled == control.cancelled && (old(control.cancelled) ==> control.cancelled && s.ledger.slots == map[])
      invariant Accounted(P, from, env, s.cancelled, s.interrupted, false)
      decreases |P.groups| - g
    {
      OpenedAt(P, s);
      ghost var before := s;
      s := AfterOpen(P, s);
      var runnable;
      slots, outcomes, completed, runnable :=
        OpenGroup(P, P.groups[g], slots, outcomes, completed, store.artifacts, before.ledger);
      var snapshot := store.Snapshot();
      OpenedStore(P, before.ledger, P.groups[g]);
      ghost var entered, m := s.ledger, map[];
      var collected;
      collected, m, s := RunWave(P, runnable, snapshot.artifacts, control, env, from, s);
      slots, outcomes, completed := MergeResults(P, collected, slots, outcomes, completed, store, entered, m);
      nobody, keyboard, s := OthersRun(P, false, [], store.artifacts, control, env, from, s);
      NothingListed(s.pool.running);
      g := g + 1;
    }
    NoneAsked(P, from, env, s.cancelled, s.interrupted);
    Finishes(P, s);
    s := s.(phase := Done);
    FilledLast(P, slots, s);
    results := FilledSlots(slots);
    if !control.cancelled { UncancelledResults(P, s); }
  }

  lemma FirstAccount(P: Problem, env: Environment, cancelled: bool)
    ensures Accounted(P, Origin(cancelled, env.clock, env.heard), env, cancelled, false, false)
  {
  }

  lemma NoSlots(P: Problem, slots: seq<Option<StepResult>>)
    requires |slots| == |P.steps| && forall i :: 0 <= i < |slots| ==> slots[i] == None
    ensures Locals(P, slots, map[], 0, EmptyLedger(P))
    ensures FilledSlots(slots) == []
  {
    hide FilledSlots;
    NoneFilled(slots);
  }

  lemma {:induction false} NoneFilled(slots: seq<Option<StepResult>>)
    requires forall i :: 0 <= i < |slots| ==> slots[i] == None
    ensures FilledSlots(slots) == []
  {
    if slots != [] { NoneFilled(slots[..|slots| - 1]); }
  }

  lemma FilledLast(P: Problem, slots: seq<Option<StepResult>>, s: State)
    requires SlotsAre(P, slots, s.ledger.slots)
    ensures forall i :: i in ResultOrder(P, s) ==> i in s.ledger.slots
    ensures FilledSlots(slots) == ResultsOf(s.ledger, ResultOrder(P, s))
    ensures s.ledger.slots == map[] ==> FilledSlots(slots) == []
  {
    FilledAre(P, slots, s.ledger, |slots|);
    assert slots[..|slots|] == slots;
    hide FilledSlots;
    if s.ledger.slots == map[] {
      NoneFilled(slots);
    }
  }
}
