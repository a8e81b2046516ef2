/**
 * The plan scheduler of blackline/engine/scheduler.py as a step system: what the main thread, the worker threads, a
 * user who cancels and an interrupt can each do next, in any order.
 */
module ScheduleMachine {
  import opened Results
  import opened PlanModel
  import opened Artifacts
  import Graph

  // ---------------------------------------------------------------- the problem

  /** One call of the step executor: it returns, raises an ordinary exception, or is interrupted from the keyboard. */
  datatype Attempt = Returned(result: StepResult) | Raised(message: string) | Interrupted

  /** The executor, as an unknown function of the step's index, the attempt number and the artifacts it is shown. */
  type Executor = (nat, nat, seq<Artifact>) -> Attempt

  /** `stage` gives each step the index of its group; `initial` is what the artifact store holds at the start. */
  datatype Problem = Problem(steps: seq<PlanStep>, groups: seq<seq<nat>>, stage: map<nat, nat>, maxConcurrency: nat,
                             execute: Executor, initial: seq<Artifact>)

  ghost predicate NamedBefore(steps: seq<PlanStep>, stage: map<nat, nat>, g: nat, name: string) {
    exists j :: j in stage && j < |steps| && stage[j] < g && steps[j].Identity() == name
  }

  /** The groups partition the steps, ascending inside each, and every dependency stands in an earlier group. */
  ghost predicate Staged(steps: seq<PlanStep>, groups: seq<seq<nat>>, stage: map<nat, nat>) {
    && (forall i: nat :: i in stage <==> i < |steps|)
    && (forall i :: i in stage ==> stage[i] < |groups|)
    && (forall g, i :: 0 <= g < |groups| ==> (i in groups[g] <==> i in stage && stage[i] == g))
    && (forall g :: 0 <= g < |groups| ==> Graph.Ascending(groups[g]))
    && (forall i, d :: i in stage && i < |steps| && d in steps[i].dependsOn ==> NamedBefore(steps, stage, stage[i], d.stepId))
  }

  ghost predicate ValidProblem(P: Problem) {
    UniqueIds(P.steps) && Staged(P.steps, P.groups, P.stage) && P.maxConcurrency >= 1 && DistinctKeys(P.initial)
  }

  // ---------------------------------------------------------------- what the main thread records

  /** The local state of schedule_plan: filled result slots, outcomes by identity, the store and the counter. */
  datatype Ledger = Ledger(slots: map<nat, StepResult>, outcomes: map<string, StepResult>, store: seq<Artifact>,
                           completed: nat)

  function EmptyLedger(P: Problem): Ledger {
    Ledger(map[], map[], P.initial, 0)
  }

  function Record(P: Problem, l: Ledger, i: nat, r: StepResult): Ledger
    requires i < |P.steps|
  {
    Ledger(l.slots[i := r], l.outcomes[P.steps[i].Identity() := r], l.store, l.completed + 1)
  }

  function SkippedResult(step: PlanStep, reason: string): StepResult {
    MakeResult(step.tool, false, EmptyPayload.(skipped := true), reason, "", [])
  }

  predicate Unavailable(outcomes: map<string, StepResult>, name: string) {
    name in outcomes && outcomes[name].outcome in {FAILED, SKIPPED}
  }

  predicate RequiresUnavailable(step: PlanStep, outcomes: map<string, StepResult>) {
    exists d :: d in step.dependsOn && !d.optional && Unavailable(outcomes, d.stepId)
  }

  predicate MissesArtifact(step: PlanStep, store: seq<Artifact>) {
    exists d :: d in step.dependsOn && !d.optional && exists kind :: kind in d.requiredArtifacts && !HasKind(store, kind)
  }

  function DependencySkip(step: PlanStep, outcomes: map<string, StepResult>, store: seq<Artifact>): Option<StepResult> {
    if RequiresUnavailable(step, outcomes) then Some(SkippedResult(step, "required dependencies unavailable"))
    else if MissesArtifact(step, store) then Some(SkippedResult(step, "missing required artifacts"))
    else None
  }

  /** What a dependency that is not optional can lack: its step failed or was skipped, or no artifact is of a required kind. */
  predicate Lacks(d: StepDependency, outcomes: map<string, StepResult>, store: seq<Artifact>) {
    && !d.optional
    && (|| (d.stepId in outcomes && (outcomes[d.stepId].outcome == FAILED || outcomes[d.stepId].outcome == SKIPPED))
        || exists kind :: kind in d.requiredArtifacts && forall a :: a in store ==> a.kind != kind)
  }

  /** A step is skipped exactly when one of its dependencies lacks something, and a skip is a result SKIPPED without artifacts. */
  lemma SkippedIff(step: PlanStep, outcomes: map<string, StepResult>, store: seq<Artifact>)
    ensures var skip := DependencySkip(step, outcomes, store);
            && (skip.Some? <==> exists d :: d in step.dependsOn && Lacks(d, outcomes, store))
            && (skip.Some? ==> skip.value.outcome == SKIPPED && skip.value.artifacts == [])
  {
    forall kind ensures HasKind(store, kind) <==> exists a :: a in store && a.kind == kind {
      if a :| a in store && a.kind == kind {
        var k :| 0 <= k < |store| && store[k] == a;
      }
    }
    hide HasKind;
    if d :| d in step.dependsOn && Lacks(d, outcomes, store) {
      assert !DependencySkip(step, outcomes, store).None?;
    }
  }

  function Skip(P: Problem, l: Ledger, i: nat): Option<StepResult>
    requires i < |P.steps|
  {
    DependencySkip(P.steps[i], l.outcomes, l.store)
  }

  predicate InPlan(P: Problem, indexes: seq<nat>) {
    forall i :: i in indexes ==> i < |P.steps|
  }

  lemma InPlanSnoc(P: Problem, indexes: seq<nat>)
    requires InPlan(P, indexes) && indexes != []
    ensures InPlan(P, indexes[..|indexes| - 1]) && indexes[|indexes| - 1] < |P.steps|
  {
    var front := indexes[..|indexes| - 1];
    assert indexes[|indexes| - 1] in indexes;
    forall i | i in front ensures i < |P.steps| {
      assert i in indexes;
    }
  }

  /** The loop that opens a group: it records a skip for every step whose dependencies failed it ... */
  function OpenedLedger(P: Problem, l: Ledger, group: seq<nat>): Ledger
    requires InPlan(P, group)
  {
    if group == [] then l
    else
      InPlanSnoc(P, group);
      var i, l' := group[|group| - 1], OpenedLedger(P, l, group[..|group| - 1]);
      match Skip(P, l', i)
      case Some(r) => Record(P, l', i, r)
      case None => l'
  }

  /** ... and keeps the others for the pool. */
  function Runnable(P: Problem, l: Ledger, group: seq<nat>): seq<nat>
    requires InPlan(P, group)
  {
    if group == [] then []
    else
      InPlanSnoc(P, group);
      var i, front := group[|group| - 1], group[..|group| - 1];
      Runnable(P, l, front) + if Skip(P, OpenedLedger(P, l, front), i).None? then [i] else []
  }

  function OpeningEvents(P: Problem, l: Ledger, group: seq<nat>): seq<Event>
    requires InPlan(P, group)
  {
    if group == [] then []
    else
      InPlanSnoc(P, group);
      var i, front := group[|group| - 1], group[..|group| - 1];
      OpeningEvents(P, l, front) + [if Skip(P, OpenedLedger(P, l, front), i).None? then Queued(i) else DependencySkipped(i)]
  }

  /** The members of `keys` below n in ascending order: the order in which a wave's results are merged. */
  function InOrder(keys: set<nat>, n: nat): seq<nat> {
    if n == 0 then [] else InOrder(keys, n - 1) + if n - 1 in keys then [n - 1] else []
  }

  function Merged(P: Problem, l: Ledger, order: seq<nat>, results: map<nat, StepResult>): Ledger
    requires InPlan(P, order) && forall i :: i in order ==> i in results
  {
    if order == [] then l
    else
      InPlanSnoc(P, order);
      var i, l' := order[|order| - 1], Merged(P, l, order[..|order| - 1], results);
      assert i in order;
      Record(P, l', i, results[i]).(store := AddedAll(l'.store, results[i].artifacts))
  }

  lemma {:induction false} InOrderMembers(keys: set<nat>, n: nat)
    ensures forall i :: i in InOrder(keys, n) <==> i in keys && i < n
    ensures Graph.Ascending(InOrder(keys, n))
  {
    if n > 0 {
      InOrderMembers(keys, n - 1);
      if n - 1 in keys { Graph.AscendingSnoc(InOrder(keys, n - 1), n - 1); }
    }
  }

  function MergedWave(P: Problem, l: Ledger, results: map<nat, StepResult>): Ledger
    requires forall i :: i in results ==> i < |P.steps|
  {
    InOrderMembers(results.Keys, |P.steps|);
    Merged(P, l, InOrder(results.Keys, |P.steps|), results)
  }

  // ---------------------------------------------------------------- what a worker thread does

  function AttemptResult(P: Problem, i: nat, attempt: Attempt): StepResult
    requires i < |P.steps| && !attempt.Interrupted?
  {
    match attempt
    case Returned(r) => r
    case Raised(message) => MakeResult(P.steps[i].tool, false, EmptyPayload, message, FAILED, [])
  }

  predicate CanRetry(step: PlanStep, a: nat, r: StepResult) {
    a < step.retryPolicy.maxAttempts && r.outcome in step.retryPolicy.retryableOutcomes
  }

  datatype ThreadEnd = Value(result: StepResult) | Interruption

  /** Where a worker stands in _execute_with_retries. */
  datatype Thread =
    | Waiting(attempt: nat)     // at the head of the retry loop
    | Cleared(attempt: nat)     // past the test for cancellation, the attempt not announced yet
    | Announced(attempt: nat)   // the attempt is announced, the executor not called yet
    | Executing(attempt: nat)   // inside the executor
    | BackingOff(attempt: nat)  // waiting before the next attempt
    | Finished(end: ThreadEnd)  // the future is done

  // ---------------------------------------------------------------- the whole state

  /** The local state of _run_wave. */
  datatype Pool = Pool(steps: seq<nat>, pending: seq<nat>, running: map<nat, Thread>, results: map<nat, StepResult>)

  const EmptyPool := Pool([], [], map[], map[])

  datatype Phase = Between | InWave | Draining | Done

  datatype Event =
    | Queued(step: nat)
    | DependencySkipped(step: nat)
    | Started(step: nat, attempt: nat)
    | Retrying(step: nat, attempt: nat)
    | Ended(step: nat, attempt: nat, outcome: string)

  datatype State = State(phase: Phase, wave: nat, ledger: Ledger, pool: Pool, cancelled: bool, interrupted: bool,
                         trace: seq<Event>)

  function Initial(P: Problem): State {
    State(Between, 0, EmptyLedger(P), EmptyPool, false, false, [])
  }

  datatype Action =
    | OpenWave            // main thread: skip what must be skipped, queue the rest
    | Submit              // main thread: hand the first pending step to the pool
    | Begin(step: nat)    // worker: test for cancellation, and give up or go on
    | Announce(step: nat) // worker: emit the start of the attempt, with all that its callbacks do
    | Call(step: nat)     // worker: call the executor
    | Return(step: nat)   // worker: the executor comes back
    | Wake(step: nat)     // worker: the backoff ends
    | Collect(step: nat)  // main thread: take a finished future
    | Cancel              // anyone: request cancellation
    | Interrupt           // keyboard interrupt in the main thread while it runs a wave
    | Abandon(step: nat)  // an interrupted pool drops a future that has not started
    | CloseWave           // main thread: leave the wave and merge its results
    | Finish              // main thread: leave the loop over the groups

  predicate GroupInRange(P: Problem, g: nat) {
    g < |P.groups| && InPlan(P, P.groups[g])
  }

  predicate AllFinished(running: map<nat, Thread>) {
    forall i :: i in running ==> running[i].Finished?
  }

  predicate Active(s: State) {
    s.phase == InWave || s.phase == Draining
  }

  predicate At(s: State, i: nat, P: Problem) {
    Active(s) && i in s.pool.running && i < |P.steps|
  }

  predicate MayOpen(P: Problem, s: State) {
    s.phase == Between && !s.cancelled && GroupInRange(P, s.wave)
  }

  predicate MaySubmit(P: Problem, s: State) {
    s.phase == InWave && s.pool.pending != [] && |s.pool.running| < P.maxConcurrency && !s.cancelled
  }

  predicate MayCollect(s: State, i: nat) {
    s.phase == InWave && i in s.pool.running && s.pool.running[i].Finished?
  }

  predicate MayAbandon(s: State, i: nat) {
    s.phase == Draining && i in s.pool.running && s.pool.running[i] == Waiting(1)
  }

  predicate MayClose(P: Problem, s: State) {
    && (forall i :: i in s.pool.results ==> i < |P.steps|)
    && ((s.phase == InWave && s.pool.running == map[] && (s.pool.pending == [] || s.cancelled)) ||
        (s.phase == Draining && AllFinished(s.pool.running)))
  }

  predicate Enabled(P: Problem, s: State, a: Action) {
    match a
    case OpenWave => MayOpen(P, s)
    case Submit => MaySubmit(P, s)
    case Begin(i) => At(s, i, P) && s.pool.running[i].Waiting?
    case Announce(i) => At(s, i, P) && s.pool.running[i].Cleared?
    case Call(i) => At(s, i, P) && s.pool.running[i].Announced?
    case Return(i) => At(s, i, P) && s.pool.running[i].Executing?
    case Wake(i) => At(s, i, P) && s.pool.running[i].BackingOff?
    case Collect(i) => MayCollect(s, i)
    case Cancel => !s.cancelled
    case Interrupt => s.phase == InWave
    case Abandon(i) => MayAbandon(s, i)
    case CloseWave => MayClose(P, s)
    case Finish => s.phase == Between && (s.cancelled || s.wave == |P.groups|)
  }

  function SetThread(s: State, i: nat, t: Thread, e: seq<Event>): State {
    s.(pool := s.pool.(running := s.pool.running[i := t]), trace := s.trace + e)
  }

  function DropThread(s: State, i: nat): State {
    s.(pool := s.pool.(running := s.pool.running - {i}))
  }

  function AfterOpen(P: Problem, s: State): State
    requires GroupInRange(P, s.wave)
  {
    var group := P.groups[s.wave];
    var runnable := Runnable(P, s.ledger, group);
    s.(phase := InWave, ledger := OpenedLedger(P, s.ledger, group), pool := Pool(runnable, runnable, map[], map[]),
       trace := s.trace + OpeningEvents(P, s.ledger, group))
  }

  function AfterSubmit(s: State): State
    requires s.pool.pending != []
  {
    s.(pool := s.pool.(pending := s.pool.pending[1..], running := s.pool.running[s.pool.pending[0] := Waiting(1)]))
  }

  /** A worker that notices the cancellation ends its step as skipped. */
  function GivesUp(P: Problem, s: State, i: nat, a: nat, reason: string): State
    requires i < |P.steps|
  {
    var r := SkippedResult(P.steps[i], reason);
    SetThread(s, i, Finished(Value(r)), [Ended(i, a, r.outcome)])
  }

  function AfterBegin(P: Problem, s: State, i: nat, a: nat): State
    requires i < |P.steps|
  {
    if s.cancelled then GivesUp(P, s, i, a, "execution cancelled") else SetThread(s, i, Cleared(a), [])
  }

  function AfterAnnounce(s: State, i: nat, a: nat): State {
    SetThread(s, i, Announced(a), [Started(i, a)])
  }

  function AfterCall(s: State, i: nat, a: nat): State {
    SetThread(s, i, Executing(a), [])
  }

  function AfterWake(P: Problem, s: State, i: nat, a: nat): State
    requires i < |P.steps|
  {
    if s.cancelled then GivesUp(P, s, i, a, "execution cancelled during retry backoff")
    else SetThread(s, i, Waiting(a + 1), [])
  }

  /** The outcome of one executor call: another attempt, or the end of the step. */
  function AfterAttempt(P: Problem, s: State, i: nat, a: nat, attempt: Attempt): State
    requires i < |P.steps|
  {
    if attempt.Interrupted? then SetThread(s, i, Finished(Interruption), [])
    else
      var step, r := P.steps[i], AttemptResult(P, i, attempt);
      if !CanRetry(step, a, r) then SetThread(s, i, Finished(Value(r)), [Ended(i, a, r.outcome)])
      else SetThread(s, i, if step.retryPolicy.backoffSeconds > 0 then BackingOff(a) else Waiting(a + 1), [Retrying(i, a)])
  }

  function AfterCollect(s: State, i: nat, end: ThreadEnd): State {
    match end
    case Value(r) => s.(pool := s.pool.(running := s.pool.running - {i}, results := s.pool.results[i := r]))
    case Interruption => DropThread(s, i).(cancelled := true, interrupted := true)
  }

  function AfterClose(P: Problem, s: State): State
    requires forall i :: i in s.pool.results ==> i < |P.steps|
  {
    s.(phase := Between, wave := s.wave + 1,
       ledger := if s.interrupted then s.ledger else MergedWave(P, s.ledger, s.pool.results),
       pool := Pool(s.pool.steps, [], map[], map[]))
  }

  function Apply(P: Problem, s: State, a: Action): State
    requires Enabled(P, s, a)
  {
    match a
    case OpenWave => AfterOpen(P, s)
    case Submit => AfterSubmit(s)
    case Begin(i) => AfterBegin(P, s, i, s.pool.running[i].attempt)
    case Announce(i) => AfterAnnounce(s, i, s.pool.running[i].attempt)
    case Call(i) => AfterCall(s, i, s.pool.running[i].attempt)
    case Return(i) =>
      AfterAttempt(P, s, i, s.pool.running[i].attempt, P.execute(i, s.pool.running[i].attempt, s.ledger.store))
    case Wake(i) => AfterWake(P, s, i, s.pool.running[i].attempt)
    case Collect(i) => AfterCollect(s, i, s.pool.running[i].end)
    case Cancel => s.(cancelled := true)
    case Interrupt => s.(phase := Draining, cancelled := true, interrupted := true)
    case Abandon(i) => DropThread(s, i)
    case CloseWave => AfterClose(P, s)
    case Finish => s.(phase := Done)
  }

  /** The state after a run, if every action of it was possible when it was taken. */
  function Exec(P: Problem, acts: seq<Action>): Option<State> {
    if acts == [] then Some(Initial(P))
    else
      var before, a := Exec(P, acts[..|acts| - 1]), acts[|acts| - 1];
      if before.Some? && Enabled(P, before.value, a) then Some(Apply(P, before.value, a)) else None
  }
}
