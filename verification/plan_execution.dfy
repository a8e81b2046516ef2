/** Executing a plan from validation to results: execute_plan of blackline/engine/executor.py, and the retry loop alone. */
module PlanExecution {
  import opened Results
  import opened PlanModel
  import opened Artifacts
  import opened ScheduleMachine
  import opened ScheduleOrder
  import opened ScheduleTheorems
  import opened ScheduleProgram
  import Graph
  import PlanGroups

  // ---------------------------------------------------------------- execute_plan

  /** Without a cycle the groups of a validated plan exist, and they stage it. */
  lemma NoCycleNoDeadlock(steps: seq<PlanStep>, blocked: seq<nat>)
    requires Graph.Valid(steps)
    ensures !Graph.Deadlocked(steps, blocked)
  {
    hide Graph.Cycle, Graph.Deadlocked, KnownDependencies;
    if Graph.Deadlocked(steps, blocked) { Graph.StuckMeansCycle(steps, blocked); }
  }

  lemma UniquePlan(steps: seq<PlanStep>)
    requires Graph.Valid(steps)
    ensures UniqueIds(steps)
  {
  }

  /**
   * A plan is refused exactly when validation refuses it. Otherwise it runs in its dependency waves, or in its
   * execution groups when no step has dependencies, and unless the run is cancelled the results are, index by index,
   * those of the sequential reference of these groups.
   */
  method ExecutePlan(steps: seq<PlanStep>, execute: Executor, maxConcurrency: nat, control: ExecutionControl, env: Environment)
    returns (r: Result<seq<StepResult>, Graph.PlanError>, ghost P: Problem, ghost s: State)
    requires maxConcurrency >= 1
    modifies control, env
    ensures r.Ok? <==> Graph.Valid(steps)
    ensures r.Ok? ==> ValidProblem(P) && P.steps == steps && P.execute == execute && P.initial == []
    ensures r.Ok? ==> P.maxConcurrency == maxConcurrency
    ensures r.Ok? && (exists i :: 0 <= i < |steps| && steps[i].dependsOn != []) ==> Graph.Layered(steps, P.groups, P.stage)
    ensures r.Ok? && (forall i :: 0 <= i < |steps| ==> steps[i].dependsOn == []) ==>
              PlanGroups.GroupedBy(steps, PlanGroups.EffectiveGroup, P.groups, P.stage)
    ensures r.Ok? ==> Reachable(P, s) && s.phase == Done && s.cancelled == control.cancelled
    ensures r.Ok? ==> (forall i :: i in ResultOrder(P, s) ==> i in s.ledger.slots) && r.value == ResultsOf(s.ledger, ResultOrder(P, s))
    ensures r.Ok? && !control.cancelled ==> GroupsInPlan(P) && Uncancelled(P, r.value)
    ensures r.Ok? && old(control.cancelled) ==> r.value == []
    ensures r.Ok? ==>
              (control.cancelled <==> old(control.cancelled) || Asked(env.cancels, old(env.clock), env.clock) || s.interrupted)
    ensures r.Ok? && Asked(env.interrupts, old(env.heard), env.heard) ==> s.interrupted
    ensures r.Ok? && s.interrupted ==> Asked(env.interrupts, old(env.heard), env.heard) || ExecutorInterrupts(P)
    ensures r.Ok? && !old(control.cancelled) && Calm(env) && !ExecutorInterrupts(P) ==> !control.cancelled
    ensures r.Err? ==> control.cancelled == old(control.cancelled)
  {
    hide Asked, Calm, ExecutorInterrupts, UniqueIds, Staged, Reachable, ResultOrder, Reference, InPlan;
    hide Graph.Valid, Graph.Deadlocked, Graph.Layered, PlanGroups.GroupedBy;
    P, s := Problem(steps, [], map[], maxConcurrency, execute, []), Initial(Problem(steps, [], map[], maxConcurrency, execute, []));
    var problem := Graph.ValidatePlanGraph(steps);
    if problem.Some? { return Err(problem.value), P, s; }
    var groups, stage := PlanGroups.PlanStepGroups(steps);
    if groups.Err? {
      NoCycleNoDeadlock(steps, groups.error.blocked);
      assert false;
      return Err(Graph.DuplicateIds), P, s;
    }
    UniquePlan(steps);
    var store := new ArtifactStore([]);
    PlanGroups.StageIsOfGroups(steps, groups.value, stage);
    var plan := Problem(steps, groups.value, PlanGroups.StageOf(groups.value, |steps|), maxConcurrency, execute, []);
    P := plan;
    var results;
    results, s := SchedulePlan(plan, control, env, store);
    r := Ok(results);
  }

  // ---------------------------------------------------------------- the retry loop, one worker on its own

  /** The events of the first k attempts when each of them is retried. */
  function Tries(i: nat, k: nat): seq<Event> {
    if k == 0 then [] else Tries(i, k - 1) + [Started(i, k), Retrying(i, k)]
  }

  /** What the worker sees of the control object: cancelled at the head of an attempt, or while it backs off after one. */
  datatype Sight = Sight(atHead: nat -> bool, inBackoff: nat -> bool)

  /** Attempt a returns a result that is to be retried, and no cancellation is seen up to the next attempt. */
  predicate Retried(P: Problem, i: nat, a: nat, store: seq<Artifact>, sight: Sight)
    requires i < |P.steps|
  {
    && !sight.atHead(a) && !P.execute(i, a, store).Interrupted?
    && CanRetry(P.steps[i], a, AttemptResult(P, i, P.execute(i, a, store)))
    && (P.steps[i].retryPolicy.backoffSeconds > 0 ==> !sight.inBackoff(a))
  }

  /** The four ways a step ends at attempt a, each with its events. */
  predicate EndsAt(P: Problem, i: nat, a: nat, store: seq<Artifact>, sight: Sight, end: ThreadEnd, events: seq<Event>)
    requires i < |P.steps|
  {
    var step, before, attempt := P.steps[i], if a > 0 then Tries(i, a - 1) else [], P.execute(i, a, store);
    if sight.atHead(a) then
      end == Value(SkippedResult(step, "execution cancelled")) && events == before + [Ended(i, a, SKIPPED)]
    else if attempt.Interrupted? then
      end == Interruption && events == before + [Started(i, a)]
    else
      var r := AttemptResult(P, i, attempt);
      if CanRetry(step, a, r) then
        && step.retryPolicy.backoffSeconds > 0 && sight.inBackoff(a)
        && end == Value(SkippedResult(step, "execution cancelled during retry backoff"))
        && events == Tries(i, a) + [Ended(i, a, SKIPPED)]
      else
        end == Value(r) && events == before + [Started(i, a), Ended(i, a, r.outcome)]
  }

  /**
   * The loop of _execute_with_retries. It always returns from inside the loop: there is one attempt, within the
   * policy's limit, at which the step ends, and every attempt before it was retried, having ended with an outcome the
   * policy retries. Unless the worker gives up there, the last attempt is the last one allowed or ended otherwise.
   */
  method ExecuteWithRetries(P: Problem, i: nat, store: seq<Artifact>, sight: Sight)
    returns (end: ThreadEnd, events: seq<Event>, ghost last: nat)
    requires i < |P.steps|
    ensures 1 <= last <= P.steps[i].retryPolicy.maxAttempts
    ensures forall a :: 1 <= a < last ==> Retried(P, i, a, store, sight)
    ensures EndsAt(P, i, last, store, sight, end, events)
    ensures forall a :: 1 <= a < last ==> IsRetried(P, i, a, store)
    ensures !sight.atHead(last) && !sight.inBackoff(last) ==> IsFinal(P, i, last, store, end)
    ensures (forall a :: !sight.atHead(a) && !sight.inBackoff(a)) ==> end == Settle(P, i, 1, store)
  {
    var step := P.steps[i];
    end, events, last := Interruption, [], 1;
    for attempt := 1 to step.retryPolicy.maxAttempts + 1
      invariant attempt <= step.retryPolicy.maxAttempts
      invariant events == Tries(i, attempt - 1)
      invariant forall a :: 1 <= a < attempt ==> Retried(P, i, a, store, sight) && IsRetried(P, i, a, store)
      invariant (forall a :: !sight.atHead(a) && !sight.inBackoff(a)) ==> Settle(P, i, attempt, store) == Settle(P, i, 1, store)
    {
      last := attempt;
      if sight.atHead(attempt) {
        return Value(SkippedResult(step, "execution cancelled")), events + [Ended(i, attempt, SKIPPED)], last;
      }
      events := events + [Started(i, attempt)];
      var outcome := P.execute(i, attempt, store);
      if outcome.Interrupted? { return Interruption, events, last; }
      var result := AttemptResult(P, i, outcome);
      if !CanRetry(step, attempt, result) {
        assert events + [Ended(i, attempt, result.outcome)]
            == Tries(i, attempt - 1) + [Started(i, attempt), Ended(i, attempt, result.outcome)];
        return Value(result), events + [Ended(i, attempt, result.outcome)], last;
      }
      events := events + [Retrying(i, attempt)];
      assert events == Tries(i, attempt);
      if step.retryPolicy.backoffSeconds > 0 && sight.inBackoff(attempt) {
        return Value(SkippedResult(step, "execution cancelled during retry backoff")), events + [Ended(i, attempt, SKIPPED)], last;
      }
    }
    assert false;
  }
}
