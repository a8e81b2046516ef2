/** Schedule independence: an uncancelled run gives what a sequential run of the groups gives, whatever the order. */
module ScheduleOrder {
  import opened Results
  import opened PlanModel
  import opened ScheduleMachine
  import opened ScheduleSafety
  import Graph

  // ---------------------------------------------------------------- the sequential reference

  /** What the retry loop returns from attempt a on, if nobody cancels. */
  function Settle(P: Problem, i: nat, a: nat, store: seq<Artifact>): ThreadEnd
    requires i < |P.steps|
    decreases P.steps[i].retryPolicy.maxAttempts - a
  {
    var attempt := P.execute(i, a, store);
    if attempt.Interrupted? then Interruption
    else
      var r := AttemptResult(P, i, attempt);
      if CanRetry(P.steps[i], a, r) then Settle(P, i, a + 1, store) else Value(r)
  }

  /** Attempt a ended with an outcome that the policy retries; one that raises counts as failed. */
  predicate IsRetried(P: Problem, i: nat, a: nat, store: seq<Artifact>)
    requires i < |P.steps|
  {
    var retryable := P.steps[i].retryPolicy.retryableOutcomes;
    match P.execute(i, a, store)
    case Returned(r) => r.outcome in retryable
    case Raised(_) => FAILED in retryable
    case Interrupted => false
  }

  /** Attempt a is the last one the policy allows or ended with another outcome, and `end` is what it gave. */
  predicate IsFinal(P: Problem, i: nat, a: nat, store: seq<Artifact>, end: ThreadEnd)
    requires i < |P.steps|
  {
    var policy := P.steps[i].retryPolicy;
    match P.execute(i, a, store)
    case Returned(r) => end == Value(r) && (a == policy.maxAttempts || r.outcome !in policy.retryableOutcomes)
    case Raised(message) =>
      && end.Value? && !end.result.ok && end.result.outcome == FAILED && end.result.error == message && end.result.artifacts == []
      && (a == policy.maxAttempts || FAILED !in policy.retryableOutcomes)
    case Interrupted => end == Interruption
  }

  /** The retry loop from attempt a on, told by the executor's answers and the policy alone. */
  lemma {:induction false} SettleFrom(P: Problem, i: nat, a: nat, store: seq<Artifact>) returns (last: nat)
    requires i < |P.steps| && a <= P.steps[i].retryPolicy.maxAttempts
    ensures a <= last <= P.steps[i].retryPolicy.maxAttempts && IsFinal(P, i, last, store, Settle(P, i, a, store))
    ensures forall b :: a <= b < last ==> IsRetried(P, i, b, store)
    decreases P.steps[i].retryPolicy.maxAttempts - a
  {
    var attempt := P.execute(i, a, store);
    if !attempt.Interrupted? && CanRetry(P.steps[i], a, AttemptResult(P, i, attempt)) {
      last := SettleFrom(P, i, a + 1, store);
      assert IsRetried(P, i, a, store);
    } else {
      last := a;
    }
  }

  /** Every attempt before the last was retried, and the last one is final. */
  lemma SettleMeaning(P: Problem, i: nat, store: seq<Artifact>) returns (last: nat)
    requires i < |P.steps|
    ensures 1 <= last <= P.steps[i].retryPolicy.maxAttempts && IsFinal(P, i, last, store, Settle(P, i, 1, store))
    ensures forall a :: 1 <= a < last ==> IsRetried(P, i, a, store)
  {
    last := SettleFrom(P, i, 1, store);
  }

  function SettledResults(P: Problem, runnable: seq<nat>, store: seq<Artifact>): map<nat, StepResult>
    requires InPlan(P, runnable)
  {
    map i | i in runnable && Settle(P, i, 1, store).Value? :: Settle(P, i, 1, store).result
  }

  predicate GroupsInPlan(P: Problem) {
    forall g :: 0 <= g < |P.groups| ==> InPlan(P, P.groups[g])
  }

  /** The ledger after the first k groups, run one after the other and step by step in plan order. */
  function Reference(P: Problem, k: nat): Ledger
    requires GroupsInPlan(P) && k <= |P.groups|
  {
    if k == 0 then EmptyLedger(P) else RunGroup(P, Reference(P, k - 1), P.groups[k - 1])
  }

  /** One group, step by step: skip what must be skipped, settle the others, merge their results. */
  function RunGroup(P: Problem, before: Ledger, group: seq<nat>): Ledger
    requires InPlan(P, group)
  {
    var l := OpenedLedger(P, before, group);
    RunnableInPlan(P, before, group);
    MergedWave(P, l, SettledResults(P, Runnable(P, before, group), l.store))
  }

  lemma {:induction false} RunnableInPlan(P: Problem, l: Ledger, group: seq<nat>)
    requires InPlan(P, group)
    ensures InPlan(P, Runnable(P, l, group))
  {
    if group != [] {
      InPlanSnoc(P, group);
      RunnableInPlan(P, l, group[..|group| - 1]);
    }
  }

  // ---------------------------------------------------------------- agreement of a run with the reference

  lemma StagedInPlan(P: Problem)
    requires ValidProblem(P)
    ensures GroupsInPlan(P)
  {
    forall g | 0 <= g < |P.groups| ensures InPlan(P, P.groups[g]) {
      forall i | i in P.groups[g] ensures i < |P.steps| {
        assert i in P.stage;
      }
    }
  }

  /** Whatever a worker still has to do leads to the result of the sequential retry loop. */
  predicate OnCourse(P: Problem, i: nat, t: Thread, store: seq<Artifact>) {
    i < |P.steps| && match t
    case Waiting(a) => Settle(P, i, a, store) == Settle(P, i, 1, store)
    case Cleared(a) => Settle(P, i, a, store) == Settle(P, i, 1, store)
    case Announced(a) => Settle(P, i, a, store) == Settle(P, i, 1, store)
    case Executing(a) => Settle(P, i, a, store) == Settle(P, i, 1, store)
    case BackingOff(a) => Settle(P, i, a + 1, store) == Settle(P, i, 1, store)
    case Finished(end) => end == Settle(P, i, 1, store)
  }

  predicate Opened(P: Problem, s: State)
    requires s.wave < |P.groups| && GroupInRange(P, s.wave) && GroupsInPlan(P)
  {
    && s.ledger == OpenedLedger(P, Reference(P, s.wave), P.groups[s.wave])
    && s.pool.steps == Runnable(P, Reference(P, s.wave), P.groups[s.wave])
  }

  ghost predicate PoolOnCourse(P: Problem, s: State) {
    && (forall i :: i in s.pool.running ==> OnCourse(P, i, s.pool.running[i], s.ledger.store))
    && (forall i :: i in s.pool.results ==> OnCourse(P, i, Finished(Value(s.pool.results[i])), s.ledger.store))
  }

  ghost predicate Agrees(P: Problem, s: State)
    requires GroupsInPlan(P)
  {
    !s.cancelled ==>
      && s.phase != Draining && s.wave <= |P.groups|
      && (!Active(s) ==> s.ledger == Reference(P, s.wave))
      && (Active(s) ==> s.wave < |P.groups| && Opened(P, s) && PoolOnCourse(P, s))
      && (s.phase == Done ==> s.wave == |P.groups|)
  }

  // ---------------------------------------------------------------- each step keeps the agreement

  lemma OpenAgrees(P: Problem, s: State)
    requires GroupsInPlan(P) && MayOpen(P, s) && Agrees(P, s)
    ensures Agrees(P, AfterOpen(P, s))
  {
    hide OpenedLedger, Runnable, OpeningEvents, Reference;
  }

  /** A worker step of an uncancelled run keeps its step on course. */
  lemma WorkerAgrees(P: Problem, s: State, i: nat, t: Thread, e: seq<Event>)
    requires GroupsInPlan(P) && Agrees(P, s) && At(s, i, P)
    requires !s.cancelled ==> OnCourse(P, i, t, s.ledger.store)
    ensures Agrees(P, SetThread(s, i, t, e))
  {
    hide OnCourse, OpenedLedger, Runnable, Reference;
  }

  lemma Course(P: Problem, s: State, i: nat)
    requires GroupsInPlan(P) && Agrees(P, s) && Active(s) && i in s.pool.running && !s.cancelled
    ensures OnCourse(P, i, s.pool.running[i], s.ledger.store)
  {
  }

  lemma BeginAgrees(P: Problem, s: State, i: nat, a: nat)
    requires GroupsInPlan(P) && Agrees(P, s) && At(s, i, P) && s.pool.running[i] == Waiting(a)
    ensures Agrees(P, AfterBegin(P, s, i, a))
  {
    hide Agrees, GroupsInPlan, Settle;
    if !s.cancelled {
      Course(P, s, i);
      WorkerAgrees(P, s, i, Cleared(a), []);
    } else {
      CancelledAgrees(P, AfterBegin(P, s, i, a));
    }
  }

  lemma AnnounceAgrees(P: Problem, s: State, i: nat, a: nat)
    requires GroupsInPlan(P) && Agrees(P, s) && At(s, i, P) && s.pool.running[i] == Cleared(a)
    ensures Agrees(P, AfterAnnounce(s, i, a))
  {
    hide Agrees, GroupsInPlan, Settle;
    if !s.cancelled { Course(P, s, i); }
    WorkerAgrees(P, s, i, Announced(a), [Started(i, a)]);
  }

  lemma CallAgrees(P: Problem, s: State, i: nat, a: nat)
    requires GroupsInPlan(P) && Agrees(P, s) && At(s, i, P) && s.pool.running[i] == Announced(a)
    ensures Agrees(P, AfterCall(s, i, a))
  {
    hide Agrees, GroupsInPlan, Settle;
    if !s.cancelled { Course(P, s, i); }
    WorkerAgrees(P, s, i, Executing(a), []);
  }

  lemma WakeAgrees(P: Problem, s: State, i: nat, a: nat)
    requires GroupsInPlan(P) && Agrees(P, s) && At(s, i, P) && s.pool.running[i] == BackingOff(a)
    ensures Agrees(P, AfterWake(P, s, i, a))
  {
    hide Agrees, GroupsInPlan, Settle;
    if !s.cancelled {
      Course(P, s, i);
      WorkerAgrees(P, s, i, Waiting(a + 1), []);
    } else {
      CancelledAgrees(P, AfterWake(P, s, i, a));
    }
  }

  lemma CancelledAgrees(P: Problem, s: State)
    requires GroupsInPlan(P) && s.cancelled
    ensures Agrees(P, s)
  {
  }

  lemma ReturnAgrees(P: Problem, s: State, i: nat, a: nat)
    requires GroupsInPlan(P) && Agrees(P, s) && At(s, i, P) && s.pool.running[i] == Executing(a)
    ensures Agrees(P, AfterAttempt(P, s, i, a, P.execute(i, a, s.ledger.store)))
  {
    var store := s.ledger.store;
    var attempt := P.execute(i, a, store);
    hide Agrees, GroupsInPlan;
    if s.cancelled {
      CancelledAgrees(P, AfterAttempt(P, s, i, a, attempt));
    } else {
      Course(P, s, i);
      assert Settle(P, i, a, store) == Settle(P, i, 1, store);
      if attempt.Interrupted? {
        WorkerAgrees(P, s, i, Finished(Interruption), []);
      } else {
        var step, r := P.steps[i], AttemptResult(P, i, attempt);
        if CanRetry(step, a, r) {
          assert Settle(P, i, a, store) == Settle(P, i, a + 1, store);
          WorkerAgrees(P, s, i, if step.retryPolicy.backoffSeconds > 0 then BackingOff(a) else Waiting(a + 1), [Retrying(i, a)]);
        } else {
          WorkerAgrees(P, s, i, Finished(Value(r)), [Ended(i, a, r.outcome)]);
        }
      }
    }
  }

  lemma SubmitAgrees(P: Problem, s: State)
    requires GroupsInPlan(P) && Inv(P, s) && Agrees(P, s) && MaySubmit(P, s)
    ensures Agrees(P, AfterSubmit(s))
  {
    hide OpenedLedger, Runnable, Reference, Inv, Settle;
    NextInPlan(P, s);
  }

  lemma NextInPlan(P: Problem, s: State)
    requires Inv(P, s) && s.pool.pending != []
    ensures s.pool.pending[0] < |P.steps|
  {
    assert s.pool.pending[0] in s.pool.pending;
  }

  lemma CollectAgrees(P: Problem, s: State, i: nat)
    requires GroupsInPlan(P) && Agrees(P, s) && MayCollect(s, i)
    ensures Agrees(P, AfterCollect(s, i, s.pool.running[i].end))
  {
    hide OpenedLedger, Runnable, Reference, Settle;
  }

  /** When an uncancelled wave closes, every runnable step has been collected with its settled result. */
  lemma AllCollected(P: Problem, s: State)
    requires GroupsInPlan(P) && Inv(P, s) && Agrees(P, s) && MayClose(P, s) && !s.cancelled
    ensures s.phase == InWave && InPlan(P, s.pool.steps)
    ensures s.pool.results == SettledResults(P, s.pool.steps, s.ledger.store)
  {
    hide OpenedLedger, Runnable, Reference, Settle, Filled, LedgerOk, Traced, Threads, Graph.Ascending;
    forall i | i in s.pool.steps ensures i in s.pool.results {
      assert InPool(s, i);
    }
    forall i | i in s.pool.results ensures Settle(P, i, 1, s.ledger.store) == Value(s.pool.results[i]) {
      assert OnCourse(P, i, Finished(Value(s.pool.results[i])), s.ledger.store);
    }
  }

  lemma CloseAgrees(P: Problem, s: State)
    requires GroupsInPlan(P) && Inv(P, s) && Agrees(P, s) && MayClose(P, s)
    ensures Agrees(P, AfterClose(P, s))
  {
    hide Inv, Agrees, GroupsInPlan, SettledResults, MergedWave;
    if s.cancelled {
      CancelledAgrees(P, AfterClose(P, s));
    } else {
      AllCollected(P, s);
      NotInterrupted(P, s);
      CloseReaches(P, s);
    }
  }

  lemma NotInterrupted(P: Problem, s: State)
    requires Inv(P, s) && !s.cancelled
    ensures !s.interrupted
  {
  }

  lemma CloseReaches(P: Problem, s: State)
    requires GroupsInPlan(P) && Agrees(P, s) && MayClose(P, s) && s.phase == InWave && !s.cancelled && !s.interrupted
    requires InPlan(P, s.pool.steps) && s.pool.results == SettledResults(P, s.pool.steps, s.ledger.store)
    ensures Agrees(P, AfterClose(P, s))
  {
    hide OpenedLedger, Runnable, MergedWave, SettledResults, PoolOnCourse, Settle, InPlan;
    assert AfterClose(P, s).ledger == Reference(P, s.wave + 1);
  }

  lemma StepAgrees(P: Problem, s: State, a: Action)
    requires ValidProblem(P) && GroupsInPlan(P) && Inv(P, s) && Agrees(P, s) && Enabled(P, s, a)
    ensures Agrees(P, Apply(P, s, a))
  {
    hide Inv, ValidProblem, GroupsInPlan, Agrees;
    match a
    case OpenWave => OpenAgrees(P, s);
    case Submit => SubmitAgrees(P, s);
    case Begin(i) => BeginAgrees(P, s, i, s.pool.running[i].attempt);
    case Announce(i) => AnnounceAgrees(P, s, i, s.pool.running[i].attempt);
    case Call(i) => CallAgrees(P, s, i, s.pool.running[i].attempt);
    case Return(i) => ReturnAgrees(P, s, i, s.pool.running[i].attempt);
    case Wake(i) => WakeAgrees(P, s, i, s.pool.running[i].attempt);
    case Collect(i) => CollectAgrees(P, s, i);
    case Cancel => CancelledAgrees(P, Apply(P, s, a));
    case Interrupt => CancelledAgrees(P, Apply(P, s, a));
    case Abandon(i) => DrainingIsCancelled(P, s); CancelledAgrees(P, Apply(P, s, a));
    case CloseWave => CloseAgrees(P, s);
    case Finish => FinishAgrees(P, s);
  }

  lemma DrainingIsCancelled(P: Problem, s: State)
    requires Inv(P, s) && s.phase == Draining
    ensures s.cancelled
  {
  }

  lemma FinishAgrees(P: Problem, s: State)
    requires GroupsInPlan(P) && Agrees(P, s) && Enabled(P, s, Finish)
    ensures Agrees(P, s.(phase := Done))
  {
  }

  lemma {:induction false} RunAgrees(P: Problem, acts: seq<Action>)
    requires ValidProblem(P) && GroupsInPlan(P) && Exec(P, acts).Some?
    ensures Agrees(P, Exec(P, acts).value)
  {
    hide Inv, ValidProblem, GroupsInPlan, Agrees, Enabled, Apply;
    if acts == [] {
      InitialAgrees(P);
    } else {
      var front := acts[..|acts| - 1];
      RunAgrees(P, front);
      RunKeeps(P, front);
      StepAgrees(P, Exec(P, front).value, acts[|acts| - 1]);
    }
  }

  lemma InitialAgrees(P: Problem)
    requires GroupsInPlan(P)
    ensures Agrees(P, Initial(P))
  {
  }
}
