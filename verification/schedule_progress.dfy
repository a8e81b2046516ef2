/** No run of the scheduler goes on for ever, and none gets stuck before it is done. */
module ScheduleProgress {
  import opened Results
  import opened PlanModel
  import opened ScheduleMachine
  import opened ScheduleSafety
  import Graph

  // ---------------------------------------------------------------- how much work is left

  function Budget(P: Problem, i: nat): nat
    requires i < |P.steps|
  {
    5 * P.steps[i].retryPolicy.maxAttempts + 2
  }

  function ThreadWork(P: Problem, i: nat, t: Thread): nat
    requires i < |P.steps|
  {
    var max: int := P.steps[i].retryPolicy.maxAttempts;
    match t
    case Waiting(a) => if a <= max then 5 * (max - a) + 6 else 6
    case Cleared(a) => if a <= max then 5 * (max - a) + 5 else 5
    case Announced(a) => if a <= max then 5 * (max - a) + 4 else 4
    case Executing(a) => if a <= max then 5 * (max - a) + 3 else 3
    case BackingOff(a) => if a <= max then 5 * (max - a) + 2 else 2
    case Finished(_) => 1
  }

  predicate Unopened(P: Problem, s: State, i: nat) {
    i in P.stage && (P.stage[i] > s.wave || (P.stage[i] == s.wave && !Active(s)))
  }

  function Work(P: Problem, s: State, i: nat): nat
    requires i < |P.steps|
  {
    if i in s.pool.pending then Budget(P, i)
    else if i in s.pool.running then ThreadWork(P, i, s.pool.running[i])
    else if Unopened(P, s, i) then Budget(P, i)
    else 0
  }

  function TotalWork(P: Problem, s: State, n: nat): nat
    requires n <= |P.steps|
  {
    if n == 0 then 0 else TotalWork(P, s, n - 1) + Work(P, s, n - 1)
  }

  function PhaseRank(p: Phase): nat {
    match p
    case Between => 3
    case InWave => 2
    case Draining => 1
    case Done => 0
  }

  function Rank(P: Problem, s: State): nat {
    (if s.wave <= |P.groups| then 4 * (|P.groups| - s.wave) else 0) + PhaseRank(s.phase) + if s.cancelled then 0 else 1
  }

  function Measure(P: Problem, s: State): nat {
    TotalWork(P, s, |P.steps|) + Rank(P, s)
  }

  lemma {:induction false} LessWork(P: Problem, s: State, s': State, n: nat)
    requires n <= |P.steps| && forall i: nat :: i < n ==> Work(P, s', i) <= Work(P, s, i)
    ensures TotalWork(P, s', n) <= TotalWork(P, s, n)
    ensures (exists i: nat :: i < n && Work(P, s', i) < Work(P, s, i)) ==> TotalWork(P, s', n) < TotalWork(P, s, n)
  {
    hide Work;
    if n > 0 { LessWork(P, s, s', n - 1); }
  }

  /** A step that leaves no step more work and one step less brings the run closer to its end, rank permitting. */
  lemma Closer(P: Problem, s: State, s': State, i: nat)
    requires forall j: nat :: j < |P.steps| ==> Work(P, s', j) <= Work(P, s, j)
    requires i < |P.steps| && Work(P, s', i) < Work(P, s, i) && Rank(P, s') <= Rank(P, s)
    ensures Measure(P, s') < Measure(P, s)
  {
    hide Work, Rank;
    LessWork(P, s, s', |P.steps|);
  }

  lemma Later(P: Problem, s: State, s': State)
    requires forall j: nat :: j < |P.steps| ==> Work(P, s', j) <= Work(P, s, j)
    requires Rank(P, s') < Rank(P, s)
    ensures Measure(P, s') < Measure(P, s)
  {
    hide Work, Rank;
    LessWork(P, s, s', |P.steps|);
  }

  // ---------------------------------------------------------------- every action uses some of it up

  lemma WorkerUses(P: Problem, s: State, i: nat, t: Thread, e: seq<Event>)
    requires Shape(P, s) && At(s, i, P) && ThreadWork(P, i, t) < ThreadWork(P, i, s.pool.running[i])
    ensures Measure(P, SetThread(s, i, t, e)) < Measure(P, s)
  {
    assert i !in s.pool.pending;
    hide Shape, ThreadWork, Budget;
    Closer(P, s, SetThread(s, i, t, e), i);
  }

  lemma RunningUses(P: Problem, s: State, a: Action)
    requires Shape(P, s) && Enabled(P, s, a) && (a.Begin? || a.Announce? || a.Call? || a.Return? || a.Wake?)
    requires forall i :: i in s.pool.running ==> ThreadOk(P, i, s.pool.running[i])
    ensures Measure(P, Apply(P, s, a)) < Measure(P, s)
  {
    var i := a.step;
    var n := s.pool.running[i].attempt;
    assert ThreadOk(P, i, s.pool.running[i]);
    hide Shape, Measure, AttemptResult;
    match a
    case Begin(_) =>
      if s.cancelled {
        var r := SkippedResult(P.steps[i], "execution cancelled");
        WorkerUses(P, s, i, Finished(Value(r)), [Ended(i, n, r.outcome)]);
      } else {
        WorkerUses(P, s, i, Cleared(n), []);
      }
    case Announce(_) => WorkerUses(P, s, i, Announced(n), [Started(i, n)]);
    case Call(_) => WorkerUses(P, s, i, Executing(n), []);
    case Return(_) =>
      var attempt := P.execute(i, n, s.ledger.store);
      if attempt.Interrupted? {
        WorkerUses(P, s, i, Finished(Interruption), []);
      } else {
        var step, r := P.steps[i], AttemptResult(P, i, attempt);
        if CanRetry(step, n, r) {
          WorkerUses(P, s, i, if step.retryPolicy.backoffSeconds > 0 then BackingOff(n) else Waiting(n + 1), [Retrying(i, n)]);
        } else {
          WorkerUses(P, s, i, Finished(Value(r)), [Ended(i, n, r.outcome)]);
        }
      }
    case Wake(_) =>
      if s.cancelled {
        var r := SkippedResult(P.steps[i], "execution cancelled during retry backoff");
        WorkerUses(P, s, i, Finished(Value(r)), [Ended(i, n, r.outcome)]);
      } else {
        WorkerUses(P, s, i, Waiting(n + 1), []);
      }
  }

  lemma SubmitUses(P: Problem, s: State)
    requires Shape(P, s) && MaySubmit(P, s)
    ensures Measure(P, AfterSubmit(s)) < Measure(P, s)
  {
    var i, rest := s.pool.pending[0], s.pool.pending[1..];
    assert s.pool.pending == [i] + rest;
    assert i in s.pool.pending && i !in rest && i < |P.steps|;
    assert forall j :: j in s.pool.pending <==> j == i || j in rest;
    hide Shape, Graph.Ascending;
    Closer(P, s, AfterSubmit(s), i);
  }

  lemma DropUses(P: Problem, s: State, i: nat, s': State)
    requires Shape(P, s) && Active(s) && i in s.pool.running && i < |P.steps|
    requires s'.pool.running == s.pool.running - {i} && s'.pool.pending == s.pool.pending && s'.wave == s.wave
    requires Active(s') && Rank(P, s') <= Rank(P, s)
    requires i in P.stage ==> P.stage[i] <= s.wave
    ensures Measure(P, s') < Measure(P, s)
  {
    assert i !in s.pool.pending;
    hide Shape, Budget, Rank;
    Closer(P, s, s', i);
  }

  lemma OpenUses(P: Problem, s: State)
    requires Shape(P, s) && MayOpen(P, s) && s.wave < |P.groups|
    requires forall i :: i in P.groups[s.wave] ==> i in P.stage && P.stage[i] == s.wave
    requires forall i :: i in Runnable(P, s.ledger, P.groups[s.wave]) ==> i in P.groups[s.wave]
    ensures Measure(P, AfterOpen(P, s)) < Measure(P, s)
  {
    hide Runnable, OpenedLedger, OpeningEvents, Graph.Ascending, Budget, InPlan;
    Later(P, s, AfterOpen(P, s));
  }

  lemma CloseUses(P: Problem, s: State)
    requires Shape(P, s) && Filled(P, s) && MayClose(P, s)
    ensures Measure(P, AfterClose(P, s)) < Measure(P, s)
  {
    hide MergedWave, Graph.Ascending, Budget, ThreadWork;
    Later(P, s, AfterClose(P, s));
  }

  lemma FlagUses(P: Problem, s: State, a: Action)
    requires Enabled(P, s, a) && (a.Cancel? || a.Interrupt? || a.Finish?)
    ensures Measure(P, Apply(P, s, a)) < Measure(P, s)
  {
    hide Budget, ThreadWork;
    Later(P, s, Apply(P, s, a));
  }

  lemma RunningStands(P: Problem, s: State, i: nat)
    requires Inv(P, s) && i in s.pool.running
    ensures Active(s) && i < |P.steps| && i in P.stage && P.stage[i] == s.wave
  {
    hide Traced, LedgerOk, Graph.Ascending;
    assert i in s.pool.steps;
  }

  lemma InvParts(P: Problem, s: State)
    requires Inv(P, s)
    ensures Shape(P, s) && Filled(P, s) && forall i :: i in s.pool.running ==> ThreadOk(P, i, s.pool.running[i])
  {
  }

  /** Every action, the user's cancellation included, brings the run strictly closer to its end. */
  lemma StepUses(P: Problem, s: State, a: Action)
    requires ValidProblem(P) && Inv(P, s) && Enabled(P, s, a)
    ensures Measure(P, Apply(P, s, a)) < Measure(P, s)
  {
    hide Inv, ValidProblem, Measure, Shape, Filled, ThreadOk;
    InvParts(P, s);
    match a
    case OpenWave =>
      GroupOfWave(P, s);
      RunnableFacts(P, s.ledger, P.groups[s.wave]);
      OpenUses(P, s);
    case Submit => SubmitUses(P, s);
    case Collect(i) =>
      RunningStands(P, s, i);
      DropUses(P, s, i, Apply(P, s, a));
    case Abandon(i) =>
      RunningStands(P, s, i);
      DropUses(P, s, i, Apply(P, s, a));
    case CloseWave => CloseUses(P, s);
    case Cancel => FlagUses(P, s, a);
    case Interrupt => FlagUses(P, s, a);
    case Finish => FlagUses(P, s, a);
    case _ => RunningUses(P, s, a);
  }

  /** So a run has no more actions than its first state had work: every run is finite, whoever interleaves. */
  lemma {:induction false} RunsAreBounded(P: Problem, acts: seq<Action>)
    requires ValidProblem(P) && Exec(P, acts).Some?
    ensures |acts| + Measure(P, Exec(P, acts).value) <= Measure(P, Initial(P))
  {
    hide ValidProblem, Measure, Apply, Enabled, Inv;
    if acts != [] {
      var front := acts[..|acts| - 1];
      RunsAreBounded(P, front);
      RunKeeps(P, front);
      StepUses(P, Exec(P, front).value, acts[|acts| - 1]);
    }
  }

  // ---------------------------------------------------------------- no deadlock

  /** What the main thread or a worker can do next in a state that is not final; nobody has to cancel. */
  lemma NextAction(P: Problem, s: State) returns (a: Action)
    requires ValidProblem(P) && Inv(P, s) && s.phase != Done
    ensures Enabled(P, s, a) && a != Cancel && a != Interrupt
  {
    hide Traced, LedgerOk, Graph.Ascending, UniqueIds, Filled;
    if s.phase == Between {
      if s.cancelled || s.wave == |P.groups| {
        a := Finish;
      } else {
        GroupCanOpen(P, s);
        a := OpenWave;
      }
    } else if i :| i in s.pool.running && !s.pool.running[i].Finished? {
      assert ThreadOk(P, i, s.pool.running[i]);
      a := match s.pool.running[i]
        case Waiting(_) => Begin(i)
        case Cleared(_) => Announce(i)
        case Announced(_) => Call(i)
        case Executing(_) => Return(i)
        case _ => Wake(i);
    } else if s.phase == Draining {
      a := CloseWave;
    } else if i :| i in s.pool.running {
      a := Collect(i);
    } else if s.pool.pending == [] || s.cancelled {
      assert s.pool.running == map[];
      a := CloseWave;
    } else {
      assert s.pool.running == map[];
      a := Submit;
    }
  }

  lemma GroupCanOpen(P: Problem, s: State)
    requires ValidProblem(P) && s.wave < |P.groups|
    ensures GroupInRange(P, s.wave)
  {
    forall i | i in P.groups[s.wave] ensures i < |P.steps| {
      assert i in P.stage;
    }
  }
}
