/** What every run of the scheduler keeps, cancelled and interrupted runs included. */
module ScheduleSafety {
  import opened Results
  import opened PlanModel
  import opened Artifacts
  import opened ScheduleMachine
  import Graph

  // ---------------------------------------------------------------- the life of one step, read off the event trace

  /** Queued, then any number of (started, retrying), then started and a terminal event, or a skip. */
  datatype Life = Fresh | Bypassed | InQueue | Trying(attempt: nat) | Paused(attempt: nat) | Over(attempts: nat) | Broken

  function Advance(life: Life, e: Event): Life {
    match e
    case DependencySkipped(_) => if life == Fresh then Bypassed else Broken
    case Queued(_) => if life == Fresh then InQueue else Broken
    case Started(_, a) =>
      if (life == InQueue && a == 1) || (life.Paused? && a == life.attempt + 1) then Trying(a) else Broken
    case Retrying(_, a) => if life == Trying(a) then Paused(a) else Broken
    case Ended(_, a, outcome) =>
      if life == Trying(a) then Over(a)
      else if life == InQueue && a == 1 && outcome == SKIPPED then Over(0)
      else if life.Paused? && life.attempt <= a <= life.attempt + 1 && outcome == SKIPPED then Over(life.attempt)
      else Broken
  }

  function LifeOf(trace: seq<Event>, i: nat): Life {
    if trace == [] then Fresh
    else
      var before, e := LifeOf(trace[..|trace| - 1], i), trace[|trace| - 1];
      if e.step == i then Advance(before, e) else before
  }

  lemma LifeOfSnoc(trace: seq<Event>, e: Event, i: nat)
    ensures LifeOf(trace + [e], i) == if e.step == i then Advance(LifeOf(trace, i), e) else LifeOf(trace, i)
  {
    assert (trace + [e])[..|trace|] == trace;
  }

  function Attempts(life: Life): nat {
    match life
    case Trying(a) => a
    case Paused(a) => a
    case Over(a) => a
    case _ => 0
  }

  // ---------------------------------------------------------------- counting events

  function CountStarted(trace: seq<Event>, i: nat): nat {
    if trace == [] then 0
    else CountStarted(trace[..|trace| - 1], i) + if trace[|trace| - 1].Started? && trace[|trace| - 1].step == i then 1 else 0
  }

  predicate Terminal(e: Event) {
    e.Ended? || e.DependencySkipped?
  }

  function CountTerminal(trace: seq<Event>, i: nat): nat {
    if trace == [] then 0
    else CountTerminal(trace[..|trace| - 1], i) + if Terminal(trace[|trace| - 1]) && trace[|trace| - 1].step == i then 1 else 0
  }

  /** A trace that the automaton accepts has as many executor calls as the life tells, and one terminal event if over. */
  lemma {:induction false} LifeCounts(trace: seq<Event>, i: nat)
    requires LifeOf(trace, i) != Broken
    ensures CountStarted(trace, i) == Attempts(LifeOf(trace, i))
    ensures CountTerminal(trace, i) == if LifeOf(trace, i).Over? || LifeOf(trace, i).Bypassed? then 1 else 0
  {
    if trace != [] {
      LifeCounts(trace[..|trace| - 1], i);
    }
  }

  // ---------------------------------------------------------------- the ledger

  /** Outcomes and slots say the same, and the counter counts the slots. */
  ghost predicate LedgerOk(P: Problem, l: Ledger) {
    && (forall i :: i in l.slots ==> i < |P.steps| && Recorded(P, l, i))
    && (forall name :: name in l.outcomes ==> SlotNamed(P, l, name))
    && l.completed == |l.slots|
  }

  predicate Recorded(P: Problem, l: Ledger, i: nat) {
    i < |P.steps| && i in l.slots && P.steps[i].Identity() in l.outcomes && l.outcomes[P.steps[i].Identity()] == l.slots[i]
  }

  ghost predicate SlotNamed(P: Problem, l: Ledger, name: string) {
    exists i :: i in l.slots && i < |P.steps| && P.steps[i].Identity() == name
  }

  lemma RecordKeepsLedger(P: Problem, l: Ledger, i: nat, r: StepResult)
    requires UniqueIds(P.steps) && LedgerOk(P, l) && i < |P.steps| && i !in l.slots
    ensures LedgerOk(P, Record(P, l, i, r))
  {
    var l' := Record(P, l, i, r);
    hide UniqueIds, Recorded, SlotNamed;
    forall j | j in l'.slots ensures j < |P.steps| && Recorded(P, l', j) {
      RecordedAfter(P, l, i, r, j);
    }
    forall n | n in l'.outcomes ensures SlotNamed(P, l', n) {
      RecordNames(P, l, i, r, n);
    }
  }

  lemma RecordedAfter(P: Problem, l: Ledger, i: nat, r: StepResult, j: nat)
    requires UniqueIds(P.steps) && i < |P.steps| && i !in l.slots && (j == i || Recorded(P, l, j))
    ensures Recorded(P, Record(P, l, i, r), j)
  {
    if j != i { assert P.steps[j].Identity() != P.steps[i].Identity(); }
  }

  lemma RecordNames(P: Problem, l: Ledger, i: nat, r: StepResult, name: string)
    requires i < |P.steps| && (name == P.steps[i].Identity() || SlotNamed(P, l, name))
    ensures SlotNamed(P, Record(P, l, i, r), name)
  {
    var l' := Record(P, l, i, r);
    if name == P.steps[i].Identity() {
      assert i in l'.slots;
    } else {
      var j :| j in l.slots && j < |P.steps| && P.steps[j].Identity() == name;
      assert j in l'.slots;
    }
  }

  lemma StoreKeepsLedger(P: Problem, l: Ledger, store: seq<Artifact>)
    requires LedgerOk(P, l)
    ensures LedgerOk(P, l.(store := store))
  {
    forall i | i in l.slots ensures Recorded(P, l.(store := store), i) {
      assert Recorded(P, l, i);
    }
    forall name | name in l.outcomes ensures SlotNamed(P, l.(store := store), name) {
      assert SlotNamed(P, l, name);
    }
  }

  lemma AscendingFront(s: seq<nat>)
    requires Graph.Ascending(s) && s != []
    ensures Graph.Ascending(s[..|s| - 1]) && s[|s| - 1] !in s[..|s| - 1]
    ensures forall i :: i in s <==> i in s[..|s| - 1] || i == s[|s| - 1]
  {
    var front, last := s[..|s| - 1], s[|s| - 1];
    assert s == front + [last];
  }

  lemma {:induction false} RunnableFacts(P: Problem, l: Ledger, group: seq<nat>)
    requires InPlan(P, group) && Graph.Ascending(group)
    ensures Graph.Ascending(Runnable(P, l, group)) && forall i :: i in Runnable(P, l, group) ==> i in group
  {
    if group != [] {
      var i, front := group[|group| - 1], group[..|group| - 1];
      InPlanSnoc(P, group);
      AscendingFront(group);
      RunnableFacts(P, l, front);
      if Skip(P, OpenedLedger(P, l, front), i).None? {
        Below(front, Runnable(P, l, front), i);
        Graph.AscendingSnoc(Runnable(P, l, front), i);
      }
    }
  }

  lemma Below(front: seq<nat>, part: seq<nat>, last: nat)
    requires Graph.Ascending(front + [last]) && forall i :: i in part ==> i in front
    ensures forall i :: i in part ==> i < last
  {
    var s := front + [last];
    forall i | i in part ensures i < last {
      var k :| 0 <= k < |front| && front[k] == i;
      assert s[k] < s[|front|];
    }
  }

  /** Opening a group changes nothing but the slots of the steps it skips. */
  lemma {:induction false} OpenedSlots(P: Problem, l: Ledger, group: seq<nat>)
    requires InPlan(P, group) && Graph.Ascending(group)
    requires forall i :: i in group ==> i !in l.slots
    ensures OpenedLedger(P, l, group).store == l.store
    ensures forall i :: i in OpenedLedger(P, l, group).slots <==> i in l.slots || (i in group && i !in Runnable(P, l, group))
    ensures forall i :: i in l.slots ==> OpenedLedger(P, l, group).slots[i] == l.slots[i]
  {
    if group != [] {
      var i, front := group[|group| - 1], group[..|group| - 1];
      InPlanSnoc(P, group);
      AscendingFront(group);
      OpenedSlots(P, l, front);
      RunnableFacts(P, l, front);
      hide Graph.Ascending, InPlan, Skip;
      var l' := OpenedLedger(P, l, front);
      if Skip(P, l', i).Some? {
        assert OpenedLedger(P, l, group).slots == l'.slots[i := Skip(P, l', i).value];
        assert Runnable(P, l, group) == Runnable(P, l, front);
      } else {
        assert OpenedLedger(P, l, group) == l';
        assert Runnable(P, l, group) == Runnable(P, l, front) + [i];
      }
    }
  }

  lemma {:induction false} OpenedLedgerOk(P: Problem, l: Ledger, group: seq<nat>)
    requires UniqueIds(P.steps) && InPlan(P, group) && Graph.Ascending(group) && LedgerOk(P, l)
    requires forall i :: i in group ==> i !in l.slots
    ensures LedgerOk(P, OpenedLedger(P, l, group))
  {
    if group != [] {
      var i, front := group[|group| - 1], group[..|group| - 1];
      InPlanSnoc(P, group);
      AscendingFront(group);
      OpenedLedgerOk(P, l, front);
      OpenedSlots(P, l, front);
      var l' := OpenedLedger(P, l, front);
      assert i !in l'.slots;
      hide UniqueIds, LedgerOk, Graph.Ascending, InPlan, Skip, Record;
      if Skip(P, l', i).Some? {
        RecordKeepsLedger(P, l', i, Skip(P, l', i).value);
      }
    }
  }

  /** Merging a wave fills exactly the slots of its results, with those results. */
  lemma {:induction false} MergedSlots(P: Problem, l: Ledger, order: seq<nat>, results: map<nat, StepResult>)
    requires InPlan(P, order) && Graph.Ascending(order)
    requires forall i :: i in order ==> i in results && i !in l.slots
    ensures forall i :: i in Merged(P, l, order, results).slots <==> i in l.slots || i in order
    ensures forall i :: i in l.slots ==> Merged(P, l, order, results).slots[i] == l.slots[i]
    ensures forall i :: i in order ==> Merged(P, l, order, results).slots[i] == results[i]
  {
    if order != [] {
      var i, front := order[|order| - 1], order[..|order| - 1];
      InPlanSnoc(P, order);
      AscendingFront(order);
      MergedSlots(P, l, front, results);
      hide Graph.Ascending, InPlan, AddedAll;
      assert i in order;
      assert Merged(P, l, order, results).slots == Merged(P, l, front, results).slots[i := results[i]];
    }
  }

  lemma {:induction false} MergedLedgerOk(P: Problem, l: Ledger, order: seq<nat>, results: map<nat, StepResult>)
    requires UniqueIds(P.steps) && InPlan(P, order) && Graph.Ascending(order) && LedgerOk(P, l)
    requires forall i :: i in order ==> i in results && i !in l.slots
    ensures LedgerOk(P, Merged(P, l, order, results))
  {
    if order != [] {
      var i, front := order[|order| - 1], order[..|order| - 1];
      InPlanSnoc(P, order);
      AscendingFront(order);
      MergedLedgerOk(P, l, front, results);
      MergedSlots(P, l, front, results);
      assert i in order;
      var l' := Merged(P, l, front, results);
      assert i !in l'.slots;
      hide UniqueIds, LedgerOk, Graph.Ascending, InPlan, Record;
      RecordKeepsLedger(P, l', i, results[i]);
      StoreKeepsLedger(P, Record(P, l', i, results[i]), AddedAll(l'.store, results[i].artifacts));
    }
  }

  // ---------------------------------------------------------------- the invariant

  /** The pool's bookkeeping: pending, running and collected steps are disjoint parts of the wave. */
  ghost predicate Shape(P: Problem, s: State) {
    && s.wave <= |P.groups|
    && Graph.Ascending(s.pool.steps) && Graph.Ascending(s.pool.pending)
    && (forall i :: i in s.pool.steps ==> i < |P.steps|)
    && (forall i :: i in s.pool.pending ==> i in s.pool.steps && i !in s.pool.running && i !in s.pool.results)
    && (forall i :: i in s.pool.running ==> i in s.pool.steps && i !in s.pool.results)
    && (forall i :: i in s.pool.results ==> i in s.pool.steps)
    && (Active(s) ==> s.wave < |P.groups|)
    && (!Active(s) ==> s.pool.pending == [] && s.pool.running == map[] && s.pool.results == map[])
    && (s.phase == InWave && !s.cancelled ==> forall i :: i in s.pool.steps ==> InPool(s, i))
    && (s.phase == Draining ==> s.interrupted) && (s.interrupted ==> s.cancelled)
  }

  predicate InPool(s: State, i: nat) {
    i in s.pool.pending || i in s.pool.running || i in s.pool.results
  }

  /** What the slots hold: everything before the wave in flight, and of that wave only the skipped steps. */
  ghost predicate Filled(P: Problem, s: State) {
    && (forall i :: i in s.ledger.slots ==> i in P.stage && (P.stage[i] < s.wave || (Active(s) && P.stage[i] == s.wave)))
    && (forall i :: i in P.stage && P.stage[i] < s.wave && (Active(s) || !s.cancelled) ==> i in s.ledger.slots)
    && (forall i :: i in P.stage && P.stage[i] + 1 < s.wave ==> i in s.ledger.slots)
    && (Active(s) ==> forall i :: i in s.pool.steps ==> i in P.stage && P.stage[i] == s.wave && i !in s.ledger.slots)
    && (Active(s) ==> forall i :: i in P.stage && P.stage[i] == s.wave && i !in s.pool.steps ==> i in s.ledger.slots)
    && (!Active(s) && s.interrupted ==> forall i :: i in s.pool.steps ==> i !in s.ledger.slots)
    && (!Active(s) && s.interrupted ==>
          forall i :: i in P.stage && P.stage[i] + 1 == s.wave && i !in s.pool.steps ==> i in s.ledger.slots)
  }

  predicate ThreadOk(P: Problem, i: nat, t: Thread) {
    i < |P.steps| && match t
    case Waiting(a) => 1 <= a <= P.steps[i].retryPolicy.maxAttempts
    case Cleared(a) => 1 <= a <= P.steps[i].retryPolicy.maxAttempts
    case Announced(a) => 1 <= a <= P.steps[i].retryPolicy.maxAttempts
    case Executing(a) => 1 <= a <= P.steps[i].retryPolicy.maxAttempts
    case BackingOff(a) => 1 <= a < P.steps[i].retryPolicy.maxAttempts
    case Finished(_) => true
  }

  predicate ThreadLife(t: Thread, life: Life) {
    match t
    case Waiting(a) => if a == 1 then life == InQueue else life.Paused? && a == life.attempt + 1
    case Cleared(a) => if a == 1 then life == InQueue else life.Paused? && a == life.attempt + 1
    case Announced(a) => life == Trying(a)
    case Executing(a) => life == Trying(a)
    case BackingOff(a) => life == Paused(a)
    case Finished(Value(_)) => life.Over?
    case Finished(Interruption) => life.Trying?
  }

  /** What the trace tells about a step agrees with where the step stands. */
  predicate LifeFits(P: Problem, s: State, i: nat, life: Life) {
    && i in P.stage && i < |P.steps|
    && life != Broken && Attempts(life) <= P.steps[i].retryPolicy.maxAttempts
    && (P.stage[i] > s.wave || (P.stage[i] == s.wave && !Active(s)) ==> life == Fresh)
    && (i in s.pool.pending ==> life == InQueue)
    && (i in s.pool.running ==> ThreadLife(s.pool.running[i], life))
    && (i in s.pool.results ==> life.Over?)
    && (i in s.ledger.slots ==> life.Over? || life == Bypassed)
    && (i in s.ledger.slots && OfInterrupted(P, s, i) ==> life == Bypassed)
  }

  /** Of the wave in flight, or of the one that an interrupt ended: of these, only skipped steps hold slots. */
  predicate OfInterrupted(P: Problem, s: State, i: nat) {
    i in P.stage && if Active(s) then P.stage[i] == s.wave else s.interrupted && P.stage[i] + 1 == s.wave
  }

  ghost predicate Traced(P: Problem, s: State) {
    forall i: nat :: i < |P.steps| ==> LifeFits(P, s, i, LifeOf(s.trace, i))
  }

  ghost predicate Threads(P: Problem, s: State) {
    && |s.pool.running| <= P.maxConcurrency
    && forall i :: i in s.pool.running ==> ThreadOk(P, i, s.pool.running[i])
  }

  ghost predicate Inv(P: Problem, s: State) {
    Shape(P, s) && Filled(P, s) && LedgerOk(P, s.ledger) && Threads(P, s) && Traced(P, s)
  }

  // ---------------------------------------------------------------- opening and closing a wave

  lemma {:induction false} OpeningLife(P: Problem, l: Ledger, group: seq<nat>, trace: seq<Event>, i: nat)
    requires InPlan(P, group) && Graph.Ascending(group)
    ensures i !in group ==> LifeOf(trace + OpeningEvents(P, l, group), i) == LifeOf(trace, i)
    ensures i in group && LifeOf(trace, i) == Fresh ==>
              LifeOf(trace + OpeningEvents(P, l, group), i) == if i in Runnable(P, l, group) then InQueue else Bypassed
  {
    if group == [] {
      assert trace + [] == trace;
    } else {
      var last, front := group[|group| - 1], group[..|group| - 1];
      InPlanSnoc(P, group);
      AscendingFront(group);
      OpeningLife(P, l, front, trace, i);
      RunnableFacts(P, l, front);
      var events := OpeningEvents(P, l, front);
      var e := OpeningEvents(P, l, group)[|OpeningEvents(P, l, group)| - 1];
      assert trace + OpeningEvents(P, l, group) == (trace + events) + [e];
      LifeOfSnoc(trace + events, e, i);
    }
  }

  lemma GroupOfWave(P: Problem, s: State)
    requires ValidProblem(P) && Filled(P, s) && s.phase == Between && s.wave < |P.groups|
    ensures InPlan(P, P.groups[s.wave]) && Graph.Ascending(P.groups[s.wave])
    ensures forall i :: i in P.groups[s.wave] <==> i in P.stage && P.stage[i] == s.wave
    ensures forall i :: i in P.groups[s.wave] ==> i !in s.ledger.slots
  {
    var group := P.groups[s.wave];
    forall i | i in group ensures i < |P.steps| && i !in s.ledger.slots {
      assert i in P.stage && P.stage[i] == s.wave;
    }
  }

  lemma OpenShape(P: Problem, s: State)
    requires ValidProblem(P) && Shape(P, s) && Filled(P, s) && MayOpen(P, s)
    ensures Shape(P, AfterOpen(P, s))
  {
    var group := P.groups[s.wave];
    GroupOfWave(P, s);
    RunnableFacts(P, s.ledger, group);
    hide Graph.Ascending, OpenedLedger, Runnable, OpeningEvents, Staged, Filled;
  }

  lemma OpenFilled(P: Problem, s: State)
    requires ValidProblem(P) && Filled(P, s) && MayOpen(P, s)
    ensures Filled(P, AfterOpen(P, s))
  {
    var group := P.groups[s.wave];
    GroupOfWave(P, s);
    OpenedSlots(P, s.ledger, group);
    RunnableFacts(P, s.ledger, group);
    hide Graph.Ascending, OpenedLedger, Runnable, OpeningEvents, ValidProblem, InPlan;
  }

  lemma OpenTraced(P: Problem, s: State)
    requires ValidProblem(P) && Shape(P, s) && Filled(P, s) && Traced(P, s) && MayOpen(P, s)
    ensures Traced(P, AfterOpen(P, s))
  {
    var group, s' := P.groups[s.wave], AfterOpen(P, s);
    GroupOfWave(P, s);
    OpenedSlots(P, s.ledger, group);
    RunnableFacts(P, s.ledger, group);
    forall i: nat | i < |P.steps| ensures LifeFits(P, s', i, LifeOf(s'.trace, i)) {
      assert LifeFits(P, s, i, LifeOf(s.trace, i));
      OpeningLife(P, s.ledger, group, s.trace, i);
      hide Graph.Ascending, OpenedLedger, Runnable, OpeningEvents, LifeOf, ValidProblem, InPlan, Filled, Traced, Shape;
    }
  }

  lemma OpenKeeps(P: Problem, s: State)
    requires ValidProblem(P) && Inv(P, s) && MayOpen(P, s)
    ensures Inv(P, AfterOpen(P, s))
  {
    GroupOfWave(P, s);
    OpenedLedgerOk(P, s.ledger, P.groups[s.wave]);
    OpenShape(P, s);
    OpenFilled(P, s);
    OpenTraced(P, s);
    hide Shape, Filled, LedgerOk, Traced, OpenedLedger, Runnable, OpeningEvents, Staged, UniqueIds, Graph.Ascending;
  }

  // ---------------------------------------------------------------- worker steps

  /** The life of step i after the given events, which all belong to it. */
  function LifeAfter(s: State, i: nat, e: seq<Event>): Life {
    if e == [] then LifeOf(s.trace, i) else Advance(LifeOf(s.trace, i), e[0])
  }

  lemma ThreadTraced(P: Problem, s: State, i: nat, t: Thread, e: seq<Event>)
    requires Shape(P, s) && Traced(P, s) && Filled(P, s) && Active(s) && i in s.pool.running && i < |P.steps|
    requires |e| <= 1 && (e != [] ==> e[0].step == i)
    requires ThreadLife(t, LifeAfter(s, i, e)) && LifeAfter(s, i, e) != Broken
    requires Attempts(LifeAfter(s, i, e)) <= P.steps[i].retryPolicy.maxAttempts
    ensures Traced(P, SetThread(s, i, t, e))
  {
    hide LifeOf, LifeFits, Shape, Filled;
    var s' := SetThread(s, i, t, e);
    forall j: nat | j < |P.steps| ensures LifeFits(P, s', j, LifeOf(s'.trace, j)) {
      TraceMore(s.trace, e, j);
      ThreadFits(P, s, i, t, e, j, LifeOf(s.trace, j), LifeOf(s'.trace, j));
    }
  }

  lemma TraceMore(trace: seq<Event>, e: seq<Event>, j: nat)
    requires |e| <= 1
    ensures LifeOf(trace + e, j) == if e != [] && e[0].step == j then Advance(LifeOf(trace, j), e[0]) else LifeOf(trace, j)
  {
    if e == [] {
      assert trace + e == trace;
    } else {
      assert e == [e[0]];
      LifeOfSnoc(trace, e[0], j);
    }
  }

  lemma ThreadFits(P: Problem, s: State, i: nat, t: Thread, e: seq<Event>, j: nat, life: Life, life': Life)
    requires Shape(P, s) && Filled(P, s) && Active(s) && i in s.pool.running && j < |P.steps|
    requires LifeFits(P, s, j, life)
    requires if j == i then ThreadLife(t, life') && life' != Broken && Attempts(life') <= P.steps[i].retryPolicy.maxAttempts
             else life' == life
    ensures LifeFits(P, SetThread(s, i, t, e), j, life')
  {
    hide Graph.Ascending;
  }

  lemma SetThreadKeeps(P: Problem, s: State, i: nat, t: Thread, e: seq<Event>)
    requires Inv(P, s) && Active(s) && i in s.pool.running && i < |P.steps| && ThreadOk(P, i, t)
    requires |e| <= 1 && (e != [] ==> e[0].step == i)
    requires ThreadLife(t, LifeAfter(s, i, e)) && LifeAfter(s, i, e) != Broken
    requires Attempts(LifeAfter(s, i, e)) <= P.steps[i].retryPolicy.maxAttempts
    ensures Inv(P, SetThread(s, i, t, e))
  {
    ThreadTraced(P, s, i, t, e);
    FilledKept(P, s, SetThread(s, i, t, e));
    SetThreadShape(P, s, i, t, e);
    SetThreadThreads(P, s, i, t, e);
    hide Shape, Filled, Threads, Traced, LedgerOk, LifeAfter, ThreadLife;
  }

  lemma SetThreadShape(P: Problem, s: State, i: nat, t: Thread, e: seq<Event>)
    requires Shape(P, s) && Active(s) && i in s.pool.running
    ensures Shape(P, SetThread(s, i, t, e))
  {
    assert s.pool.running[i := t].Keys == s.pool.running.Keys;
    hide Graph.Ascending;
  }

  lemma SetThreadThreads(P: Problem, s: State, i: nat, t: Thread, e: seq<Event>)
    requires Threads(P, s) && i in s.pool.running && ThreadOk(P, i, t)
    ensures Threads(P, SetThread(s, i, t, e))
  {
    assert |s.pool.running[i := t]| == |s.pool.running|;
    hide ThreadOk;
  }

  lemma FilledKept(P: Problem, s: State, s': State)
    requires Filled(P, s) && s'.ledger == s.ledger && s'.wave == s.wave && s'.pool.steps == s.pool.steps
    requires Active(s') == Active(s) && (s.cancelled ==> s'.cancelled) && (!Active(s) ==> s'.interrupted == s.interrupted)
    ensures Filled(P, s')
  {
  }

  /** Steps that only move futures around, without an event, leave the trace in agreement. */
  lemma TracedKept(P: Problem, s: State, s': State)
    requires Traced(P, s) && s'.trace == s.trace && s'.ledger == s.ledger && s'.wave == s.wave && Active(s') == Active(s)
    requires !Active(s) ==> s'.interrupted == s.interrupted
    requires forall i :: i in s'.pool.pending ==> i in s.pool.pending
    requires forall i :: i in s'.pool.running ==>
               (i in s.pool.running && s'.pool.running[i] == s.pool.running[i]) ||
               (i in s.pool.pending && s'.pool.running[i] == Waiting(1))
    requires forall i :: i in s'.pool.results ==>
               i in s.pool.results || (i in s.pool.running && s.pool.running[i].Finished? && s.pool.running[i].end.Value?)
    ensures Traced(P, s')
  {
    forall i: nat | i < |P.steps| ensures LifeFits(P, s', i, LifeOf(s'.trace, i)) {
      assert LifeFits(P, s, i, LifeOf(s.trace, i));
      hide LifeOf, Traced;
    }
  }

  lemma WorkerFits(P: Problem, s: State, i: nat)
    requires Inv(P, s) && i in s.pool.running && i < |P.steps|
    ensures ThreadOk(P, i, s.pool.running[i]) && ThreadLife(s.pool.running[i], LifeOf(s.trace, i))
    ensures Attempts(LifeOf(s.trace, i)) <= P.steps[i].retryPolicy.maxAttempts
  {
    assert LifeFits(P, s, i, LifeOf(s.trace, i));
  }

  lemma GivesUpKeeps(P: Problem, s: State, i: nat, a: nat, reason: string)
    requires Inv(P, s) && At(s, i, P) && (s.pool.running[i] == Waiting(a) || s.pool.running[i] == BackingOff(a))
    ensures Inv(P, GivesUp(P, s, i, a, reason))
  {
    hide Inv, LifeOf;
    WorkerFits(P, s, i);
    var r := SkippedResult(P.steps[i], reason);
    SetThreadKeeps(P, s, i, Finished(Value(r)), [Ended(i, a, r.outcome)]);
  }

  lemma BeginKeeps(P: Problem, s: State, i: nat, a: nat)
    requires Inv(P, s) && At(s, i, P) && s.pool.running[i] == Waiting(a)
    ensures Inv(P, AfterBegin(P, s, i, a))
  {
    hide Inv, LifeOf;
    WorkerFits(P, s, i);
    if s.cancelled {
      GivesUpKeeps(P, s, i, a, "execution cancelled");
    } else {
      SetThreadKeeps(P, s, i, Cleared(a), []);
    }
  }

  lemma AnnounceKeeps(P: Problem, s: State, i: nat, a: nat)
    requires Inv(P, s) && At(s, i, P) && s.pool.running[i] == Cleared(a)
    ensures Inv(P, AfterAnnounce(s, i, a))
  {
    hide Inv, LifeOf;
    WorkerFits(P, s, i);
    SetThreadKeeps(P, s, i, Announced(a), [Started(i, a)]);
  }

  lemma CallKeeps(P: Problem, s: State, i: nat, a: nat)
    requires Inv(P, s) && At(s, i, P) && s.pool.running[i] == Announced(a)
    ensures Inv(P, AfterCall(s, i, a))
  {
    hide Inv, LifeOf;
    WorkerFits(P, s, i);
    SetThreadKeeps(P, s, i, Executing(a), []);
  }

  lemma WakeKeeps(P: Problem, s: State, i: nat, a: nat)
    requires Inv(P, s) && At(s, i, P) && s.pool.running[i] == BackingOff(a)
    ensures Inv(P, AfterWake(P, s, i, a))
  {
    hide Inv, LifeOf;
    WorkerFits(P, s, i);
    if s.cancelled {
      GivesUpKeeps(P, s, i, a, "execution cancelled during retry backoff");
    } else {
      SetThreadKeeps(P, s, i, Waiting(a + 1), []);
    }
  }

  /** A worker that comes back from the executor either ends its step or has another attempt left. */
  lemma ReturnKeeps(P: Problem, s: State, i: nat, a: nat, attempt: Attempt)
    requires Inv(P, s) && At(s, i, P) && s.pool.running[i] == Executing(a)
    ensures Inv(P, AfterAttempt(P, s, i, a, attempt))
  {
    hide Inv, LifeOf;
    WorkerFits(P, s, i);
    if attempt.Interrupted? {
      SetThreadKeeps(P, s, i, Finished(Interruption), []);
    } else {
      var step, r := P.steps[i], AttemptResult(P, i, attempt);
      hide AttemptResult;
      if CanRetry(step, a, r) {
        SetThreadKeeps(P, s, i, if step.retryPolicy.backoffSeconds > 0 then BackingOff(a) else Waiting(a + 1), [Retrying(i, a)]);
      } else {
        SetThreadKeeps(P, s, i, Finished(Value(r)), [Ended(i, a, r.outcome)]);
      }
    }
  }

  // ---------------------------------------------------------------- the steps of the main thread

  lemma SubmitShape(P: Problem, s: State)
    requires Shape(P, s) && MaySubmit(P, s)
    ensures Shape(P, AfterSubmit(s))
  {
    AscendingRest(s.pool.pending);
    hide Graph.Ascending;
  }

  lemma AscendingRest(s: seq<nat>)
    requires Graph.Ascending(s) && s != []
    ensures Graph.Ascending(s[1..]) && s[0] in s && s[0] !in s[1..]
    ensures forall j :: j in s <==> j == s[0] || j in s[1..]
  {
    assert s == [s[0]] + s[1..];
  }

  lemma SubmitKeeps(P: Problem, s: State)
    requires Inv(P, s) && MaySubmit(P, s)
    ensures Inv(P, AfterSubmit(s))
  {
    SubmitShape(P, s);
    FilledKept(P, s, AfterSubmit(s));
    SubmitThreads(P, s);
    SubmitTraced(P, s);
    hide Shape, Filled, LedgerOk, Traced, Threads;
  }

  lemma SubmitThreads(P: Problem, s: State)
    requires Shape(P, s) && Threads(P, s) && MaySubmit(P, s)
    ensures Threads(P, AfterSubmit(s))
  {
    var i := s.pool.pending[0];
    assert i in s.pool.pending && i !in s.pool.running && i < |P.steps|;
    hide Shape;
    assert |s.pool.running[i := Waiting(1)]| == |s.pool.running| + 1;
  }

  lemma SubmitTraced(P: Problem, s: State)
    requires Traced(P, s) && MaySubmit(P, s)
    ensures Traced(P, AfterSubmit(s))
  {
    assert s.pool.pending[0] in s.pool.pending;
    assert forall j :: j in s.pool.pending[1..] ==> j in s.pool.pending;
    hide Traced;
    TracedKept(P, s, AfterSubmit(s));
  }

  lemma DropShape(P: Problem, s: State, i: nat, s': State)
    requires Shape(P, s) && Active(s) && i in s.pool.running
    requires || s' == DropThread(s, i).(cancelled := true, interrupted := true)
             || (s.interrupted && s' == DropThread(s, i))
    ensures Shape(P, s')
  {
    hide Graph.Ascending;
  }

  /** A future leaves the pool without a result: it was interrupted, or dropped before it started. */
  lemma DropKeeps(P: Problem, s: State, i: nat, s': State)
    requires Inv(P, s) && Active(s) && i in s.pool.running
    requires || s' == DropThread(s, i).(cancelled := true, interrupted := true)
             || (s.interrupted && s' == DropThread(s, i))
    ensures Inv(P, s')
  {
    DropShape(P, s, i, s');
    FilledKept(P, s, s');
    TracedKept(P, s, s');
    assert |s'.pool.running| <= |s.pool.running|;
    hide Shape, Filled, LedgerOk, Traced;
  }

  lemma CollectShape(P: Problem, s: State, i: nat)
    requires Shape(P, s) && MayCollect(s, i) && s.pool.running[i].end.Value?
    ensures Shape(P, AfterCollect(s, i, s.pool.running[i].end))
  {
    hide Graph.Ascending;
  }

  lemma CollectKeeps(P: Problem, s: State, i: nat)
    requires Inv(P, s) && MayCollect(s, i)
    ensures Inv(P, AfterCollect(s, i, s.pool.running[i].end))
  {
    var s' := AfterCollect(s, i, s.pool.running[i].end);
    if s.pool.running[i].end.Interruption? {
      DropKeeps(P, s, i, s');
    } else {
      CollectShape(P, s, i);
      FilledKept(P, s, s');
      TracedKept(P, s, s');
      assert |s'.pool.running| <= |s.pool.running|;
      hide Shape, Filled, LedgerOk, Traced;
    }
  }

  lemma CancelKeeps(P: Problem, s: State)
    requires Inv(P, s)
    ensures Inv(P, s.(cancelled := true))
  {
    var s' := s.(cancelled := true);
    FilledKept(P, s, s');
    TracedKept(P, s, s');
    assert Shape(P, s');
    hide Shape, Filled, LedgerOk, Traced, Threads;
  }

  lemma InterruptKeeps(P: Problem, s: State)
    requires Inv(P, s) && s.phase == InWave
    ensures Inv(P, s.(phase := Draining, cancelled := true, interrupted := true))
  {
    var s' := s.(phase := Draining, cancelled := true, interrupted := true);
    FilledKept(P, s, s');
    TracedKept(P, s, s');
    assert Shape(P, s');
    hide Shape, Filled, LedgerOk, Traced, Threads;
  }

  lemma FinishKeeps(P: Problem, s: State)
    requires Inv(P, s) && s.phase == Between
    ensures Inv(P, s.(phase := Done))
  {
    var s' := s.(phase := Done);
    FilledKept(P, s, s');
    TracedKept(P, s, s');
    assert Shape(P, s');
    hide Shape, Filled, LedgerOk, Traced, Threads;
  }

  /** Closing a wave that was not interrupted fills exactly the slots of the collected results. */
  lemma CloseSlots(P: Problem, s: State)
    requires ValidProblem(P) && Inv(P, s) && Active(s) && forall i :: i in s.pool.results ==> i < |P.steps|
    ensures LedgerOk(P, MergedWave(P, s.ledger, s.pool.results))
    ensures forall i :: i in MergedWave(P, s.ledger, s.pool.results).slots <==> i in s.ledger.slots || i in s.pool.results
  {
    var order := InOrder(s.pool.results.Keys, |P.steps|);
    InOrderMembers(s.pool.results.Keys, |P.steps|);
    assert forall i :: i in order <==> i in s.pool.results;
    forall i | i in order ensures i !in s.ledger.slots {}
    hide LedgerOk, Graph.Ascending, Merged, InOrder, UniqueIds, Staged, Threads, Traced, Shape, Filled;
    MergedLedgerOk(P, s.ledger, order, s.pool.results);
    MergedSlots(P, s.ledger, order, s.pool.results);
  }

  /** s' is s after its wave was closed, as far as the slots, flags and positions go. */
  ghost predicate Closed(s: State, s': State) {
    && s'.phase == Between && s'.wave == s.wave + 1 && s'.trace == s.trace
    && s'.cancelled == s.cancelled && s'.interrupted == s.interrupted
    && s'.pool == Pool(s.pool.steps, [], map[], map[])
    && (forall i :: i in s'.ledger.slots <==> i in s.ledger.slots || (!s.interrupted && i in s.pool.results))
  }

  lemma CloseFilled(P: Problem, s: State, s': State)
    requires Shape(P, s) && Filled(P, s) && MayClose(P, s) && Closed(s, s')
    ensures Filled(P, s')
  {
    hide Graph.Ascending;
  }

  lemma CloseTraced(P: Problem, s: State, s': State)
    requires Shape(P, s) && Filled(P, s) && Traced(P, s) && MayClose(P, s) && Closed(s, s')
    ensures Traced(P, s')
  {
    forall j: nat | j < |P.steps| ensures LifeFits(P, s', j, LifeOf(s'.trace, j)) {
      assert LifeFits(P, s, j, LifeOf(s.trace, j));
      hide LifeOf, Traced;
    }
  }

  lemma CloseKeeps(P: Problem, s: State)
    requires ValidProblem(P) && Inv(P, s) && MayClose(P, s)
    ensures Inv(P, AfterClose(P, s))
  {
    CloseSlots(P, s);
    ClosedBy(P, s);
    CloseShape(P, s, AfterClose(P, s));
    CloseFilled(P, s, AfterClose(P, s));
    CloseTraced(P, s, AfterClose(P, s));
    hide MergedWave, ValidProblem, Filled, Traced, LedgerOk, Shape, Closed, MayClose;
  }

  lemma ClosedBy(P: Problem, s: State)
    requires MayClose(P, s)
    requires forall i :: i in MergedWave(P, s.ledger, s.pool.results).slots <==> i in s.ledger.slots || i in s.pool.results
    ensures Closed(s, AfterClose(P, s))
  {
    hide MergedWave;
  }

  lemma CloseShape(P: Problem, s: State, s': State)
    requires Shape(P, s) && MayClose(P, s) && Closed(s, s')
    ensures Shape(P, s')
  {
  }

  // ---------------------------------------------------------------- every run

  lemma StepKeeps(P: Problem, s: State, a: Action)
    requires ValidProblem(P) && Inv(P, s) && Enabled(P, s, a)
    ensures Inv(P, Apply(P, s, a))
  {
    hide Inv, ValidProblem;
    match a
    case OpenWave => OpenKeeps(P, s);
    case Submit => SubmitKeeps(P, s);
    case Begin(i) => BeginKeeps(P, s, i, s.pool.running[i].attempt);
    case Announce(i) => AnnounceKeeps(P, s, i, s.pool.running[i].attempt);
    case Call(i) => CallKeeps(P, s, i, s.pool.running[i].attempt);
    case Return(i) =>
      var a := s.pool.running[i].attempt;
      ReturnKeeps(P, s, i, a, P.execute(i, a, s.ledger.store));
    case Wake(i) => WakeKeeps(P, s, i, s.pool.running[i].attempt);
    case Collect(i) => CollectKeeps(P, s, i);
    case Abandon(i) => AbandonKeeps(P, s, i);
    case CloseWave => CloseKeeps(P, s);
    case Cancel => CancelKeeps(P, s);
    case Interrupt => InterruptKeeps(P, s);
    case Finish => FinishKeeps(P, s);
  }

  lemma AbandonKeeps(P: Problem, s: State, i: nat)
    requires Inv(P, s) && MayAbandon(s, i)
    ensures Inv(P, DropThread(s, i))
  {
    DropKeeps(P, s, i, DropThread(s, i));
    hide Inv;
  }

  lemma {:induction false} RunKeeps(P: Problem, acts: seq<Action>)
    requires ValidProblem(P) && Exec(P, acts).Some?
    ensures Inv(P, Exec(P, acts).value)
  {
    if acts != [] {
      RunKeeps(P, acts[..|acts| - 1]);
      StepKeeps(P, Exec(P, acts[..|acts| - 1]).value, acts[|acts| - 1]);
    }
  }
}
