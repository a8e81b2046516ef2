/** The interpreter of compiled workflows: blackline/clt/runtime.py. */
module CltRuntime {
  import opened Results
  import opened CltIR
  import Text

  // ---------------------------------------------------------------- data

  datatype Invocation = Invocation(intent: ActionIntent, inputs: seq<string>, options: map<string, string>, variables: map<string, string>)

  datatype Event = Event(intent: ActionIntent, output: map<string, string>)

  /** A handler may return something, or raise. */
  datatype Answer = Output(values: map<string, string>) | Raises(message: string)

  /** A capability's handler, as an unknown function of the events so far and the invocation; None when it has none. */
  type Handler = Option<(seq<Event>, Invocation) -> Answer>

  datatype Key = Key(verb: string, subject: string)

  /** Facts by (entity, value) pair or by the dotted name entity.value. */
  datatype Facts = Facts(pairs: map<(string, string), string>, dotted: map<string, string>)

  datatype Failure = NoCapability(intent: ActionIntent) | HandlerRaised(message: string)

  datatype State = State(variables: map<string, string>, events: seq<Event>)

  /** A run so far: its state, and the failure that ended it, if one did. */
  datatype Run = Run(state: State, failure: Option<Failure>)

  type Handlers = map<Key, Handler>

  // ---------------------------------------------------------------- meaning

  /** Python's dict(options): a later pair replaces an earlier one of the same name. */
  function Dict(options: seq<(string, string)>): map<string, string> {
    if options == [] then map[] else Dict(options[..|options| - 1])[options[|options| - 1].0 := options[|options| - 1].1]
  }

  predicate DistinctKeys(options: seq<(string, string)>) {
    forall i, j :: 0 <= i < j < |options| ==> options[i].0 != options[j].0
  }

  predicate LastOf(options: seq<(string, string)>, i: nat) {
    i < |options| && forall j :: i < j < |options| ==> options[j].0 != options[i].0
  }

  lemma LastOfFront(options: seq<(string, string)>, i: nat)
    requires options != [] && i < |options| - 1
    ensures LastOf(options, i) <==> LastOf(options[..|options| - 1], i) && options[i].0 != options[|options| - 1].0
    ensures options[..|options| - 1][i] == options[i]
  {
    var front := options[..|options| - 1];
    assert forall j :: 0 <= j < |front| ==> front[j] == options[j];
  }

  /** The dictionary has the last pair of every name ... */
  lemma {:induction false} DictHasLast(options: seq<(string, string)>, i: nat)
    requires LastOf(options, i)
    ensures options[i].0 in Dict(options) && Dict(options)[options[i].0] == options[i].1
  {
    if i < |options| - 1 {
      LastOfFront(options, i);
      hide LastOf;
      DictHasLast(options[..|options| - 1], i);
    }
  }

  /** ... and nothing else. */
  lemma {:induction false} DictNamesLast(options: seq<(string, string)>, k: string) returns (i: nat)
    requires k in Dict(options)
    ensures LastOf(options, i) && options[i].0 == k
  {
    i := |options| - 1;
    if k != options[i].0 {
      i := DictNamesLast(options[..|options| - 1], k);
      LastOfFront(options, i);
    }
  }

  /** Of distinct names it has every pair. */
  lemma {:induction false} DictKeeps(options: seq<(string, string)>)
    requires DistinctKeys(options)
    ensures |Dict(options)| == |options|
    ensures forall i :: 0 <= i < |options| ==> options[i].0 in Dict(options) && Dict(options)[options[i].0] == options[i].1
    ensures forall k :: k in Dict(options) ==> exists i :: 0 <= i < |options| && options[i].0 == k
  {
    if options != [] { DictKeeps(options[..|options| - 1]); }
  }

  function Interpolate(value: string, variables: map<string, string>): string {
    if value in variables then variables[value] else value
  }

  function InterpolateAll(values: seq<string>, variables: map<string, string>): seq<string> {
    seq(|values|, i requires 0 <= i < |values| => Interpolate(values[i], variables))
  }

  predicate Matches(c: Condition, facts: Facts) {
    var name := c.entity + "." + c.value;
    if (c.entity, c.value) in facts.pairs then Text.Lower(facts.pairs[(c.entity, c.value)]) == c.state
    else if name in facts.dotted then Text.Lower(facts.dotted[name]) == c.state
    else false
  }

  /** An exact capability for the intent, or else one for its verb alone. */
  function Resolve(handlers: Handlers, intent: ActionIntent): Option<Handler> {
    var exact, generic := Key(Text.Lower(intent.verb), Text.Lower(intent.subject)), Key(Text.Lower(intent.verb), "");
    if exact in handlers then Some(handlers[exact]) else if generic in handlers then Some(handlers[generic]) else None
  }

  /** What one handler makes of an intent: without a function of its own it has nothing to say. */
  function Answered(handler: Handler, intent: ActionIntent, inputs: seq<string>, options: map<string, string>, s: State): Run {
    var invocation := Invocation(intent, InterpolateAll(inputs, s.variables),
                                 map k | k in options :: Interpolate(options[k], s.variables), s.variables);
    var answer := if handler.None? then Output(map[]) else handler.value(s.events, invocation);
    match answer
    case Raises(message) => Run(s, Some(HandlerRaised(message)))
    case Output(values) => Run(s.(events := s.events + [Event(intent, values)]), None)
  }

  function Invoke(handlers: Handlers, intent: ActionIntent, inputs: seq<string>, options: map<string, string>, s: State): Run {
    var handler := Resolve(handlers, intent);
    if handler.None? then Run(s, Some(NoCapability(intent))) else Answered(handler.value, intent, inputs, options, s)
  }

  function Size(s: Statement): (n: nat)
    ensures n >= 1
  {
    match s
    case Operation(_, _, _, body) => 1 + BlockSize(body)
    case Rule(_, body, elseBody) => 1 + BlockSize(body) + BlockSize(elseBody)
    case _ => 1
  }

  function BlockSize(block: seq<Statement>): (n: nat)
    ensures n >= 1
  {
    if block == [] then 1 else Size(block[0]) + BlockSize(block[1..])
  }

  function RunOne(handlers: Handlers, facts: Facts, s: Statement, state: State): Run
    decreases Size(s)
  {
    match s
    case Assignment(name, value) =>
      Run(state.(variables := state.variables[name := Interpolate(value, state.variables)]), None)
    case Operation(intent, inputs, options, body) =>
      var called := Invoke(handlers, intent, inputs, Dict(options), state);
      if called.failure.Some? then called else RunBlock(handlers, facts, body, called.state)
    case Flow(intent) => Invoke(handlers, intent, [], map[], state)
    case Rule(condition, body, elseBody) =>
      if Matches(condition, facts) then RunBlock(handlers, facts, body, state) else RunBlock(handlers, facts, elseBody, state)
  }

  /** Statements one after another, up to the first failure. */
  function RunBlock(handlers: Handlers, facts: Facts, block: seq<Statement>, state: State): Run
    decreases BlockSize(block)
  {
    if block == [] then Run(state, None)
    else
      var first := RunOne(handlers, facts, block[0], state);
      if first.failure.Some? then first else RunBlock(handlers, facts, block[1..], first.state)
  }

  // ---------------------------------------------------------------- who answers, and what it is handed

  predicate SameWords(verb: string, subject: string, intent: ActionIntent) {
    Text.Lower(intent.verb) == Text.Lower(Text.Strip(verb)) && Text.Lower(intent.subject) == Text.Lower(Text.Strip(subject))
  }

  /** What a registration is about: the intents with its words, and with its verb alone every intent without an entry of its own. */
  predicate Concerned(handlers: Handlers, verb: string, subject: string, intent: ActionIntent) {
    || SameWords(verb, subject, intent)
    || (Text.Strip(subject) == "" && Text.Lower(intent.verb) == Text.Lower(Text.Strip(verb)) && !OwnEntry(handlers, intent))
  }

  /** Whatever it is handed in whatever state, the intent gets this handler's answer. */
  ghost predicate AnsweredBy(handlers: Handlers, intent: ActionIntent, handler: Handler) {
    forall inputs, options, s ::
      Invoke(handlers, intent, inputs, options, s) == Answered(handler, intent, inputs, options, s)
  }

  ghost predicate Unanswered(handlers: Handlers, intent: ActionIntent) {
    forall inputs, options, s :: Invoke(handlers, intent, inputs, options, s) == Run(s, Some(NoCapability(intent)))
  }

  /** Two tables treat an intent alike. */
  ghost predicate AnsweredAlike(handlers: Handlers, others: Handlers, intent: ActionIntent) {
    forall inputs, options, s :: Invoke(handlers, intent, inputs, options, s) == Invoke(others, intent, inputs, options, s)
  }

  predicate OwnEntry(handlers: Handlers, intent: ActionIntent) {
    Key(Text.Lower(intent.verb), Text.Lower(intent.subject)) in handlers
  }

  predicate VerbEntry(handlers: Handlers, intent: ActionIntent) {
    Key(Text.Lower(intent.verb), "") in handlers
  }

  /** The entry of an intent answers it; without one the entry of its verb alone does; without either the run fails. */
  lemma WhoAnswers(handlers: Handlers, intent: ActionIntent)
    ensures var exact, general := Key(Text.Lower(intent.verb), Text.Lower(intent.subject)), Key(Text.Lower(intent.verb), "");
            && (exact in handlers ==> AnsweredBy(handlers, intent, handlers[exact]))
            && (exact !in handlers && general in handlers ==> AnsweredBy(handlers, intent, handlers[general]))
            && (exact !in handlers && general !in handlers ==> Unanswered(handlers, intent))
  {
  }

  /** A registration answers the intents it is about, whatever else is registered; all other answers stay. */
  lemma RegistrationAnswers(handlers: Handlers, verb: string, subject: string, handler: Handler)
    requires Key(Text.Lower(Text.Strip(verb)), Text.Lower(Text.Strip(subject))) !in handlers
    ensures var later := handlers[Key(Text.Lower(Text.Strip(verb)), Text.Lower(Text.Strip(subject))) := handler];
            && (forall intent :: Concerned(handlers, verb, subject, intent) ==> AnsweredBy(later, intent, handler))
            && (forall intent :: !Concerned(handlers, verb, subject, intent) ==> AnsweredAlike(later, handlers, intent))
  {
    LowerLength(Text.Strip(subject));
    hide Text.Lower, Text.Strip, Answered;
  }

  lemma LowerLength(s: string)
    ensures Text.Lower(s) == "" <==> s == ""
    ensures Text.Lower("") == "" && Text.Strip("") == ""
  {
  }

  /** A value that names a variable is handed over as the variable's value, any other value as it is. */
  predicate Replaced(value: string, handed: string, variables: map<string, string>) {
    (value in variables ==> handed == variables[value]) && (value !in variables ==> handed == value)
  }

  /** What a handler is handed: the intent, the inputs in order and the options by name, each replaced, and all variables. */
  predicate Handed(call: Invocation, intent: ActionIntent, inputs: seq<string>, options: map<string, string>,
                   variables: map<string, string>)
  {
    && call.intent == intent && call.variables == variables
    && |call.inputs| == |inputs| && (forall i: nat :: i < |inputs| ==> Replaced(inputs[i], call.inputs[i], variables))
    && call.options.Keys == options.Keys
    && (forall k :: k in options ==> Replaced(options[k], call.options[k], variables))
  }

  /** One event more, or a failure that leaves the state as it was. */
  function Concluded(answer: Answer, intent: ActionIntent, s: State): Run {
    match answer
    case Raises(message) => Run(s, Some(HandlerRaised(message)))
    case Output(values) => Run(State(s.variables, s.events + [Event(intent, values)]), None)
  }

  lemma HandlerIsHanded(handler: Handler, intent: ActionIntent, inputs: seq<string>, options: map<string, string>, s: State)
    returns (call: Invocation)
    ensures Handed(call, intent, inputs, options, s.variables)
    ensures Answered(handler, intent, inputs, options, s)
         == Concluded(if handler.None? then Output(map[]) else handler.value(s.events, call), intent, s)
  {
    call := Invocation(intent, InterpolateAll(inputs, s.variables),
                       map k | k in options :: Interpolate(options[k], s.variables), s.variables);
  }

  /** What a rule sees of the facts: the pair decides if it is there, else the dotted name, else the rule does not match. */
  lemma MatchesFollowsFacts(c: Condition, facts: Facts, said: string)
    ensures Matches(c, Facts(facts.pairs[(c.entity, c.value) := said], facts.dotted)) <==> Text.Lower(said) == c.state
    ensures (c.entity, c.value) !in facts.pairs ==>
              (Matches(c, Facts(facts.pairs, facts.dotted[c.entity + "." + c.value := said])) <==> Text.Lower(said) == c.state)
    ensures (c.entity, c.value) !in facts.pairs && c.entity + "." + c.value !in facts.dotted ==> !Matches(c, facts)
  {
  }

  /** An assignment gives its variable the value, or what the variable named by the value holds, and changes nothing else. */
  lemma AssignmentIsSeen(handlers: Handlers, facts: Facts, name: string, value: string, state: State)
    ensures var after := RunOne(handlers, facts, Assignment(name, value), state);
            && after.failure.None? && after.state.events == state.events
            && after.state.variables.Keys == state.variables.Keys + {name}
            && Replaced(value, after.state.variables[name], state.variables)
            && forall other :: other in state.variables && other != name ==> after.state.variables[other] == state.variables[other]
  {
  }

  // ---------------------------------------------------------------- deeds

  /** One thing a workflow asks for: a variable set, or an intent with its inputs and options. */
  datatype Deed = Assign(name: string, value: string) | Do(intent: ActionIntent, inputs: seq<string>, options: seq<(string, string)>)

  function Deeds(block: seq<Statement>): seq<Deed> {
    if block == [] then [] else DeedOf(block[0]) + Deeds(block[1..])
  }

  function DeedOf(s: Statement): seq<Deed> {
    match s
    case Assignment(name, value) => [Assign(name, value)]
    case Operation(intent, inputs, options, _) => [Do(intent, inputs, options)]
    case Flow(intent) => [Do(intent, [], [])]
    case Rule(_, _, _) => []
  }

  lemma {:induction false} DeedsJoin(front: seq<Statement>, back: seq<Statement>)
    ensures Deeds(front + back) == Deeds(front) + Deeds(back)
  {
    if front == [] {
      assert front + back == back;
    } else {
      assert (front + back)[1..] == front[1..] + back;
      DeedsJoin(front[1..], back);
    }
  }

  /** Deeds one after the other, up to the first failure. */
  function Perform(handlers: Handlers, deeds: seq<Deed>, state: State): Run {
    if deeds == [] then Run(state, None)
    else
      match deeds[0]
      case Assign(name, value) =>
        Perform(handlers, deeds[1..], State(state.variables[name := Interpolate(value, state.variables)], state.events))
      case Do(intent, inputs, options) =>
        var called := Invoke(handlers, intent, inputs, Dict(options), state);
        if called.failure.Some? then called else Perform(handlers, deeds[1..], called.state)
  }

  lemma {:induction false} LinearRunsAreDeeds(handlers: Handlers, facts: Facts, block: seq<Statement>, state: State)
    requires Linear(block)
    ensures RunBlock(handlers, facts, block, state) == Perform(handlers, Deeds(block), state)
  {
    hide Invoke, Interpolate;
    if block != [] {
      var s, rest := block[0], block[1..];
      var first := RunOne(handlers, facts, s, state);
      NothingToRun(handlers, facts);
      assert Dict([]) == map[];
      assert |DeedOf(s)| == 1 && Deeds(block)[0] == DeedOf(s)[0] && Deeds(block)[1..] == Deeds(rest);
      if first.failure.None? { LinearRunsAreDeeds(handlers, facts, rest, first.state); }
    }
  }

  /** Running a workflow is doing its deeds. */
  lemma RunsAreDeeds(handlers: Handlers, facts: Facts, block: seq<Statement>, state: State)
    ensures RunBlock(handlers, facts, block, state) == Perform(handlers, Deeds(FlattenBlock(facts, block)), state)
  {
    hide *;
    FlattenKeepsMeaning(handlers, facts, block, state);
    LinearRunsAreDeeds(handlers, facts, FlattenBlock(facts, block), state);
  }

  // ---------------------------------------------------------------- flattening

  /** The statement list without nesting: the chosen branch of every rule, the bodies of operations after them. */
  function Flatten(facts: Facts, s: Statement): seq<Statement>
    decreases Size(s)
  {
    match s
    case Operation(intent, inputs, options, body) => [Operation(intent, inputs, options, [])] + FlattenBlock(facts, body)
    case Rule(condition, body, elseBody) =>
      if Matches(condition, facts) then FlattenBlock(facts, body) else FlattenBlock(facts, elseBody)
    case _ => [s]
  }

  function FlattenBlock(facts: Facts, block: seq<Statement>): seq<Statement>
    decreases BlockSize(block)
  {
    if block == [] then [] else Flatten(facts, block[0]) + FlattenBlock(facts, block[1..])
  }

  predicate Linear(block: seq<Statement>) {
    forall k :: 0 <= k < |block| ==> !block[k].Rule? && (block[k].Operation? ==> block[k].body == [])
  }

  lemma {:induction false} RunJoin(handlers: Handlers, facts: Facts, front: seq<Statement>, back: seq<Statement>, state: State)
    ensures RunBlock(handlers, facts, front + back, state) ==
            var first := RunBlock(handlers, facts, front, state);
            if first.failure.Some? then first else RunBlock(handlers, facts, back, first.state)
    decreases |front|
  {
    hide RunOne;
    if front == [] {
      assert front + back == back;
    } else {
      assert (front + back)[1..] == front[1..] + back;
      var first := RunOne(handlers, facts, front[0], state);
      if first.failure.None? { RunJoin(handlers, facts, front[1..], back, first.state); }
    }
  }

  lemma RunSingle(handlers: Handlers, facts: Facts, s: Statement, state: State)
    ensures RunBlock(handlers, facts, [s], state) == RunOne(handlers, facts, s, state)
  {
    hide RunOne;
    assert [s][1..] == [];
  }

  lemma {:induction false} FlattenOne(handlers: Handlers, facts: Facts, s: Statement, state: State)
    ensures Linear(Flatten(facts, s))
    ensures RunBlock(handlers, facts, Flatten(facts, s), state) == RunOne(handlers, facts, s, state)
    decreases Size(s)
  {
    hide Invoke, Matches, RunBlock;
    match s
    case Operation(intent, inputs, options, body) =>
      var alone := Operation(intent, inputs, options, []);
      RunJoin(handlers, facts, [alone], FlattenBlock(facts, body), state);
      RunSingle(handlers, facts, alone, state);
      NothingToRun(handlers, facts);
      var called := Invoke(handlers, intent, inputs, Dict(options), state);
      FlattenKeepsMeaning(handlers, facts, body, called.state);
    case Rule(condition, body, elseBody) =>
      FlattenKeepsMeaning(handlers, facts, body, state);
      FlattenKeepsMeaning(handlers, facts, elseBody, state);
    case _ =>
      RunSingle(handlers, facts, s, state);
  }

  lemma NothingToRun(handlers: Handlers, facts: Facts)
    ensures forall state :: RunBlock(handlers, facts, [], state) == Run(state, None)
  {
  }

  /** The linear list has the same effect as the nested workflow: variables, events and failure. */
  lemma {:induction false} FlattenKeepsMeaning(handlers: Handlers, facts: Facts, block: seq<Statement>, state: State)
    ensures Linear(FlattenBlock(facts, block))
    ensures RunBlock(handlers, facts, FlattenBlock(facts, block), state) == RunBlock(handlers, facts, block, state)
    decreases BlockSize(block)
  {
    hide RunOne, Flatten;
    if block != [] {
      FlattenOne(handlers, facts, block[0], state);
      RunJoin(handlers, facts, Flatten(facts, block[0]), FlattenBlock(facts, block[1..]), state);
      FlattenKeepsMeaning(handlers, facts, block[1..], RunOne(handlers, facts, block[0], state).state);
    }
  }

  // ---------------------------------------------------------------- which intents are invoked

  /** The intent a statement of a linear list invokes, if it invokes one. */
  function Invoked(s: Statement): seq<ActionIntent> {
    match s
    case Operation(intent, _, _, _) => [intent]
    case Flow(intent) => [intent]
    case _ => []
  }

  function Intents(block: seq<Statement>): seq<ActionIntent> {
    if block == [] then [] else Invoked(block[0]) + Intents(block[1..])
  }

  function EventIntents(events: seq<Event>): (r: seq<ActionIntent>)
    ensures |r| == |events|
  {
    seq(|events|, i requires 0 <= i < |events| => events[i].intent)
  }

  lemma EventIntentsSnoc(events: seq<Event>, e: Event)
    ensures EventIntents(events + [e]) == EventIntents(events) + [e.intent]
  {
  }

  lemma {:induction false} LinearIntents(handlers: Handlers, facts: Facts, block: seq<Statement>, state: State)
    requires Linear(block)
    ensures var r := RunBlock(handlers, facts, block, state);
            && EventIntents(r.state.events) <= EventIntents(state.events) + Intents(block)
            && (r.failure.None? ==> EventIntents(r.state.events) == EventIntents(state.events) + Intents(block))
  {
    hide RunOne, Invoked, EventIntents;
    if block != [] {
      var s, rest := block[0], block[1..];
      var first := RunOne(handlers, facts, s, state);
      OneIntent(handlers, facts, s, state);
      if first.failure.None? {
        LinearIntents(handlers, facts, rest, first.state);
        assert (EventIntents(state.events) + Invoked(s)) + Intents(rest) == EventIntents(state.events) + Intents(block);
      }
    }
  }

  lemma OneIntent(handlers: Handlers, facts: Facts, s: Statement, state: State)
    requires !s.Rule? && (s.Operation? ==> s.body == [])
    ensures var r := RunOne(handlers, facts, s, state);
            EventIntents(r.state.events) == EventIntents(state.events) + if r.failure.None? then Invoked(s) else []
  {
    NothingToRun(handlers, facts);
    forall e ensures EventIntents(state.events + [e]) == EventIntents(state.events) + [e.intent] {
      EventIntentsSnoc(state.events, e);
    }
    hide RunBlock, EventIntents;
  }

  /**
   * The facts alone decide which intents a workflow invokes: a run that does not fail invokes exactly the intents of
   * the flattened list, and a failing one a beginning of them, whatever the variables and whatever handlers return.
   */
  lemma IntentsFollowFacts(handlers: Handlers, facts: Facts, block: seq<Statement>, variables: map<string, string>)
    ensures Linear(FlattenBlock(facts, block))
    ensures var r, planned := RunBlock(handlers, facts, block, State(variables, [])), Intents(FlattenBlock(facts, block));
            && EventIntents(r.state.events) <= planned
            && (r.failure.None? ==> EventIntents(r.state.events) == planned)
  {
    hide RunBlock, FlattenBlock, Linear, Intents;
    var state := State(variables, []);
    FlattenKeepsMeaning(handlers, facts, block, state);
    LinearIntents(handlers, facts, FlattenBlock(facts, block), state);
    assert EventIntents([]) == [];
    assert [] + Intents(FlattenBlock(facts, block)) == Intents(FlattenBlock(facts, block));
  }

  // ---------------------------------------------------------------- the interpreter as it is written

  class CapabilityRegistry {
    var handlers: Handlers

    constructor ()
      ensures handlers == map[]
    {
      handlers := map[];
    }

    /** Refused without a verb and for an intent that is taken; no registration replaces another. */
    method Register(verb: string, subject: string, handler: Handler) returns (ok: bool)
      modifies this
      ensures var key := Key(Text.Lower(Text.Strip(verb)), Text.Lower(Text.Strip(subject)));
              && ok == (key.verb != "" && key !in old(handlers))
              && handlers == if ok then old(handlers)[key := handler] else old(handlers)
      ensures ok ==>
                && (forall intent :: Concerned(old(handlers), verb, subject, intent) ==> AnsweredBy(handlers, intent, handler))
                && (forall intent :: !Concerned(old(handlers), verb, subject, intent) ==> AnsweredAlike(handlers, old(handlers), intent))
    {
      hide Text.Lower, Text.Strip, Concerned, AnsweredBy, AnsweredAlike;
      var key := Key(Text.Lower(Text.Strip(verb)), Text.Lower(Text.Strip(subject)));
      if key.verb == "" || key in handlers { return false; }
      RegistrationAnswers(handlers, verb, subject, handler);
      handlers := handlers[key := handler];
      ok := true;
    }
  }

  class RuntimeState {
    const facts: Facts
    var variables: map<string, string>
    var events: seq<Event>

    constructor (facts: Facts, variables: map<string, string>)
      ensures this.facts == facts && View() == State(variables, [])
    {
      this.facts, this.variables, events := facts, variables, [];
    }

    function View(): State
      reads this
    {
      State(variables, events)
    }
  }

  class CLTRuntime {
    const registry: CapabilityRegistry

    constructor (registry: CapabilityRegistry)
      ensures this.registry == registry
    {
      this.registry := registry;
    }

    /** Run a compiled workflow; what it does is what its flattened list does. */
    method RunWorkflow(block: seq<Statement>, facts: Facts, variables: map<string, string>) returns (r: Run)
      ensures r == RunBlock(registry.handlers, facts, block, State(variables, []))
      ensures r == RunBlock(registry.handlers, facts, FlattenBlock(facts, block), State(variables, []))
      ensures r == Perform(registry.handlers, Deeds(FlattenBlock(facts, block)), State(variables, []))
    {
      var state := new RuntimeState(facts, variables);
      var failure := RunStatements(block, state);
      FlattenKeepsMeaning(registry.handlers, facts, block, State(variables, []));
      RunsAreDeeds(registry.handlers, facts, block, State(variables, []));
      r := Run(state.View(), failure);
    }

    method RunStatements(block: seq<Statement>, state: RuntimeState) returns (failure: Option<Failure>)
      modifies state
      ensures Run(state.View(), failure) == RunBlock(registry.handlers, state.facts, block, old(state.View()))
      decreases BlockSize(block), 0
    {
      hide RunOne;
      ghost var start := state.View();
      assert block[0..] == block;
      for k := 0 to |block|
        invariant RunBlock(registry.handlers, state.facts, block, start)
               == RunBlock(registry.handlers, state.facts, block[k..], state.View())
      {
        assert block[k..][1..] == block[k + 1..];
        Smaller(block, k);
        failure := RunStatement(block[k], state);
        if failure.Some? { return; }
      }
      failure := None;
    }

    method RunStatement(s: Statement, state: RuntimeState) returns (failure: Option<Failure>)
      modifies state
      ensures Run(state.View(), failure) == RunOne(registry.handlers, state.facts, s, old(state.View()))
      decreases Size(s), 1
    {
      failure := None;
      match s
      case Assignment(name, value) =>
        state.variables := state.variables[name := Interpolate(value, state.variables)];
      case Operation(intent, inputs, options, body) =>
        failure := InvokeCapability(intent, inputs, Dict(options), state);
        if failure.None? { failure := RunStatements(body, state); }
      case Flow(intent) =>
        failure := InvokeCapability(intent, [], map[], state);
      case Rule(condition, body, elseBody) =>
        if Matches(condition, state.facts) { failure := RunStatements(body, state); }
        else { failure := RunStatements(elseBody, state); }
    }

    method InvokeCapability(intent: ActionIntent, inputs: seq<string>, options: map<string, string>, state: RuntimeState)
      returns (failure: Option<Failure>)
      modifies state
      ensures Run(state.View(), failure) == Invoke(registry.handlers, intent, inputs, options, old(state.View()))
      ensures state.variables == old(state.variables)
      ensures !OwnEntry(registry.handlers, intent) && !VerbEntry(registry.handlers, intent) ==>
                failure == Some(NoCapability(intent)) && state.events == old(state.events)
      ensures OwnEntry(registry.handlers, intent) ==>
                Run(state.View(), failure) == Answered(registry.handlers[Key(Text.Lower(intent.verb), Text.Lower(intent.subject))],
                                                       intent, inputs, options, old(state.View()))
      ensures !OwnEntry(registry.handlers, intent) && VerbEntry(registry.handlers, intent) ==>
                Run(state.View(), failure) == Answered(registry.handlers[Key(Text.Lower(intent.verb), "")],
                                                       intent, inputs, options, old(state.View()))
    {
      var handler := Resolve(registry.handlers, intent);
      if handler.None? { return Some(NoCapability(intent)); }
      var inputs' := InterpolateAll(inputs, state.variables);
      var options' := map k | k in options :: Interpolate(options[k], state.variables);
      var answer := Output(map[]);
      if handler.value.Some? {
        answer := handler.value.value(state.events, Invocation(intent, inputs', options', state.variables));
      }
      if answer.Raises? { return Some(HandlerRaised(answer.message)); }
      state.events := state.events + [Event(intent, answer.values)];
      failure := None;
    }
  }

  lemma {:induction false} Smaller(block: seq<Statement>, k: nat)
    requires k < |block|
    ensures Size(block[k]) < BlockSize(block)
  {
    if k > 0 { Smaller(block[1..], k - 1); }
  }
}
