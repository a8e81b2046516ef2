/** Validation, IR generation and the whole front end: blackline/clt/validator.py and compiler.py. */
module CltCompile {
  import opened Results
  import opened CltSyntax
  import opened CltNormalize
  import opened CltParser
  import opened CltRender
  import opened CltLexer
  import opened CltScanner
  import opened CltPrint
  import opened CltComments
  import opened CltRoundTrip
  import Ordering
  import CltCursor
  import CltIR
  import CltRuntime
  import Text

  // ---------------------------------------------------------------- validation

  datatype ValidationError = UnknownOperation(name: string) | DuplicateOption | BadPhrase(error: PhraseError)

  /** No two named arguments have names that are equal ignoring case. */
  predicate DistinctNames(args: seq<ArgumentNode>) {
    forall i, j :: 0 <= i < j < |args| && args[i].name != "" && args[j].name != "" ==>
      Text.Lower(args[i].name) != Text.Lower(args[j].name)
  }

  function ErrorOf<T>(r: Result<T, PhraseError>): Option<ValidationError> {
    if r.Ok? then None else Some(BadPhrase(r.error))
  }

  /** The first thing wrong with a statement, if anything is. */
  function Validate(v: Vocabulary, n: Node): Option<ValidationError>
    decreases Size(n)
  {
    match n
    case Assignment(_, _) => None
    case Operation(name, args, body) =>
      if !Has(v, name, ACTION) then Some(UnknownOperation(name))
      else if !DistinctNames(args) then Some(DuplicateOption)
      else ValidateBlock(v, body)
    case Flow(phrase) => ErrorOf(NormalizeAction(v, phrase))
    case Conditional(phrase, body, elseBody) =>
      if NormalizeCondition(v, phrase).Err? then ErrorOf(NormalizeCondition(v, phrase))
      else if ValidateBlock(v, body).Some? then ValidateBlock(v, body)
      else ValidateBlock(v, elseBody)
  }

  function ValidateBlock(v: Vocabulary, block: seq<Node>): Option<ValidationError>
    decreases BlockSize(block)
  {
    if block == [] then None
    else
      var first := Validate(v, block[0]);
      if first.Some? then first else ValidateBlock(v, block[1..])
  }

  /** The loop that remembers the option names it has seen. */
  method HasDistinctNames(args: seq<ArgumentNode>) returns (ok: bool)
    ensures ok == DistinctNames(args)
  {
    var names: set<string> := {};
    for k := 0 to |args|
      invariant DistinctNames(args[..k])
      invariant forall name :: name in names <==> exists i :: 0 <= i < k && args[i].name != "" && Text.Lower(args[i].name) == name
    {
      if args[k].name != "" {
        var normalized := Text.Lower(args[k].name);
        if normalized in names {
          return false;
        }
        names := names + {normalized};
      }
    }
    assert args[..|args|] == args;
    ok := true;
  }

  /** The statements of a block are checked in order, each with everything inside of it. */
  method CheckBlock(v: Vocabulary, block: seq<Node>) returns (r: Option<ValidationError>)
    ensures r == ValidateBlock(v, block)
    decreases BlockSize(block), 0
  {
    assert block[0..] == block;
    for k := 0 to |block|
      invariant ValidateBlock(v, block) == ValidateBlock(v, block[k..])
    {
      Smaller(block, k);
      ValidateStep(v, block, k);
      var error := CheckNode(v, block[k]);
      if error.Some? { return error; }
    }
    assert ValidateBlock(v, block[|block|..]) == None;
    r := None;
  }

  method CheckNode(v: Vocabulary, n: Node) returns (r: Option<ValidationError>)
    ensures r == Validate(v, n)
    decreases Size(n), 1
  {
    match n
    case Assignment(_, _) => r := None;
    case Operation(name, args, body) =>
      if !Has(v, name, ACTION) { return Some(UnknownOperation(name)); }
      var distinct := HasDistinctNames(args);
      if !distinct { return Some(DuplicateOption); }
      r := CheckBlock(v, body);
    case Flow(phrase) => r := ErrorOf(NormalizeAction(v, phrase));
    case Conditional(phrase, body, elseBody) =>
      var condition := NormalizeCondition(v, phrase);
      if condition.Err? { return ErrorOf(condition); }
      r := CheckBlock(v, body);
      if r.None? { r := CheckBlock(v, elseBody); }
  }

  lemma {:induction false} Smaller(block: seq<Node>, k: nat)
    requires k < |block|
    ensures Size(block[k]) < BlockSize(block)
  {
    if k > 0 { Smaller(block[1..], k - 1); }
  }

  lemma ValidateStep(v: Vocabulary, block: seq<Node>, k: nat)
    requires k < |block|
    ensures ValidateBlock(v, block[k..]) ==
            if Validate(v, block[k]).Some? then Validate(v, block[k]) else ValidateBlock(v, block[k + 1..])
  {
    assert block[k..][1..] == block[k + 1..];
    hide Validate;
  }

  /** What is wrong with a statement itself, whatever is inside of it. */
  function Fault(v: Vocabulary, n: Node): Option<ValidationError> {
    match n
    case Assignment(_, _) => None
    case Operation(name, args, _) =>
      if Has(v, name, ACTION) then if DistinctNames(args) then None else Some(DuplicateOption)
      else Some(UnknownOperation(name))
    case Flow(phrase) =>
      (match NormalizeAction(v, phrase)
       case Ok(_) => None
       case Err(e) => Some(BadPhrase(e)))
    case Conditional(phrase, _, _) =>
      match NormalizeCondition(v, phrase)
      case Ok(_) => None
      case Err(e) => Some(BadPhrase(e))
  }

  /** All statements of a block, however deep, in the order of the source. */
  function SourceOrder(block: seq<Node>): seq<Node>
    decreases BlockSize(block)
  {
    if block == [] then [] else [block[0]] + Inside(block[0]) + SourceOrder(block[1..])
  }

  function Inside(n: Node): seq<Node>
    decreases Size(n)
  {
    match n
    case Operation(_, _, body) => SourceOrder(body)
    case Conditional(_, body, elseBody) => SourceOrder(body) + SourceOrder(elseBody)
    case _ => []
  }

  ghost predicate FirstFault(v: Vocabulary, nodes: seq<Node>, r: Option<ValidationError>) {
    if r.None? then forall k :: 0 <= k < |nodes| ==> Fault(v, nodes[k]).None?
    else exists k: nat :: FaultAt(v, nodes, k, r)
  }

  /** Statement k has this fault and those before it have none. */
  predicate FaultAt(v: Vocabulary, nodes: seq<Node>, k: nat, r: Option<ValidationError>) {
    k < |nodes| && r.Some? && Fault(v, nodes[k]) == r && forall j :: 0 <= j < k ==> Fault(v, nodes[j]).None?
  }

  lemma FaultsJoin(v: Vocabulary, front: seq<Node>, back: seq<Node>, r: Option<ValidationError>, q: Option<ValidationError>)
    requires FirstFault(v, front, r) && FirstFault(v, back, q)
    ensures FirstFault(v, front + back, if r.Some? then r else q)
  {
    hide Fault;
    if r.Some? {
      var k: nat :| FaultAt(v, front, k, r);
      assert FaultAt(v, front + back, k, r);
    } else if q.Some? {
      var k: nat :| FaultAt(v, back, k, q);
      assert FaultAt(v, front + back, |front| + k, q);
    }
  }

  lemma FaultAlone(v: Vocabulary, n: Node)
    ensures FirstFault(v, [n], Fault(v, n))
  {
    hide Fault;
    assert Fault(v, n).Some? ==> FaultAt(v, [n], 0, Fault(v, n));
  }

  lemma {:induction false} InsideFault(v: Vocabulary, n: Node) returns (r: Option<ValidationError>)
    ensures FirstFault(v, Inside(n), r)
    ensures Validate(v, n) == if Fault(v, n).Some? then Fault(v, n) else r
    decreases Size(n), 0
  {
    hide FirstFault, NormalizeAction, NormalizeCondition, Has, DistinctNames;
    NoFault(v);
    r := None;
    match n
    case Operation(_, _, body) =>
      ValidateFindsFirst(v, body);
      r := ValidateBlock(v, body);
    case Conditional(_, body, elseBody) =>
      ValidateFindsFirst(v, body);
      ValidateFindsFirst(v, elseBody);
      FaultsJoin(v, SourceOrder(body), SourceOrder(elseBody), ValidateBlock(v, body), ValidateBlock(v, elseBody));
      r := if ValidateBlock(v, body).Some? then ValidateBlock(v, body) else ValidateBlock(v, elseBody);
    case _ =>
  }

  lemma NoFault(v: Vocabulary)
    ensures FirstFault(v, [], None)
  {
  }

  /** The error of a block is the fault of its first faulty statement in the order of the source, however deep. */
  lemma {:induction false} ValidateFindsFirst(v: Vocabulary, block: seq<Node>)
    ensures FirstFault(v, SourceOrder(block), ValidateBlock(v, block))
    decreases BlockSize(block)
  {
    if block == [] {
      NoFault(v);
    } else {
      hide FirstFault, Fault, Validate, Inside;
      var n := block[0];
      var r := InsideFault(v, n);
      FaultAlone(v, n);
      FaultsJoin(v, [n], Inside(n), Fault(v, n), r);
      ValidateFindsFirst(v, block[1..]);
      FaultsJoin(v, [n] + Inside(n), SourceOrder(block[1..]), Validate(v, n), ValidateBlock(v, block[1..]));
    }
  }

  // ---------------------------------------------------------------- IR generation

  function Inputs(args: seq<ArgumentNode>): seq<string> {
    if args == [] then [] else (if args[0].name == "" then [args[0].value.value] else []) + Inputs(args[1..])
  }

  function Options(args: seq<ArgumentNode>): seq<(string, string)> {
    if args == [] then [] else (if args[0].name != "" then [(args[0].name, args[0].value.value)] else []) + Options(args[1..])
  }

  function Compile(v: Vocabulary, n: Node): Result<CltIR.Statement, PhraseError>
    decreases Size(n)
  {
    match n
    case Assignment(name, value) => Ok(CltIR.Assignment(name, value.value))
    case Operation(name, args, body) =>
      var intent := NormalizeAction(v, [ValueNode(name, false)]);
      var inner := CompileBlock(v, body);
      if intent.Err? then Err(intent.error)
      else if inner.Err? then Err(inner.error)
      else Ok(CltIR.Operation(intent.value, Inputs(args), Options(args), inner.value))
    case Flow(phrase) =>
      var intent := NormalizeAction(v, phrase);
      if intent.Err? then Err(intent.error) else Ok(CltIR.Flow(intent.value))
    case Conditional(phrase, body, elseBody) =>
      var condition := NormalizeCondition(v, phrase);
      var inner, other := CompileBlock(v, body), CompileBlock(v, elseBody);
      if condition.Err? then Err(condition.error)
      else if inner.Err? then Err(inner.error)
      else if other.Err? then Err(other.error)
      else Ok(CltIR.Rule(condition.value, inner.value, other.value))
  }

  function CompileBlock(v: Vocabulary, block: seq<Node>): Result<seq<CltIR.Statement>, PhraseError>
    decreases BlockSize(block)
  {
    if block == [] then Ok([])
    else
      var first := Compile(v, block[0]);
      if first.Err? then Err(first.error)
      else
        var more := CompileBlock(v, block[1..]);
        if more.Err? then more else Ok([first.value] + more.value)
  }

  // ---------------------------------------------------------------- validator and compiler agree

  predicate NoDuplicates(n: Node)
    decreases Size(n)
  {
    match n
    case Operation(_, args, body) => DistinctNames(args) && NoDuplicatesIn(body)
    case Conditional(_, body, elseBody) => NoDuplicatesIn(body) && NoDuplicatesIn(elseBody)
    case _ => true
  }

  /** No operation in the block, however deep, has two option names that are equal ignoring case. */
  predicate NoDuplicatesIn(block: seq<Node>)
    decreases BlockSize(block)
  {
    block == [] || (NoDuplicates(block[0]) && NoDuplicatesIn(block[1..]))
  }

  lemma SingleWord(v: Vocabulary, name: string)
    ensures NormalizeAction(v, [ValueNode(name, false)]) ==
            if Has(v, name, ACTION) then Ok(CltIR.ActionIntent(Text.Lower(name), "")) else Err(NeedsOneAction)
  {
    var phrase := [ValueNode(name, false)];
    assert phrase[1..] == [];
    assert Ordering.Filter(IsA(v, ACTION), phrase[1..]) == [] && Ordering.Filter(NotA(v, ACTION), phrase[1..]) == [];
  }

  /** A tree is accepted exactly when it compiles and no operation repeats an option name. */
  lemma {:induction false} NodesAgree(v: Vocabulary, n: Node)
    ensures Validate(v, n).None? <==> Compile(v, n).Ok? && NoDuplicates(n)
    decreases Size(n)
  {
    hide NormalizeAction, NormalizeCondition, DistinctNames, Has;
    match n
    case Operation(name, args, body) =>
      SingleWord(v, name);
      ValidatorAgrees(v, body);
    case Conditional(phrase, body, elseBody) =>
      ValidatorAgrees(v, body);
      ValidatorAgrees(v, elseBody);
    case _ =>
  }

  lemma {:induction false} ValidatorAgrees(v: Vocabulary, block: seq<Node>)
    ensures ValidateBlock(v, block).None? <==> CompileBlock(v, block).Ok? && NoDuplicatesIn(block)
    decreases BlockSize(block)
  {
    if block != [] {
      NodesAgree(v, block[0]);
      ValidatorAgrees(v, block[1..]);
    }
  }

  // ---------------------------------------------------------------- option names are distinct

  predicate NamesOption(args: seq<ArgumentNode>, name: string) {
    name != "" && exists k :: 0 <= k < |args| && args[k].name == name
  }

  lemma {:induction false} OptionNames(args: seq<ArgumentNode>)
    ensures forall i :: 0 <= i < |Options(args)| ==> NamesOption(args, Options(args)[i].0)
  {
    if args != [] {
      var rest := Options(args[1..]);
      OptionNames(args[1..]);
      forall i | 0 <= i < |rest| ensures NamesOption(args, rest[i].0) {
        assert NamesOption(args[1..], rest[i].0);
        var k :| 0 <= k < |args[1..]| && args[1..][k].name == rest[i].0;
        assert args[k + 1].name == rest[i].0;
      }
    }
  }

  /** Option names that differ ignoring case differ. */
  lemma {:induction false} OptionsAreDistinct(args: seq<ArgumentNode>)
    requires DistinctNames(args)
    ensures CltRuntime.DistinctKeys(Options(args))
  {
    if args != [] {
      var rest := Options(args[1..]);
      assert DistinctNames(args[1..]);
      OptionsAreDistinct(args[1..]);
      OptionNames(args[1..]);
      if args[0].name != "" {
        forall i | 0 <= i < |rest| ensures rest[i].0 != args[0].name {
          assert NamesOption(args[1..], rest[i].0);
          var k :| 0 <= k < |args[1..]| && args[1..][k].name == rest[i].0;
          assert args[k + 1].name == rest[i].0;
        }
      }
    }
  }

  /** Every options list of the compiled workflow has distinct names. */
  predicate OptionsDistinct(s: CltIR.Statement)
  {
    match s
    case Operation(_, _, options, body) => CltRuntime.DistinctKeys(options) && forall k :: 0 <= k < |body| ==> OptionsDistinct(body[k])
    case Rule(_, body, elseBody) =>
      (forall k :: 0 <= k < |body| ==> OptionsDistinct(body[k])) && (forall k :: 0 <= k < |elseBody| ==> OptionsDistinct(elseBody[k]))
    case _ => true
  }

  predicate AllDistinct(block: seq<CltIR.Statement>) {
    forall k :: 0 <= k < |block| ==> OptionsDistinct(block[k])
  }

  /** After validation no operation of the workflow loses an option in the runtime's dictionary. */
  lemma {:induction false} CompiledOptionsDistinct(v: Vocabulary, n: Node)
    requires NoDuplicates(n) && Compile(v, n).Ok?
    ensures OptionsDistinct(Compile(v, n).value)
    decreases Size(n)
  {
    hide NormalizeAction, NormalizeCondition, DistinctNames, CltRuntime.DistinctKeys;
    match n
    case Operation(name, args, body) =>
      OptionsAreDistinct(args);
      BlockOptionsDistinct(v, body);
    case Conditional(phrase, body, elseBody) =>
      BlockOptionsDistinct(v, body);
      BlockOptionsDistinct(v, elseBody);
    case _ =>
  }

  lemma {:induction false} BlockOptionsDistinct(v: Vocabulary, block: seq<Node>)
    requires NoDuplicatesIn(block) && CompileBlock(v, block).Ok?
    ensures AllDistinct(CompileBlock(v, block).value)
    decreases BlockSize(block)
  {
    if block != [] {
      CompiledOptionsDistinct(v, block[0]);
      BlockOptionsDistinct(v, block[1..]);
    }
  }

  // ---------------------------------------------------------------- what a tree does, and what it compiles to

  function Values(args: seq<ArgumentNode>): (r: seq<string>)
    ensures |r| == |args| && forall k :: 0 <= k < |args| ==> r[k] == args[k].value.value
  {
    seq(|args|, k requires 0 <= k < |args| => args[k].value.value)
  }

  function Pairs(args: seq<ArgumentNode>): (r: seq<(string, string)>)
    ensures |r| == |args| && forall k :: 0 <= k < |args| ==> r[k] == (args[k].name, args[k].value.value)
  {
    seq(|args|, k requires 0 <= k < |args| => (args[k].name, args[k].value.value))
  }

  predicate Positional(a: ArgumentNode) {
    a.name == ""
  }

  predicate Named(a: ArgumentNode) {
    a.name != ""
  }

  /** What a statement asks for under the given facts, read off the syntax tree. */
  function TreeDeeds(v: Vocabulary, facts: CltRuntime.Facts, n: Node): seq<CltRuntime.Deed>
    decreases Size(n)
  {
    match n
    case Assignment(name, value) => [CltRuntime.Assign(name, value.value)]
    case Operation(name, args, body) =>
      [CltRuntime.Do(CltIR.ActionIntent(Text.Lower(name), ""), Values(Ordering.Filter(Positional, args)),
                     Pairs(Ordering.Filter(Named, args)))] + BlockDeeds(v, facts, body)
    case Flow(phrase) =>
      var intent := NormalizeAction(v, phrase);
      if intent.Ok? then [CltRuntime.Do(intent.value, [], [])] else []
    case Conditional(phrase, body, elseBody) =>
      var condition := NormalizeCondition(v, phrase);
      if condition.Ok? && CltRuntime.Matches(condition.value, facts) then BlockDeeds(v, facts, body)
      else BlockDeeds(v, facts, elseBody)
  }

  function BlockDeeds(v: Vocabulary, facts: CltRuntime.Facts, block: seq<Node>): seq<CltRuntime.Deed>
    decreases BlockSize(block)
  {
    if block == [] then [] else TreeDeeds(v, facts, block[0]) + BlockDeeds(v, facts, block[1..])
  }

  lemma Joined(front: seq<ArgumentNode>, back: seq<ArgumentNode>)
    ensures Values(front + back) == Values(front) + Values(back) && Pairs(front + back) == Pairs(front) + Pairs(back)
  {
  }

  lemma FilterStep(keep: ArgumentNode -> bool, args: seq<ArgumentNode>)
    ensures args == [] ==> Ordering.Filter(keep, args) == []
    ensures args != [] ==>
              Ordering.Filter(keep, args) == (if keep(args[0]) then [args[0]] else []) + Ordering.Filter(keep, args[1..])
  {
  }

  lemma {:induction false} SplitArguments(args: seq<ArgumentNode>)
    ensures Inputs(args) == Values(Ordering.Filter(Positional, args))
    ensures Options(args) == Pairs(Ordering.Filter(Named, args))
  {
    hide Ordering.Filter;
    FilterStep(Positional, args);
    FilterStep(Named, args);
    if args != [] {
      var rest := args[1..];
      SplitArguments(rest);
      Joined(if Positional(args[0]) then [args[0]] else [], Ordering.Filter(Positional, rest));
      Joined(if Named(args[0]) then [args[0]] else [], Ordering.Filter(Named, rest));
    }
  }

  /** A compiled statement asks, under any facts, for what its tree asks for, in the same order. */
  lemma {:induction false} StatementKeepsDeeds(v: Vocabulary, facts: CltRuntime.Facts, n: Node)
    requires Compile(v, n).Ok?
    ensures CltRuntime.Deeds(CltRuntime.Flatten(facts, Compile(v, n).value)) == TreeDeeds(v, facts, n)
    decreases Size(n)
  {
    hide NormalizeAction, NormalizeCondition, CltRuntime.Matches, Has, Ordering.Filter;
    match n
    case Operation(name, args, body) =>
      var s := Compile(v, n).value;
      SingleWord(v, name);
      SplitArguments(args);
      CompileKeepsDeeds(v, facts, body);
      CltRuntime.DeedsJoin([CltIR.Operation(s.intent, s.inputs, s.options, [])], CltRuntime.FlattenBlock(facts, s.body));
    case Conditional(phrase, body, elseBody) =>
      CompileKeepsDeeds(v, facts, body);
      CompileKeepsDeeds(v, facts, elseBody);
    case _ =>
  }

  lemma {:induction false} CompileKeepsDeeds(v: Vocabulary, facts: CltRuntime.Facts, block: seq<Node>)
    requires CompileBlock(v, block).Ok?
    ensures CltRuntime.Deeds(CltRuntime.FlattenBlock(facts, CompileBlock(v, block).value)) == BlockDeeds(v, facts, block)
    decreases BlockSize(block)
  {
    hide Compile, TreeDeeds, CltRuntime.Flatten;
    if block != [] {
      var first, more := Compile(v, block[0]).value, CompileBlock(v, block[1..]).value;
      assert ([first] + more)[1..] == more;
      StatementKeepsDeeds(v, facts, block[0]);
      CompileKeepsDeeds(v, facts, block[1..]);
      CltRuntime.DeedsJoin(CltRuntime.Flatten(facts, first), CltRuntime.FlattenBlock(facts, more));
    }
  }

  /** Running a compiled tree is doing what the tree asks for, one thing after the other, up to the first failure. */
  lemma CompiledRuns(v: Vocabulary, block: seq<Node>, handlers: CltRuntime.Handlers, facts: CltRuntime.Facts, state: CltRuntime.State)
    requires CompileBlock(v, block).Ok?
    ensures CltRuntime.RunBlock(handlers, facts, CompileBlock(v, block).value, state)
         == CltRuntime.Perform(handlers, BlockDeeds(v, facts, block), state)
  {
    hide *;
    CompileKeepsDeeds(v, facts, block);
    CltRuntime.RunsAreDeeds(handlers, facts, CompileBlock(v, block).value, state);
  }

  /** Whatever the facts, the workflow asks for what the tree asks for. */
  ghost predicate SameDeeds(v: Vocabulary, block: seq<Node>, workflow: seq<CltIR.Statement>) {
    forall facts :: CltRuntime.Deeds(CltRuntime.FlattenBlock(facts, workflow)) == BlockDeeds(v, facts, block)
  }

  lemma CompiledSame(v: Vocabulary, block: seq<Node>)
    requires CompileBlock(v, block).Ok?
    ensures SameDeeds(v, block, CompileBlock(v, block).value)
  {
    hide CltRuntime.Deeds, CltRuntime.FlattenBlock, BlockDeeds, CompileBlock;
    forall facts
      ensures CltRuntime.Deeds(CltRuntime.FlattenBlock(facts, CompileBlock(v, block).value)) == BlockDeeds(v, facts, block) {
      CompileKeepsDeeds(v, facts, block);
    }
  }

  // ---------------------------------------------------------------- compile_source

  datatype SourceError = LexFailed(lex: LexError) | ParseFailed | Invalid(validation: ValidationError) | NotNormalized(phrase: PhraseError)

  /** What a syntax tree compiles to. */
  function Outcome(v: Vocabulary, block: seq<Node>): Result<seq<CltIR.Statement>, SourceError> {
    var problem, workflow := ValidateBlock(v, block), CompileBlock(v, block);
    if problem.Some? then Err(Invalid(problem.value))
    else if workflow.Err? then Err(NotNormalized(workflow.error))
    else Ok(workflow.value)
  }

  /**
   * Source lines to workflow. The outcome is that of the syntax tree the source parses to; a source without one is
   * refused with the lexer's error, which is never the one about an earlier block, or by the parser. What passes
   * validation always compiles, and its options are distinct. A printed tree, with any comments and blank lines that
   * leave its lines intact, compiles to what the tree itself compiles to. Under any facts the workflow asks for the
   * assignments and actions the tree asks for: same intents, inputs and options, in the same order.
   */
  method CompileSource(isIp: string -> bool, v: Vocabulary, lines: seq<string>)
    returns (r: Result<seq<CltIR.Statement>, SourceError>)
    ensures forall block :: Accepted(isIp, lines, block) ==> r == Outcome(v, block)
    ensures Lex(isIp, lines).Err? ==> r == Err(LexFailed(Lex(isIp, lines).error))
    ensures Lex(isIp, lines).Ok? && (forall block :: !Accepted(isIp, lines, block)) ==> r == Err(ParseFailed)
    ensures r.Ok? ==> AllDistinct(r.value)
    ensures r.Ok? ==> exists block :: Accepted(isIp, lines, block) && SameDeeds(v, block, r.value)
    ensures forall block :: Accepted(isIp, lines, block) && r.Ok? ==> SameDeeds(v, block, r.value)
    ensures r.Err? ==> r.error != LexFailed(NoEarlierBlock) && !r.error.NotNormalized?
    ensures forall block :: Printed(isIp, lines, block) ==> Accepted(isIp, lines, block)
  {
    hide Lex, Parse, ValidateBlock, CompileBlock, Balanced, CltCursor.EndsOnce, Printed, AllDistinct, NoDuplicatesIn, SameDeeds;
    forall block | Printed(isIp, lines, block) ensures Accepted(isIp, lines, block) {
      PrintedIsAccepted(isIp, lines, block);
    }
    var tokens := LexSource(isIp, lines);
    if tokens.Err? { return Err(LexFailed(tokens.error)); }
    var parser := new CltCursor.Parser(tokens.value);
    var tree := parser.Run();
    if tree.None? { return Err(ParseFailed); }
    assert Accepted(isIp, lines, tree.value);
    Matches(v, tree.value);
    var problem := CheckBlock(v, tree.value);
    if problem.Some? { return Err(Invalid(problem.value)); }
    var workflow := CompileBlock(v, tree.value);
    assert workflow.Ok?;
    BlockOptionsDistinct(v, tree.value);
    CompiledSame(v, tree.value);
    r := Ok(workflow.value);
  }

  predicate Accepted(isIp: string -> bool, lines: seq<string>, block: seq<Node>) {
    Lex(isIp, lines).Ok? && Parse(Lex(isIp, lines).value) == Some((block, []))
  }

  predicate Printed(isIp: string -> bool, lines: seq<string>, block: seq<Node>) {
    WellFormedBlock(isIp, block) && WritableBlock(BareWord, block) && Keywords(isIp) && Significant(lines) == BlockLines(isIp, block, 0)
  }

  predicate ValidatorMatches(v: Vocabulary, block: seq<Node>) {
    ValidateBlock(v, block).None? ==> CompileBlock(v, block).Ok? && NoDuplicatesIn(block)
  }

  lemma Matches(v: Vocabulary, block: seq<Node>)
    ensures ValidatorMatches(v, block)
  {
    ValidatorAgrees(v, block);
  }

  lemma PrintedIsAccepted(isIp: string -> bool, lines: seq<string>, block: seq<Node>)
    requires Printed(isIp, lines, block)
    ensures Accepted(isIp, lines, block)
  {
    PrintedReads(isIp, block, lines);
  }
}
