/** The recursive-descent parser of blackline/clt/parser.py: a grammar on token suffixes, and the cursor that runs it. */
module CltParser {
  import opened Results
  import opened CltSyntax
  import Text

  // ---------------------------------------------------------------- the grammar, on what is left of the tokens

  type Parsed<T> = Option<(T, seq<Token>)>

  function Head(toks: seq<Token>): Kind {
    if toks == [] then EOF else toks[0].kind
  }

  predicate IsValue(kind: Kind) {
    kind == IDENTIFIER || kind == NUMBER || kind == STRING || kind == IP_ADDRESS
  }

  predicate IsWord(toks: seq<Token>, word: string) {
    toks != [] && toks[0].kind == IDENTIFIER && Text.Lower(toks[0].value) == word
  }

  function After(toks: seq<Token>, kind: Kind): (r: Option<seq<Token>>)
    ensures r.Some? ==> |r.value| < |toks|
  {
    if toks != [] && toks[0].kind == kind then Some(toks[1..]) else None
  }

  function ParseValue(toks: seq<Token>): (r: Parsed<ValueNode>)
    ensures r.Some? ==> |r.value.1| < |toks|
  {
    if toks != [] && IsValue(toks[0].kind) then Some((ValueNode(toks[0].value, toks[0].kind == STRING), toks[1..])) else None
  }

  function ParsePhrase(toks: seq<Token>): (r: Parsed<seq<ValueNode>>)
    ensures r.Some? ==> |r.value.1| <= |toks|
  {
    if Head(toks) == NEWLINE || Head(toks) == EOF then Some(([], toks))
    else
      var first := ParseValue(toks);
      if first.None? then None
      else
        var more := ParsePhrase(first.value.1);
        if more.None? then None else Some(([first.value.0] + more.value.0, more.value.1))
  }

  function ParseArgument(toks: seq<Token>): (r: Parsed<ArgumentNode>)
    ensures r.Some? ==> |r.value.1| < |toks|
  {
    var first := ParseValue(toks);
    if first.None? then None
    else if Head(first.value.1) == EQUALS && first.value.1 != [] then
      var value := ParseValue(first.value.1[1..]);
      if value.None? then None else Some((ArgumentNode(value.value.0, first.value.0.value), value.value.1))
    else Some((ArgumentNode(first.value.0, ""), first.value.1))
  }

  function ParseArguments(toks: seq<Token>): (r: Parsed<seq<ArgumentNode>>)
    ensures r.Some? ==> |r.value.1| <= |toks|
  {
    var first := ParseArgument(toks);
    if first.None? then None
    else if Head(first.value.1) != COMMA then Some(([first.value.0], first.value.1))
    else if Head(first.value.1[1..]) == RBRACKET then None
    else
      var more := ParseArguments(first.value.1[1..]);
      if more.None? then None else Some(([first.value.0] + more.value.0, more.value.1))
  }

  /** The bracketed inputs of an operation, if there are any. */
  function ParseInputs(toks: seq<Token>): (r: Parsed<seq<ArgumentNode>>)
    ensures r.Some? ==> |r.value.1| <= |toks|
  {
    var open := After(toks, LBRACKET);
    if open.None? then Some(([], toks))
    else
      var args := if Head(open.value) == RBRACKET then Some(([], open.value)) else ParseArguments(open.value);
      if args.None? then None
      else
        var close := After(args.value.1, RBRACKET);
        if close.None? then None else Some((args.value.0, close.value))
  }

  function ParseBlock(toks: seq<Token>, stop: Kind): (r: Parsed<seq<Node>>)
    ensures r.Some? ==> |r.value.1| <= |toks|
    decreases |toks|, 1
  {
    if Head(toks) == stop then Some(([], toks))
    else if toks != [] && toks[0].kind == NEWLINE then ParseBlock(toks[1..], stop)
    else if Head(toks) == DEDENT then None
    else
      var first := ParseStatement(toks);
      if first.None? then None
      else
        var more := ParseBlock(first.value.1, stop);
        if more.None? then None else Some(([first.value.0] + more.value.0, more.value.1))
  }

  /** INDENT, a block and DEDENT. */
  function ParseNested(toks: seq<Token>): (r: Parsed<seq<Node>>)
    ensures r.Some? ==> |r.value.1| < |toks|
    decreases |toks|, 0
  {
    var open := After(toks, INDENT);
    if open.None? then None
    else
      var body := ParseBlock(open.value, DEDENT);
      if body.None? then None
      else
        var close := After(body.value.1, DEDENT);
        if close.None? then None else Some((body.value.0, close.value))
  }

  /** A nested block that may not be empty. */
  function ParseRequired(toks: seq<Token>): (r: Parsed<seq<Node>>)
    ensures r.Some? ==> |r.value.1| < |toks|
    decreases |toks|, 1
  {
    var r := ParseNested(toks);
    if r.None? || r.value.0 == [] then None else r
  }

  function ParseFlow(toks: seq<Token>): (r: Parsed<Node>)
    ensures r.Some? ==> |r.value.1| < |toks|
  {
    var phrase := ParsePhrase(toks);
    if phrase.None? || phrase.value.0 == [] then None
    else
      var end := After(phrase.value.1, NEWLINE);
      if end.None? then None else Some((Flow(phrase.value.0), end.value))
  }

  function ParseElse(toks: seq<Token>): (r: Parsed<seq<Node>>)
    ensures r.Some? ==> |r.value.1| <= |toks|
    decreases |toks|, 1
  {
    if !IsWord(toks, "else") then Some(([], toks))
    else
      var end := After(toks[1..], NEWLINE);
      if end.None? then None else ParseRequired(end.value)
  }

  function ParseIf(toks: seq<Token>): (r: Parsed<Node>)
    ensures r.Some? ==> |r.value.1| < |toks|
    decreases |toks|, 1
  {
    var phrase := ParsePhrase(toks);
    if phrase.None? || phrase.value.0 == [] then None
    else
      var end := After(phrase.value.1, NEWLINE);
      if end.None? then None
      else
        var body := ParseRequired(end.value);
        if body.None? then None
        else
          var otherwise := ParseElse(body.value.1);
          if otherwise.None? then None
          else Some((Conditional(phrase.value.0, body.value.0, otherwise.value.0), otherwise.value.1))
  }

  function ParseAssignment(name: string, toks: seq<Token>): (r: Parsed<Node>)
    ensures r.Some? ==> |r.value.1| < |toks|
  {
    var value := ParseValue(toks);
    if value.None? then None
    else
      var end := After(value.value.1, NEWLINE);
      if end.None? then None else Some((Assignment(name, value.value.0), end.value))
  }

  function ParseOperation(name: string, toks: seq<Token>): (r: Parsed<Node>)
    ensures r.Some? ==> |r.value.1| < |toks|
    decreases |toks|, 1
  {
    var args := ParseInputs(toks);
    if args.None? then None
    else
      var end := After(args.value.1, NEWLINE);
      if end.None? then None
      else if Head(end.value) != INDENT then Some((Operation(name, args.value.0, []), end.value))
      else
        var body := ParseNested(end.value);
        if body.None? then None else Some((Operation(name, args.value.0, body.value.0), body.value.1))
  }

  function ParseStatement(toks: seq<Token>): (r: Parsed<Node>)
    ensures r.Some? ==> |r.value.1| < |toks|
    decreases |toks|, 0
  {
    if toks == [] then None
    else if toks[0].kind == ARROW then ParseFlow(toks[1..])
    else if toks[0].kind != IDENTIFIER then None
    else if IsWord(toks, "if") then ParseIf(toks[1..])
    else if Head(toks[1..]) == EQUALS && toks[1..] != [] then ParseAssignment(toks[0].value, toks[2..])
    else ParseOperation(toks[0].value, toks[1..])
  }

  /** A module: statements up to the end, and nothing after it. */
  function Parse(toks: seq<Token>): Parsed<seq<Node>> {
    var block := ParseBlock(toks, EOF);
    if block.None? then None
    else
      var end := After(block.value.1, EOF);
      if end.None? then None else Some((block.value.0, end.value))
  }
}
