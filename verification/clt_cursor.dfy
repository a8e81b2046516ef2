/** The parser as it is written: an index that every method advances, tied to the grammar on token suffixes. */
module CltCursor {
  import opened Results
  import opened CltSyntax
  import opened CltParser
  import Text

  /** A stream as the lexer leaves it: EOF stands at its end and nowhere else. */
  predicate EndsOnce(toks: seq<Token>) {
    && toks != [] && toks[|toks| - 1].kind == EOF
    && forall i :: 0 <= i < |toks| - 1 ==> toks[i].kind != EOF
  }

  /** What a parsing method must report, given what the grammar says about the tokens it started from. */
  predicate Agrees<T(==)>(spec: Parsed<T>, r: Option<T>, rest: seq<Token>) {
    spec == if r.Some? then Some((r.value, rest)) else None
  }

  class Parser {
    const tokens: seq<Token>
    var index: nat

    predicate Valid()
      reads this
    {
      EndsOnce(tokens) && index <= |tokens|
    }

    /** The cursor still stands on a token. */
    predicate Live()
      reads this
    {
      Valid() && index < |tokens|
    }

    function Rest(): seq<Token>
      requires Valid()
      reads this
    {
      tokens[index..]
    }

    constructor (tokens: seq<Token>)
      requires EndsOnce(tokens)
      ensures Live() && this.tokens == tokens && Rest() == tokens
    {
      this.tokens, index := tokens, 0;
    }

    function Current(): Token
      requires Live()
      reads this
    {
      tokens[index]
    }

    predicate At(kind: Kind)
      requires Live()
      reads this
      ensures At(kind) == (Head(Rest()) == kind)
    {
      Current().kind == kind
    }

    method Advance()
      requires Live()
      modifies this
      ensures Valid() && index == old(index) + 1 && Rest() == old(Rest())[1..]
      ensures old(Current()).kind != EOF ==> Live()
    {
      index := index + 1;
    }

    method Match(kind: Kind) returns (matched: bool)
      requires Live() && kind != EOF
      modifies this
      ensures Live() && After(old(Rest()), kind) == (if matched then Some(Rest()) else None)
      ensures !matched ==> Rest() == old(Rest()) && index == old(index)
      ensures matched ==> index == old(index) + 1
    {
      if !At(kind) { return false; }
      Advance();
      matched := true;
    }

    method Value() returns (r: Option<ValueNode>)
      requires Live()
      modifies this
      ensures Live() && Agrees(ParseValue(old(Rest())), r, Rest())
      ensures index == old(index) + if r.Some? then 1 else 0
    {
      var token := Current();
      if !IsValue(token.kind) { return None; }
      Advance();
      r := Some(ValueNode(token.value, token.kind == STRING));
    }

    method PhraseUntilNewline() returns (r: Option<seq<ValueNode>>)
      requires Live()
      modifies this
      ensures Live() && index >= old(index) && Agrees(ParsePhrase(old(Rest())), r, Rest())
    {
      var phrase: seq<ValueNode> := [];
      ghost var start := Rest();
      hide ParsePhrase, ParseValue, EndsOnce;
      JoinedNothing(ParsePhrase(start));
      while !At(NEWLINE) && !At(EOF)
        invariant Live() && index >= old(index)
        invariant ParsePhrase(start) == Joined(phrase, ParsePhrase(Rest()))
        decreases |tokens| - index
      {
        PhraseStep(Rest());
        var value := Value();
        if value.None? { return None; }
        JoinedOne(phrase, value.value, ParsePhrase(Rest()));
        phrase := phrase + [value.value];
      }
      PhraseStep(Rest());
      JoinedEnd(phrase, Rest());
      r := Some(phrase);
    }

    method Argument() returns (r: Option<ArgumentNode>)
      requires Live()
      modifies this
      ensures Live() && index >= old(index) && Agrees(ParseArgument(old(Rest())), r, Rest())
      ensures r.Some? ==> index > old(index)
    {
      var first := Value();
      if first.None? { return None; }
      var named := Match(EQUALS);
      if named {
        var value := Value();
        if value.None? { return None; }
        return Some(ArgumentNode(value.value, first.value.value));
      }
      r := Some(ArgumentNode(first.value, ""));
    }

    method Arguments() returns (r: Option<seq<ArgumentNode>>)
      requires Live()
      modifies this
      ensures Live() && index >= old(index)
      ensures Agrees(if Head(old(Rest())) == RBRACKET then Some(([], old(Rest()))) else ParseArguments(old(Rest())), r, Rest())
    {
      var arguments: seq<ArgumentNode> := [];
      if At(RBRACKET) { return Some(arguments); }
      ghost var start := Rest();
      hide ParseArguments, ParseArgument, EndsOnce;
      JoinedNothing(ParseArguments(start));
      while true
        invariant Live() && index >= old(index) && start == old(Rest())
        invariant ParseArguments(start) == Joined(arguments, ParseArguments(Rest()))
        decreases |tokens| - index
      {
        ArgumentsStep(Rest());
        var argument := Argument();
        if argument.None? { return None; }
        var more := Match(COMMA);
        if !more { return Some(arguments + [argument.value]); }
        if At(RBRACKET) { return None; }
        JoinedOne(arguments, argument.value, ParseArguments(Rest()));
        arguments := arguments + [argument.value];
      }
    }

    method Inputs() returns (r: Option<seq<ArgumentNode>>)
      requires Live()
      modifies this
      ensures Live() && index >= old(index) && Agrees(ParseInputs(old(Rest())), r, Rest())
    {
      var open := Match(LBRACKET);
      if !open { return Some([]); }
      r := Arguments();
      if r.None? { return None; }
      var close := Match(RBRACKET);
      if !close { r := None; }
    }

    method Block(stop: Kind) returns (r: Option<seq<Node>>)
      requires Live() && (stop == EOF || stop == DEDENT)
      modifies this
      ensures Live() && index >= old(index) && Agrees(ParseBlock(old(Rest()), stop), r, Rest())
      ensures r.Some? ==> At(stop)
      decreases |tokens| - index, 2
    {
      var statements: seq<Node> := [];
      ghost var start := Rest();
      hide ParseBlock, ParseStatement, EndsOnce;
      JoinedNothing(ParseBlock(start, stop));
      while !At(stop)
        invariant Live() && index >= old(index)
        invariant ParseBlock(start, stop) == Joined(statements, ParseBlock(Rest(), stop))
        decreases |tokens| - index
      {
        BlockStep(Rest(), stop);
        var blank := Match(NEWLINE);
        if blank { continue; }
        if At(DEDENT) { return None; }
        var statement := Statement();
        if statement.None? { return None; }
        JoinedOne(statements, statement.value, ParseBlock(Rest(), stop));
        statements := statements + [statement.value];
      }
      BlockStep(Rest(), stop);
      JoinedEnd(statements, Rest());
      r := Some(statements);
    }

    method Nested() returns (r: Option<seq<Node>>)
      requires Live()
      modifies this
      ensures Live() && index >= old(index) && Agrees(ParseNested(old(Rest())), r, Rest())
      decreases |tokens| - index, 0
    {
      var open := Match(INDENT);
      if !open { return None; }
      r := Block(DEDENT);
      if r.None? { return None; }
      var close := Match(DEDENT);
      if !close { r := None; }
    }

    method RequiredBlock() returns (r: Option<seq<Node>>)
      requires Live()
      modifies this
      ensures Live() && index >= old(index) && Agrees(ParseRequired(old(Rest())), r, Rest())
      decreases |tokens| - index, 1
    {
      r := Nested();
      if r == Some([]) { r := None; }
    }

    method Conditional() returns (r: Option<Node>)
      requires Live()
      modifies this
      ensures Live() && index >= old(index) && Agrees(ParseIf(old(Rest())), r, Rest())
      decreases |tokens| - index, 1
    {
      var phrase := PhraseUntilNewline();
      if phrase.None? || phrase.value == [] { return None; }
      var end := Match(NEWLINE);
      if !end { return None; }
      var body := RequiredBlock();
      if body.None? { return None; }
      var elseBody := Some([]);
      if IsWord(Rest(), "else") {
        Advance();
        end := Match(NEWLINE);
        if !end { return None; }
        elseBody := RequiredBlock();
        if elseBody.None? { return None; }
      }
      r := Some(Node.Conditional(phrase.value, body.value, elseBody.value));
    }

    method Statement() returns (r: Option<Node>)
      requires Live()
      modifies this
      ensures Live() && index >= old(index) && Agrees(ParseStatement(old(Rest())), r, Rest())
      ensures r.Some? ==> index > old(index)
      decreases |tokens| - index, 1
    {
      var arrow := Match(ARROW);
      if arrow {
        var phrase := PhraseUntilNewline();
        if phrase.None? || phrase.value == [] { return None; }
        var end := Match(NEWLINE);
        return if end then Some(Flow(phrase.value)) else None;
      }
      var first := Current();
      if first.kind != IDENTIFIER { return None; }
      Advance();
      if Text.Lower(first.value) == "if" {
        r := Conditional();
        return;
      }
      var equals := Match(EQUALS);
      if equals {
        var value := Value();
        if value.None? { return None; }
        var end := Match(NEWLINE);
        return if end then Some(Assignment(first.value, value.value)) else None;
      }
      r := OperationOf(first.value);
    }

    method OperationOf(name: string) returns (r: Option<Node>)
      requires Live()
      modifies this
      ensures Live() && index >= old(index) && Agrees(ParseOperation(name, old(Rest())), r, Rest())
      decreases |tokens| - index, 1
    {
      var arguments := Inputs();
      if arguments.None? { return None; }
      var end := Match(NEWLINE);
      if !end { return None; }
      if !At(INDENT) { return Some(Operation(name, arguments.value, [])); }
      var body := Nested();
      if body.None? { return None; }
      r := Some(Operation(name, arguments.value, body.value));
    }

    /** Parsing ends, never reads past the end, and succeeds only when every token has been consumed. */
    method Run() returns (r: Option<seq<Node>>)
      requires Live() && index == 0
      modifies this
      ensures Agrees(Parse(tokens), r, [])
      ensures r.Some? ==> index == |tokens|
    {
      r := Block(EOF);
      if r.Some? { Advance(); }
    }
  }

  function Joined<T>(front: seq<T>, back: Parsed<seq<T>>): Parsed<seq<T>> {
    if back.None? then None else Some((front + back.value.0, back.value.1))
  }

  lemma JoinedNothing<T>(back: Parsed<seq<T>>)
    ensures Joined([], back) == back
  {
    if back.Some? { assert [] + back.value.0 == back.value.0; }
  }

  lemma JoinedEnd<T>(front: seq<T>, rest: seq<Token>)
    ensures Joined(front, Some(([], rest))) == Some((front, rest))
  {
    assert front + [] == front;
  }

  lemma JoinedOne<T>(front: seq<T>, x: T, back: Parsed<seq<T>>)
    ensures Joined(front, Joined([x], back)) == Joined(front + [x], back)
  {
    if back.Some? { assert front + ([x] + back.value.0) == (front + [x]) + back.value.0; }
  }

  lemma PhraseStep(toks: seq<Token>)
    ensures Head(toks) == NEWLINE || Head(toks) == EOF ==> ParsePhrase(toks) == Some(([], toks))
    ensures Head(toks) != NEWLINE && Head(toks) != EOF ==>
              ParsePhrase(toks) == if ParseValue(toks).None? then None
                                   else Joined([ParseValue(toks).value.0], ParsePhrase(ParseValue(toks).value.1))
  {
  }

  lemma ArgumentsStep(toks: seq<Token>)
    ensures ParseArguments(toks) ==
      var first := ParseArgument(toks);
      if first.None? then None
      else if Head(first.value.1) != COMMA then Some(([first.value.0], first.value.1))
      else if Head(first.value.1[1..]) == RBRACKET then None
      else Joined([first.value.0], ParseArguments(first.value.1[1..]))
  {
  }

  lemma BlockStep(toks: seq<Token>, stop: Kind)
    ensures Head(toks) == stop ==> ParseBlock(toks, stop) == Some(([], toks))
    ensures Head(toks) != stop && toks != [] && Head(toks) == NEWLINE ==> ParseBlock(toks, stop) == ParseBlock(toks[1..], stop)
    ensures Head(toks) != stop && Head(toks) == DEDENT ==> ParseBlock(toks, stop) == None
    ensures Head(toks) != stop && toks != [] && Head(toks) != NEWLINE && Head(toks) != DEDENT ==>
              ParseBlock(toks, stop) == if ParseStatement(toks).None? then None
                                        else Joined([ParseStatement(toks).value.0], ParseBlock(ParseStatement(toks).value.1, stop))
  {
    hide ParseStatement;
  }
}
