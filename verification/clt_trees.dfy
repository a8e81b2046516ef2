/** What every parsed tree satisfies, and so what validation can rely on. */
module CltTrees {
  import opened Results
  import opened CltSyntax
  import opened CltParser
  import opened CltNormalize
  import opened CltCompile

  /** Phrases and the blocks of conditions are never empty. */
  predicate Filled(n: Node)
    decreases Size(n)
  {
    match n
    case Assignment(_, _) => true
    case Operation(_, _, body) => FilledBlock(body)
    case Flow(phrase) => phrase != []
    case Conditional(phrase, body, elseBody) => phrase != [] && body != [] && FilledBlock(body) && FilledBlock(elseBody)
  }

  predicate FilledBlock(block: seq<Node>)
    decreases BlockSize(block)
  {
    block == [] || (Filled(block[0]) && FilledBlock(block[1..]))
  }

  lemma {:induction false} BlockIsFilled(toks: seq<Token>, stop: Kind)
    ensures ParseBlock(toks, stop).Some? ==> FilledBlock(ParseBlock(toks, stop).value.0)
    decreases |toks|, 1
  {
    hide ParseStatement;
    if Head(toks) == stop {
    } else if toks != [] && toks[0].kind == NEWLINE {
      BlockIsFilled(toks[1..], stop);
    } else {
      StatementIsFilled(toks);
      var first := ParseStatement(toks);
      if first.Some? { BlockIsFilled(first.value.1, stop); }
    }
  }

  lemma {:induction false} NestedIsFilled(toks: seq<Token>)
    ensures ParseNested(toks).Some? ==> FilledBlock(ParseNested(toks).value.0)
    decreases |toks|, 0
  {
    hide ParseBlock;
    var open := After(toks, INDENT);
    if open.Some? { BlockIsFilled(open.value, DEDENT); }
  }

  lemma {:induction false} StatementIsFilled(toks: seq<Token>)
    ensures ParseStatement(toks).Some? ==> Filled(ParseStatement(toks).value.0)
    decreases |toks|, 0
  {
    hide ParsePhrase, ParseIf, ParseOperation, ParseInputs;
    if toks != [] {
      IfIsFilled(toks[1..]);
      OperationIsFilled(toks[0].value, toks[1..]);
    }
  }

  lemma {:induction false} OperationIsFilled(name: string, toks: seq<Token>)
    ensures ParseOperation(name, toks).Some? ==> Filled(ParseOperation(name, toks).value.0)
    decreases |toks|, 1
  {
    hide ParseNested, ParseInputs;
    var args := ParseInputs(toks);
    if args.Some? {
      var end := After(args.value.1, NEWLINE);
      if end.Some? { NestedIsFilled(end.value); }
    }
  }

  lemma {:induction false} IfIsFilled(toks: seq<Token>)
    ensures ParseIf(toks).Some? ==> Filled(ParseIf(toks).value.0)
    decreases |toks|, 1
  {
    hide ParseNested, ParsePhrase, ParseElse;
    var phrase := ParsePhrase(toks);
    if phrase.Some? {
      var end := After(phrase.value.1, NEWLINE);
      if end.Some? {
        NestedIsFilled(end.value);
        var body := ParseRequired(end.value);
        if body.Some? { ElseIsFilled(body.value.1); }
      }
    }
  }

  lemma {:induction false} ElseIsFilled(toks: seq<Token>)
    ensures ParseElse(toks).Some? ==> FilledBlock(ParseElse(toks).value.0)
    decreases |toks|, 1
  {
    hide ParseNested;
    if toks != [] {
      var end := After(toks[1..], NEWLINE);
      if end.Some? { NestedIsFilled(end.value); }
    }
  }

  /** Validating a filled tree never looks at an empty phrase. */
  lemma {:induction false} NoEmptyPhrase(v: Vocabulary, n: Node)
    requires Filled(n)
    ensures Validate(v, n) != Some(BadPhrase(EmptyPhrase))
    decreases Size(n)
  {
    match n
    case Assignment(_, _) =>
    case Operation(_, _, body) => NoEmptyPhraseIn(v, body);
    case Flow(phrase) => PhraseIsThere(v, phrase);
    case Conditional(phrase, body, elseBody) =>
      hide NormalizeCondition;
      PhraseIsThere(v, phrase);
      NoEmptyPhraseIn(v, body);
      NoEmptyPhraseIn(v, elseBody);
  }

  lemma {:induction false} NoEmptyPhraseIn(v: Vocabulary, block: seq<Node>)
    requires FilledBlock(block)
    ensures ValidateBlock(v, block) != Some(BadPhrase(EmptyPhrase))
    decreases BlockSize(block)
  {
    if block != [] {
      NoEmptyPhrase(v, block[0]);
      NoEmptyPhraseIn(v, block[1..]);
    }
  }

  lemma PhraseIsThere(v: Vocabulary, phrase: seq<ValueNode>)
    requires phrase != []
    ensures NormalizeCondition(v, phrase) != Err(EmptyPhrase) && NormalizeAction(v, phrase) != Err(EmptyPhrase)
  {
  }

  /** The front end never takes the first word of an empty phrase, whatever the source. */
  lemma ParsedSourceHasPhrases(v: Vocabulary, toks: seq<Token>)
    requires Parse(toks).Some?
    ensures FilledBlock(Parse(toks).value.0)
    ensures ValidateBlock(v, Parse(toks).value.0) != Some(BadPhrase(EmptyPhrase))
  {
    BlockIsFilled(toks, EOF);
    NoEmptyPhraseIn(v, Parse(toks).value.0);
  }
}
