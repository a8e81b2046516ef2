/** Printing a syntax tree as tokens, and the parser as its inverse. */
module CltRender {
  import opened Results
  import opened CltSyntax
  import opened CltParser
  import Text

  /** How the lexer classifies a bare word; `isIp` stands for the address parser of the standard library. */
  function WordKind(isIp: string -> bool, word: string): Kind {
    if Text.IsDigits(word) then NUMBER else if isIp(word) then IP_ADDRESS else IDENTIFIER
  }

  function WordToken(isIp: string -> bool, word: string): Token {
    Token(WordKind(isIp, word), word)
  }

  function ValueToken(isIp: string -> bool, v: ValueNode): Token {
    if v.quoted then Token(STRING, v.value) else WordToken(isIp, v.value)
  }

  const NewLine := Token(NEWLINE, "")
  const Indent := Token(INDENT, "")
  const Dedent := Token(DEDENT, "")
  const End := Token(EOF, "")

  predicate IsQuote(c: char) {
    c == '\'' || c == '"'
  }

  predicate WordChar(c: char) {
    !Text.IsSpace(c) && c !in {'[', ']', ',', '=', '#', '-', '>'}
  }

  /** A word that can be written without quotes: it may hold quote characters, but not start with one. */
  predicate BareWord(w: string) {
    w != [] && !IsQuote(w[0]) && forall i :: 0 <= i < |w| ==> WordChar(w[i])
  }

  /** The name of an option, quoted only where it must be. */
  function NameNode(name: string): ValueNode {
    ValueNode(name, !BareWord(name))
  }

  // ---------------------------------------------------------------- rendering

  function PhraseTokens(isIp: string -> bool, phrase: seq<ValueNode>): seq<Token> {
    if phrase == [] then [] else [ValueToken(isIp, phrase[0])] + PhraseTokens(isIp, phrase[1..])
  }

  function ArgumentTokens(isIp: string -> bool, a: ArgumentNode): seq<Token> {
    if a.name == "" then [ValueToken(isIp, a.value)]
    else [ValueToken(isIp, NameNode(a.name)), Token(EQUALS, "="), ValueToken(isIp, a.value)]
  }

  function ArgumentsTokens(isIp: string -> bool, args: seq<ArgumentNode>): seq<Token> {
    if args == [] then []
    else ArgumentTokens(isIp, args[0]) + (if |args| > 1 then [Token(COMMA, ",")] + ArgumentsTokens(isIp, args[1..]) else [])
  }

  function InputTokens(isIp: string -> bool, args: seq<ArgumentNode>): seq<Token> {
    if args == [] then [] else [Token(LBRACKET, "[")] + ArgumentsTokens(isIp, args) + [Token(RBRACKET, "]")]
  }

  /** The first line of a statement. */
  function HeadTokens(isIp: string -> bool, n: Node): seq<Token> {
    match n
    case Assignment(name, value) => [WordToken(isIp, name), Token(EQUALS, "="), ValueToken(isIp, value)]
    case Operation(name, args, _) => [WordToken(isIp, name)] + InputTokens(isIp, args)
    case Flow(phrase) => [Token(ARROW, "->")] + PhraseTokens(isIp, phrase)
    case Conditional(phrase, _, _) => [WordToken(isIp, "if")] + PhraseTokens(isIp, phrase)
  }

  function NestedTokens(isIp: string -> bool, body: seq<Node>): seq<Token>
    decreases BlockSize(body), 1
  {
    [Indent] + BlockTokens(isIp, body) + [Dedent]
  }

  function NodeTokens(isIp: string -> bool, n: Node): seq<Token>
    decreases Size(n), 0
  {
    HeadTokens(isIp, n) + [NewLine] +
    match n
    case Operation(_, _, body) => if body == [] then [] else NestedTokens(isIp, body)
    case Conditional(_, body, elseBody) =>
      NestedTokens(isIp, body) +
      if elseBody == [] then [] else [WordToken(isIp, "else"), NewLine] + NestedTokens(isIp, elseBody)
    case _ => []
  }

  function BlockTokens(isIp: string -> bool, block: seq<Node>): seq<Token>
    decreases BlockSize(block), 0
  {
    if block == [] then [] else NodeTokens(isIp, block[0]) + BlockTokens(isIp, block[1..])
  }

  // ---------------------------------------------------------------- well-formed trees

  /** A name that starts a statement and is read as a name. */
  predicate IsName(isIp: string -> bool, name: string) {
    WordKind(isIp, name) == IDENTIFIER && Text.Lower(name) != "if" && Text.Lower(name) != "else"
  }

  predicate WellFormed(isIp: string -> bool, n: Node)
    decreases Size(n)
  {
    match n
    case Assignment(name, _) => IsName(isIp, name)
    case Operation(name, _, body) => IsName(isIp, name) && WellFormedBlock(isIp, body)
    case Flow(phrase) => phrase != []
    case Conditional(phrase, body, elseBody) =>
      phrase != [] && body != [] && WellFormedBlock(isIp, body) && WellFormedBlock(isIp, elseBody)
  }

  predicate WellFormedBlock(isIp: string -> bool, block: seq<Node>)
    decreases BlockSize(block)
  {
    block == [] || (WellFormed(isIp, block[0]) && WellFormedBlock(isIp, block[1..]))
  }

  /** The words the language itself uses are not addresses. */
  predicate Keywords(isIp: string -> bool) {
    !isIp("if") && !isIp("else")
  }

  // ---------------------------------------------------------------- parsing undoes rendering

  lemma ValueBack(isIp: string -> bool, v: ValueNode, post: seq<Token>)
    ensures ParseValue([ValueToken(isIp, v)] + post) == Some((v, post))
    ensures IsValue(ValueToken(isIp, v).kind)
  {
    assert ([ValueToken(isIp, v)] + post)[1..] == post;
  }

  lemma {:induction false} PhraseBack(isIp: string -> bool, phrase: seq<ValueNode>, post: seq<Token>)
    requires Head(post) == NEWLINE
    ensures ParsePhrase(PhraseTokens(isIp, phrase) + post) == Some((phrase, post))
  {
    hide ParseValue, ValueToken;
    if phrase == [] {
      assert PhraseTokens(isIp, phrase) + post == post;
    } else {
      PhraseBack(isIp, phrase[1..], post);
      var toks := PhraseTokens(isIp, phrase) + post;
      assert toks == [ValueToken(isIp, phrase[0])] + (PhraseTokens(isIp, phrase[1..]) + post);
      ValueBack(isIp, phrase[0], PhraseTokens(isIp, phrase[1..]) + post);
      assert phrase == [phrase[0]] + phrase[1..];
    }
  }

  lemma ArgumentBack(isIp: string -> bool, a: ArgumentNode, post: seq<Token>)
    requires post != [] && Head(post) != EQUALS
    ensures ParseArgument(ArgumentTokens(isIp, a) + post) == Some((a, post))
  {
    hide ParseValue, ValueToken;
    var toks := ArgumentTokens(isIp, a) + post;
    ValueBack(isIp, a.value, post);
    if a.name == "" {
      assert toks == [ValueToken(isIp, a.value)] + post;
    } else {
      var rest := [Token(EQUALS, "=")] + ([ValueToken(isIp, a.value)] + post);
      assert toks == [ValueToken(isIp, NameNode(a.name))] + rest;
      ValueBack(isIp, NameNode(a.name), rest);
      assert rest[1..] == [ValueToken(isIp, a.value)] + post;
    }
  }

  lemma ArgumentHead(isIp: string -> bool, a: ArgumentNode, post: seq<Token>)
    ensures ArgumentTokens(isIp, a) != [] && Head(ArgumentTokens(isIp, a) + post) != RBRACKET
  {
    ValueBack(isIp, a.value, []);
    ValueBack(isIp, NameNode(a.name), []);
    hide ValueToken;
  }

  lemma {:induction false} ArgumentsBack(isIp: string -> bool, args: seq<ArgumentNode>, post: seq<Token>)
    requires args != [] && Head(post) == RBRACKET
    ensures ParseArguments(ArgumentsTokens(isIp, args) + post) == Some((args, post))
    ensures Head(ArgumentsTokens(isIp, args) + post) != RBRACKET
  {
    hide ParseArgument, ArgumentTokens;
    var toks, first := ArgumentsTokens(isIp, args) + post, ArgumentTokens(isIp, args[0]);
    if |args| == 1 {
      assert toks == first + post;
      ArgumentHead(isIp, args[0], post);
      ArgumentBack(isIp, args[0], post);
      assert args == [args[0]];
    } else {
      var rest := ArgumentsTokens(isIp, args[1..]) + post;
      var tail := [Token(COMMA, ",")] + rest;
      assert toks == first + tail;
      ArgumentHead(isIp, args[0], tail);
      ArgumentBack(isIp, args[0], tail);
      assert tail[1..] == rest;
      ArgumentsBack(isIp, args[1..], post);
      assert args == [args[0]] + args[1..];
    }
  }

  lemma InputsBack(isIp: string -> bool, args: seq<ArgumentNode>, post: seq<Token>)
    requires Head(post) == NEWLINE
    ensures ParseInputs(InputTokens(isIp, args) + post) == Some((args, post))
  {
    hide ParseArguments, ArgumentsTokens;
    var toks := InputTokens(isIp, args) + post;
    if args == [] {
      assert toks == post;
    } else {
      var close := [Token(RBRACKET, "]")] + post;
      var rest := ArgumentsTokens(isIp, args) + close;
      assert toks == [Token(LBRACKET, "[")] + rest;
      assert toks[1..] == rest;
      ArgumentsBack(isIp, args, close);
      assert close[1..] == post;
    }
  }

  /** What may stand after a statement without being taken for a part of it. */
  predicate Follows(n: Node, post: seq<Token>) {
    && (n.Operation? && n.body == [] ==> Head(post) != INDENT)
    && (n.Conditional? && n.elseBody == [] ==> !IsWord(post, "else"))
  }

  lemma Starts(isIp: string -> bool, n: Node, post: seq<Token>)
    requires WellFormed(isIp, n) && Keywords(isIp)
    ensures var toks := NodeTokens(isIp, n) + post;
            toks != [] && (Head(toks) == IDENTIFIER || Head(toks) == ARROW) && !IsWord(toks, "else")
  {
    assert Text.Lower("if") == "if";
  }

  lemma Regroup(a: seq<Token>, b: seq<Token>, c: seq<Token>, d: seq<Token>, e: seq<Token>, f: seq<Token>)
    ensures ((a + b) + c + (d + e)) + f == a + (b + (c + (d + (e + f))))
    ensures (a + d + e) + f == a + (d + (e + f))
  {
  }

  lemma {:induction false} NestedBack(isIp: string -> bool, body: seq<Node>, post: seq<Token>)
    requires WellFormedBlock(isIp, body) && Keywords(isIp)
    ensures ParseNested(NestedTokens(isIp, body) + post) == Some((body, post))
    decreases BlockSize(body), 1
  {
    hide BlockTokens, ParseBlock, WellFormedBlock;
    var close := [Dedent] + post;
    var rest := BlockTokens(isIp, body) + close;
    var toks := NestedTokens(isIp, body) + post;
    Regroup([Indent], [], [], BlockTokens(isIp, body), [Dedent], post);
    assert toks[1..] == rest && close[1..] == post;
    BlockBack(isIp, body, close, DEDENT);
  }

  lemma {:induction false} BlockBack(isIp: string -> bool, block: seq<Node>, post: seq<Token>, stop: Kind)
    requires WellFormedBlock(isIp, block) && Keywords(isIp)
    requires Head(post) == stop && (stop == DEDENT || stop == EOF)
    ensures ParseBlock(BlockTokens(isIp, block) + post, stop) == Some((block, post))
    decreases BlockSize(block), 0
  {
    hide ParseStatement, NodeTokens, WellFormed, Follows, IsWord;
    if block == [] {
      assert BlockTokens(isIp, block) + post == post;
    } else {
      var rest := BlockTokens(isIp, block[1..]) + post;
      var toks := BlockTokens(isIp, block) + post;
      assert toks == NodeTokens(isIp, block[0]) + rest;
      FollowsBlock(isIp, block, post, stop);
      NodeBack(isIp, block[0], rest);
      Starts(isIp, block[0], rest);
      BlockBack(isIp, block[1..], post, stop);
      assert block == [block[0]] + block[1..];
    }
  }

  lemma FollowsBlock(isIp: string -> bool, block: seq<Node>, post: seq<Token>, stop: Kind)
    requires WellFormedBlock(isIp, block) && Keywords(isIp) && block != []
    requires Head(post) == stop && (stop == DEDENT || stop == EOF)
    ensures Follows(block[0], BlockTokens(isIp, block[1..]) + post)
  {
    var more := block[1..];
    if more == [] {
      assert BlockTokens(isIp, more) + post == post;
    } else {
      var rest := BlockTokens(isIp, more[1..]) + post;
      assert BlockTokens(isIp, more) + post == NodeTokens(isIp, more[0]) + rest;
      Starts(isIp, more[0], rest);
    }
  }

  lemma {:induction false} NodeBack(isIp: string -> bool, n: Node, post: seq<Token>)
    requires WellFormed(isIp, n) && Keywords(isIp) && Follows(n, post)
    ensures ParseStatement(NodeTokens(isIp, n) + post) == Some((n, post))
    decreases Size(n), 0
  {
    match n
    case Assignment(name, value) => AssignmentBack(isIp, n, post);
    case Flow(phrase) => FlowBack(isIp, n, post);
    case Operation(name, args, body) =>
      if body != [] { NestedBack(isIp, body, post); }
      OperationBack(isIp, n, post);
    case Conditional(phrase, body, elseBody) =>
      var otherwise := if elseBody == [] then post else [WordToken(isIp, "else"), NewLine] + (NestedTokens(isIp, elseBody) + post);
      NestedBack(isIp, body, otherwise);
      if elseBody != [] { NestedBack(isIp, elseBody, post); }
      ConditionalBack(isIp, n, post, otherwise);
  }

  lemma AssignmentBack(isIp: string -> bool, n: Node, post: seq<Token>)
    requires n.Assignment? && WellFormed(isIp, n)
    ensures ParseStatement(NodeTokens(isIp, n) + post) == Some((n, post))
  {
    var toks := NodeTokens(isIp, n) + post;
    assert toks[2..] == [ValueToken(isIp, n.value)] + ([NewLine] + post);
    assert ParseValue(toks[2..]) == Some((n.value, [NewLine] + post));
    assert ([NewLine] + post)[1..] == post;
  }

  lemma FlowBack(isIp: string -> bool, n: Node, post: seq<Token>)
    requires n.Flow? && WellFormed(isIp, n)
    ensures ParseStatement(NodeTokens(isIp, n) + post) == Some((n, post))
  {
    var toks := NodeTokens(isIp, n) + post;
    assert toks[1..] == PhraseTokens(isIp, n.phrase) + ([NewLine] + post);
    PhraseBack(isIp, n.phrase, [NewLine] + post);
    assert ([NewLine] + post)[1..] == post;
  }

  lemma OperationBack(isIp: string -> bool, n: Node, post: seq<Token>)
    requires n.Operation? && WellFormed(isIp, n) && Follows(n, post)
    requires n.body != [] ==> ParseNested(NestedTokens(isIp, n.body) + post) == Some((n.body, post))
    ensures ParseStatement(NodeTokens(isIp, n) + post) == Some((n, post))
  {
    hide ParseNested, ParseInputs, InputTokens, NestedTokens, Follows;
    var toks := NodeTokens(isIp, n) + post;
    var nested := if n.body == [] then post else NestedTokens(isIp, n.body) + post;
    var line := [NewLine] + nested;
    assert toks[1..] == InputTokens(isIp, n.arguments) + line;
    InputsBack(isIp, n.arguments, line);
    NotEquals(isIp, n.arguments, line);
    assert line[1..] == nested;
    HeadOfBody(isIp, n, post);
  }

  lemma HeadOfBody(isIp: string -> bool, n: Node, post: seq<Token>)
    requires n.Operation? && Follows(n, post)
    ensures Head(if n.body == [] then post else NestedTokens(isIp, n.body) + post) == INDENT <==> n.body != []
  {
  }

  lemma NotEquals(isIp: string -> bool, args: seq<ArgumentNode>, post: seq<Token>)
    requires Head(post) == NEWLINE
    ensures Head(InputTokens(isIp, args) + post) != EQUALS
  {
    assert args == [] ==> InputTokens(isIp, args) + post == post;
  }

  lemma ConditionalBack(isIp: string -> bool, n: Node, post: seq<Token>, otherwise: seq<Token>)
    requires n.Conditional? && WellFormed(isIp, n) && Keywords(isIp) && Follows(n, post)
    requires otherwise == if n.elseBody == [] then post else [WordToken(isIp, "else"), NewLine] + (NestedTokens(isIp, n.elseBody) + post)
    requires ParseNested(NestedTokens(isIp, n.body) + otherwise) == Some((n.body, otherwise))
    requires n.elseBody != [] ==> ParseNested(NestedTokens(isIp, n.elseBody) + post) == Some((n.elseBody, post))
    ensures ParseStatement(NodeTokens(isIp, n) + post) == Some((n, post))
  {
    hide ParseNested, NestedTokens, ParseIf, ParseElse, ParsePhrase, PhraseTokens, Follows, NodeTokens;
    assert Text.Lower("if") == "if";
    var toks := NodeTokens(isIp, n) + post;
    var line := [NewLine] + (NestedTokens(isIp, n.body) + otherwise);
    ConditionalTokens(isIp, n, post, otherwise);
    assert toks[1..] == PhraseTokens(isIp, n.phrase) + line;
    PhraseBack(isIp, n.phrase, line);
    assert line[1..] == NestedTokens(isIp, n.body) + otherwise;
    ElseBack(isIp, n, post, otherwise);
    IfBack(toks[1..], n, line, otherwise, post);
  }

  lemma ConditionalTokens(isIp: string -> bool, n: Node, post: seq<Token>, otherwise: seq<Token>)
    requires n.Conditional?
    requires otherwise == if n.elseBody == [] then post else [WordToken(isIp, "else"), NewLine] + (NestedTokens(isIp, n.elseBody) + post)
    ensures NodeTokens(isIp, n) + post
         == [WordToken(isIp, "if")] + (PhraseTokens(isIp, n.phrase) + ([NewLine] + (NestedTokens(isIp, n.body) + otherwise)))
  {
    hide NestedTokens, PhraseTokens;
    var tail := if n.elseBody == [] then [] else [WordToken(isIp, "else"), NewLine] + NestedTokens(isIp, n.elseBody);
    assert tail + post == otherwise;
    Regroup([WordToken(isIp, "if")], PhraseTokens(isIp, n.phrase), [NewLine], NestedTokens(isIp, n.body), tail, post);
  }

  lemma IfBack(toks: seq<Token>, n: Node, line: seq<Token>, otherwise: seq<Token>, post: seq<Token>)
    requires n.Conditional? && n.phrase != [] && n.body != [] && line != [] && Head(line) == NEWLINE
    requires ParsePhrase(toks) == Some((n.phrase, line)) && ParseNested(line[1..]) == Some((n.body, otherwise))
    requires ParseElse(otherwise) == Some((n.elseBody, post))
    ensures ParseIf(toks) == Some((n, post))
  {
    hide ParseNested, ParsePhrase, ParseElse;
  }

  lemma ElseBack(isIp: string -> bool, n: Node, post: seq<Token>, otherwise: seq<Token>)
    requires n.Conditional? && Keywords(isIp) && Follows(n, post)
    requires otherwise == if n.elseBody == [] then post else [WordToken(isIp, "else"), NewLine] + (NestedTokens(isIp, n.elseBody) + post)
    requires n.elseBody != [] ==> ParseNested(NestedTokens(isIp, n.elseBody) + post) == Some((n.elseBody, post))
    ensures ParseElse(otherwise) == Some((n.elseBody, post))
  {
    hide ParseNested, NestedTokens, NodeTokens, BlockTokens;
    assert Text.Lower("else") == "else";
    if n.elseBody != [] {
      assert otherwise[1..] == [NewLine] + (NestedTokens(isIp, n.elseBody) + post);
      assert otherwise[1..][1..] == NestedTokens(isIp, n.elseBody) + post;
    }
  }

  /** Parsing the tokens of a well-formed module gives back the module, with no token left. */
  lemma ParseRendered(isIp: string -> bool, block: seq<Node>)
    requires WellFormedBlock(isIp, block) && Keywords(isIp)
    ensures Parse(BlockTokens(isIp, block) + [End]) == Some((block, []))
  {
    BlockBack(isIp, block, [End], EOF);
  }
}
