/** Printing tokens and syntax trees as text: lexing what was printed gives the tokens back. */
module CltPrint {
  import opened Results
  import opened CltSyntax
  import opened CltRender
  import opened CltLexer
  import opened CltScanner
  import Text

  // ---------------------------------------------------------------- the text of a token

  function EscapeChar(c: char): string {
    if c == '"' || c == '\\' then ['\\', c] else [c]
  }

  function Escape(v: string): string {
    if v == [] then [] else EscapeChar(v[0]) + Escape(v[1..])
  }

  function TokenText(t: Token): string {
    if t.kind == STRING then "\"" + Escape(t.value) + "\"" else t.value
  }

  /** A token as a line may hold it, written the way it is read. */
  predicate Printable(isIp: string -> bool, t: Token) {
    match t.kind
    case STRING => true
    case ARROW => t.value == "->"
    case EQUALS => t.value == "="
    case LBRACKET => t.value == "["
    case RBRACKET => t.value == "]"
    case COMMA => t.value == ","
    case IDENTIFIER => BareWord(t.value) && t == WordToken(isIp, t.value)
    case NUMBER => BareWord(t.value) && t == WordToken(isIp, t.value)
    case IP_ADDRESS => BareWord(t.value) && t == WordToken(isIp, t.value)
    case _ => false
  }

  predicate AllPrintable(isIp: string -> bool, toks: seq<Token>) {
    forall k :: 0 <= k < |toks| ==> Printable(isIp, toks[k])
  }

  /** Tokens with one blank between them. */
  function LineText(toks: seq<Token>): string
    decreases |toks|, 0
  {
    if toks == [] then [] else TokenText(toks[0]) + Spaced(toks[1..])
  }

  function Spaced(toks: seq<Token>): string
    decreases |toks|, 1
  {
    if toks == [] then [] else " " + LineText(toks)
  }

  // ---------------------------------------------------------------- strings survive

  lemma ReadChar(c: char, rest: string)
    ensures ReadString(EscapeChar(c) + rest, '"', false) == Appended([c], ReadString(rest, '"', false))
  {
    var s := EscapeChar(c) + rest;
    if c == '"' || c == '\\' {
      assert s[1..] == [c] + rest && s[1..][1..] == rest;
    } else {
      assert s[1..] == rest;
    }
  }

  lemma EscapeStep(v: string, close: string)
    ensures v == [] ==> Escape(v) + close == close
    ensures v != [] ==> Escape(v) + close == EscapeChar(v[0]) + (Escape(v[1..]) + close) && v == [v[0]] + v[1..]
  {
    hide EscapeChar;
  }

  lemma LiteralEnds(post: string)
    ensures ReadString("\"" + post, '"', false) == Some(([], post))
  {
    assert ("\"" + post)[1..] == post;
  }

  /** Reading an escaped literal gives its value, whatever characters it holds. */
  lemma {:induction false} ReadBack(v: string, post: string)
    ensures ReadString(Escape(v) + ("\"" + post), '"', false) == Some((v, post))
  {
    hide ReadString, Escape, EscapeChar;
    var close := "\"" + post;
    EscapeStep(v, close);
    LiteralEnds(post);
    if v != [] {
      ReadBack(v[1..], post);
      ReadChar(v[0], Escape(v[1..]) + close);
    }
  }

  // ---------------------------------------------------------------- one token

  lemma {:induction false} WordEnds(w: string, post: string)
    requires forall i :: 0 <= i < |w| ==> WordChar(w[i])
    requires post == [] || post[0] == ' '
    ensures WordLength(w + post) == |w|
  {
    if w != [] {
      WordEnds(w[1..], post);
      assert (w + post)[1..] == w[1..] + post;
      assert WordChar(w[0]);
    }
  }

  lemma WordBack(isIp: string -> bool, w: string, post: string)
    requires BareWord(w) && (post == [] || post[0] == ' ')
    ensures ScanOne(isIp, w + post) == Ok(Scanned([WordToken(isIp, w)], |w|))
  {
    WordEnds(w, post);
    var s := w + post;
    assert WordChar(w[0]) && s[0] == w[0] && s[..|w|] == w;
  }

  lemma StringBack(isIp: string -> bool, v: string, post: string)
    ensures var text := TokenText(Token(STRING, v));
            ScanOne(isIp, text + post) == Ok(Scanned([Token(STRING, v)], |text|))
  {
    var text := TokenText(Token(STRING, v));
    var s := text + post;
    assert s[1..] == Escape(v) + ("\"" + post);
    ReadBack(v, post);
    assert s[0] == '"' && !Text.IsSpace('"') && !("->" <= s);
  }

  lemma SignBack(isIp: string -> bool, t: Token, post: string)
    requires Printable(isIp, t) && t.kind in {ARROW, EQUALS, LBRACKET, RBRACKET, COMMA}
    ensures ScanOne(isIp, t.value + post) == Ok(Scanned([t], |t.value|))
  {
    var s := t.value + post;
    assert s[0] == t.value[0];
    if t.kind == ARROW { assert s[..2] == "->"; }
  }

  /** Scanning the text of a token gives the token. */
  lemma TokenBack(isIp: string -> bool, t: Token, post: string)
    requires Printable(isIp, t) && (post == [] || post[0] == ' ')
    ensures ScanOne(isIp, TokenText(t) + post) == Ok(Scanned([t], |TokenText(t)|))
  {
    hide ScanOne;
    if t.kind == STRING {
      StringBack(isIp, t.value, post);
    } else if t.kind in {ARROW, EQUALS, LBRACKET, RBRACKET, COMMA} {
      SignBack(isIp, t, post);
    } else {
      WordBack(isIp, t.value, post);
    }
  }

  lemma SomeText(isIp: string -> bool, t: Token)
    requires Printable(isIp, t)
    ensures TokenText(t) != [] && !Text.IsSpace(TokenText(t)[0])
  {
    if t.kind in {IDENTIFIER, NUMBER, IP_ADDRESS} { assert WordChar(t.value[0]); }
  }

  /** Lexing the text of printable tokens gives the tokens. */
  lemma {:induction false} LineBack(isIp: string -> bool, toks: seq<Token>)
    requires AllPrintable(isIp, toks)
    ensures LexText(isIp, LineText(toks)) == Ok(toks)
    decreases |toks|
  {
    hide ScanOne, TokenText;
    if toks != [] {
      var text, post := TokenText(toks[0]), Spaced(toks[1..]);
      TokenBack(isIp, toks[0], post);
      SomeText(isIp, toks[0]);
      var s := text + post;
      assert s[|text|..] == post;
      assert AllPrintable(isIp, toks[1..]);
      LineBack(isIp, toks[1..]);
      SpacedBack(isIp, toks[1..]);
      assert toks == [toks[0]] + toks[1..];
    }
  }

  lemma SpacedBack(isIp: string -> bool, toks: seq<Token>)
    requires LexText(isIp, LineText(toks)) == Ok(toks)
    ensures LexText(isIp, Spaced(toks)) == Ok(toks)
  {
    if toks != [] {
      var s := Spaced(toks);
      assert s[0] == ' ' && s[1..] == LineText(toks);
      assert ScanOne(isIp, s) == Ok(Scanned([], 1));
      BlankPrepends(Ok(toks));
    }
  }

  // ---------------------------------------------------------------- one line

  function Spaces(n: nat): (s: string)
    ensures |s| == n && forall i :: 0 <= i < n ==> s[i] == ' '
  {
    if n == 0 then [] else " " + Spaces(n - 1)
  }

  function Line(depth: nat, toks: seq<Token>): string {
    Spaces(4 * depth) + LineText(toks)
  }

  lemma {:induction false} SpacesLead(n: nat, text: string)
    requires text != [] && !Text.IsSpace(text[0])
    ensures LeadingSpaces(Spaces(n) + text) == n && LeadingBlanks(Spaces(n) + text) == n
  {
    if n > 0 {
      assert (Spaces(n) + text)[1..] == Spaces(n - 1) + text;
      SpacesLead(n - 1, text);
    }
  }

  function Opening(d: nat, k: nat): seq<Token> {
    if k > d then [Indent] else Dedents(d - k)
  }

  /** A printed line gives the indentation tokens and its own. */
  lemma LexPrinted(isIp: string -> bool, k: nat, toks: seq<Token>, d: nat)
    requires AllPrintable(isIp, toks) && toks != [] && k <= d + 1
    ensures LexStripped(isIp, Line(k, toks), Stack(d)) == Ok(Indented(Opening(d, k) + toks + [NewLine], Stack(k)))
  {
    hide LexText, Reindent, TokenText;
    var line, text := Line(k, toks), LineText(toks);
    LineBack(isIp, toks);
    SomeText(isIp, toks[0]);
    assert text[0] == TokenText(toks[0])[0];
    SpacesLead(4 * k, text);
    assert line[4 * k..] == text;
    assert line[4 * k] == text[0];
    ReindentTo(d, k);
  }

  /** The tokens of lines whose comments have been removed. */
  function LexContents(isIp: string -> bool, contents: seq<string>, indents: seq<nat>): Result<seq<Token>, LexError>
    requires IsStack(indents)
  {
    if contents == [] then Ok(Dedents(|indents| - 1) + [End])
    else
      var first := LexStripped(isIp, contents[0], indents);
      if first.Err? then Err(first.error) else Prepend(first.value.tokens, LexContents(isIp, contents[1..], first.value.indents))
  }

  // ---------------------------------------------------------------- whole trees

  function NodeLines(isIp: string -> bool, n: Node, depth: nat): seq<string>
    decreases Size(n)
  {
    [Line(depth, HeadTokens(isIp, n))] +
    match n
    case Operation(_, _, body) => BlockLines(isIp, body, depth + 1)
    case Conditional(_, body, elseBody) =>
      BlockLines(isIp, body, depth + 1) +
      if elseBody == [] then [] else [Line(depth, [WordToken(isIp, "else")])] + BlockLines(isIp, elseBody, depth + 1)
    case _ => []
  }

  /** A block as source lines, four spaces for each level. */
  function BlockLines(isIp: string -> bool, block: seq<Node>, depth: nat): seq<string>
    decreases BlockSize(block)
  {
    if block == [] then [] else NodeLines(isIp, block[0], depth) + BlockLines(isIp, block[1..], depth)
  }

  /** An unquoted value is a word of the given kind. */
  predicate WritableValue(ok: string -> bool, v: ValueNode) {
    v.quoted || ok(v.value)
  }

  predicate WritablePhrase(ok: string -> bool, phrase: seq<ValueNode>) {
    forall k :: 0 <= k < |phrase| ==> WritableValue(ok, phrase[k])
  }

  predicate WritableArguments(ok: string -> bool, args: seq<ArgumentNode>) {
    forall k :: 0 <= k < |args| ==> WritableValue(ok, args[k].value) && WritableValue(ok, NameNode(args[k].name))
  }

  /** Every name and every unquoted value of the tree is a word of the given kind. */
  predicate Writable(ok: string -> bool, n: Node)
    decreases Size(n)
  {
    match n
    case Assignment(name, value) => ok(name) && WritableValue(ok, value)
    case Operation(name, args, body) => ok(name) && WritableArguments(ok, args) && WritableBlock(ok, body)
    case Flow(phrase) => WritablePhrase(ok, phrase)
    case Conditional(phrase, body, elseBody) =>
      WritablePhrase(ok, phrase) && body != [] && WritableBlock(ok, body) && WritableBlock(ok, elseBody)
  }

  predicate WritableBlock(ok: string -> bool, block: seq<Node>)
    decreases BlockSize(block)
  {
    block == [] || (Writable(ok, block[0]) && WritableBlock(ok, block[1..]))
  }

  lemma {:induction false} PhrasePrintable(isIp: string -> bool, phrase: seq<ValueNode>)
    requires WritablePhrase(BareWord, phrase)
    ensures AllPrintable(isIp, PhraseTokens(isIp, phrase))
  {
    if phrase != [] {
      assert WritablePhrase(BareWord, phrase[1..]);
      PhrasePrintable(isIp, phrase[1..]);
    }
  }

  lemma {:induction false} ArgumentsPrintable(isIp: string -> bool, args: seq<ArgumentNode>)
    requires WritableArguments(BareWord, args)
    ensures AllPrintable(isIp, ArgumentsTokens(isIp, args))
  {
    if args != [] {
      ArgumentsPrintable(isIp, args[1..]);
      ArgumentPrintable(isIp, args[0]);
      hide Printable;
      CommaPrintable(isIp);
    }
  }

  lemma CommaPrintable(isIp: string -> bool)
    ensures Printable(isIp, Token(COMMA, ",")) && Printable(isIp, Token(LBRACKET, "[")) && Printable(isIp, Token(RBRACKET, "]"))
  {
  }

  lemma ArgumentPrintable(isIp: string -> bool, a: ArgumentNode)
    requires WritableValue(BareWord, a.value)
    ensures AllPrintable(isIp, ArgumentTokens(isIp, a))
  {
  }

  lemma HeadPrintable(isIp: string -> bool, n: Node)
    requires Writable(BareWord, n)
    ensures AllPrintable(isIp, HeadTokens(isIp, n)) && HeadTokens(isIp, n) != []
  {
    match n
    case Assignment(_, _) =>
    case Operation(_, args, _) =>
      ArgumentsPrintable(isIp, args);
      CommaPrintable(isIp);
    case Flow(phrase) => PhrasePrintable(isIp, phrase);
    case Conditional(phrase, _, _) =>
      PhrasePrintable(isIp, phrase);
      KeywordsPrintable(isIp);
  }

  lemma KeywordsPrintable(isIp: string -> bool)
    ensures AllPrintable(isIp, [WordToken(isIp, "if")]) && AllPrintable(isIp, [WordToken(isIp, "else")])
  {
    assert BareWord("if") && BareWord("else");
  }

  /** The lines end here, or go on with a printed line no deeper than d. */
  ghost predicate Outside(isIp: string -> bool, lines: seq<string>, d: nat) {
    lines == [] || PrintedAt(isIp, lines[0], d)
  }

  ghost predicate PrintedAt(isIp: string -> bool, line: string, d: nat) {
    exists k: nat, toks :: k <= d && toks != [] && AllPrintable(isIp, toks) && line == Line(k, toks)
  }

  lemma LexFirst(isIp: string -> bool, k: nat, toks: seq<Token>, rest: seq<string>, d: nat)
    requires AllPrintable(isIp, toks) && toks != [] && k <= d + 1
    ensures LexContents(isIp, [Line(k, toks)] + rest, Stack(d)) == Prepend(Opening(d, k) + toks + [NewLine], LexContents(isIp, rest, Stack(k)))
  {
    hide LexStripped, LexText, Line, AllPrintable;
    LexPrinted(isIp, k, toks, d);
    assert ([Line(k, toks)] + rest)[1..] == rest;
  }

  lemma {:induction false} DedentsAdd(a: nat, b: nat)
    ensures Dedents(a) + Dedents(b) == Dedents(a + b)
  {
    if a == 0 {
      assert Dedents(0) + Dedents(b) == Dedents(b);
    } else {
      DedentsAdd(a - 1, b);
      assert Dedents(a) + Dedents(b) == [Dedent] + (Dedents(a - 1) + Dedents(b));
    }
  }

  /** Blocks that are still open are closed before the next line outside them. */
  lemma Pending(isIp: string -> bool, lines: seq<string>, e: nat, d: nat)
    requires d <= e && Outside(isIp, lines, d)
    ensures LexContents(isIp, lines, Stack(e)) == Prepend(Dedents(e - d), LexContents(isIp, lines, Stack(d)))
  {
    hide LexStripped, AllPrintable, Line, Dedents, Stack;
    if lines == [] {
      DedentsAdd(e - d, d);
      assert Dedents(e) + [End] == Dedents(e - d) + (Dedents(d) + [End]);
    } else {
      var k: nat, toks :| k <= d && toks != [] && AllPrintable(isIp, toks) && lines[0] == Line(k, toks);
      assert lines == [Line(k, toks)] + lines[1..];
      LexFirst(isIp, k, toks, lines[1..], e);
      LexFirst(isIp, k, toks, lines[1..], d);
      DedentsAdd(e - d, d - k);
      assert Dedents(e - k) + toks + [NewLine] == Dedents(e - d) + (Dedents(d - k) + toks + [NewLine]);
      hide LexContents;
      PrependMore(Dedents(e - d), Dedents(d - k) + toks + [NewLine], LexContents(isIp, lines[1..], Stack(k)));
    }
  }

  lemma FirstOfNode(isIp: string -> bool, n: Node, d: nat)
    ensures NodeLines(isIp, n, d) != [] && NodeLines(isIp, n, d)[0] == Line(d, HeadTokens(isIp, n))
  {
    hide BlockLines, HeadTokens, Line;
  }

  lemma BlockLinesStep(isIp: string -> bool, block: seq<Node>, d: nat)
    requires block != []
    ensures BlockLines(isIp, block, d) == NodeLines(isIp, block[0], d) + BlockLines(isIp, block[1..], d)
  {
    hide NodeLines;
  }

  lemma FirstOfBlock(isIp: string -> bool, block: seq<Node>, d: nat, more: seq<string>)
    requires WritableBlock(BareWord, block) && block != []
    ensures var lines := BlockLines(isIp, block, d) + more;
            lines != [] && lines[0] == Line(d, HeadTokens(isIp, block[0])) && PrintedAt(isIp, lines[0], d)
  {
    HeadPrintable(isIp, block[0]);
    hide HeadTokens, Line, AllPrintable, Writable, NodeLines, BlockLines;
    FirstOfNode(isIp, block[0], d);
    BlockLinesStep(isIp, block, d);
  }

  lemma {:induction false} BlockLex(isIp: string -> bool, block: seq<Node>, d: nat, more: seq<string>)
    requires WritableBlock(BareWord, block) && Outside(isIp, more, d)
    ensures LexContents(isIp, BlockLines(isIp, block, d) + more, Stack(d)) == Prepend(BlockTokens(isIp, block), LexContents(isIp, more, Stack(d)))
    decreases BlockSize(block), 0
  {
    hide LexContents, NodeLines, NodeTokens, Writable, PrintedAt;
    if block == [] {
      assert BlockLines(isIp, block, d) + more == more;
      BlankPrepends(LexContents(isIp, more, Stack(d)));
    } else {
      var rest := BlockLines(isIp, block[1..], d) + more;
      assert BlockLines(isIp, block, d) + more == NodeLines(isIp, block[0], d) + rest;
      if block[1..] != [] {
        FirstOfBlock(isIp, block[1..], d, more);
      } else {
        assert rest == more;
      }
      NodeLex(isIp, block[0], d, rest);
      BlockLex(isIp, block[1..], d, more);
      PrependMore(NodeTokens(isIp, block[0]), BlockTokens(isIp, block[1..]), LexContents(isIp, more, Stack(d)));
    }
  }

  lemma {:induction false} NestedLex(isIp: string -> bool, body: seq<Node>, d: nat, more: seq<string>)
    requires WritableBlock(BareWord, body) && body != [] && Outside(isIp, more, d)
    ensures LexContents(isIp, BlockLines(isIp, body, d + 1) + more, Stack(d)) == Prepend(NestedTokens(isIp, body), LexContents(isIp, more, Stack(d)))
    decreases BlockSize(body), 1
  {
    var lines := BlockLines(isIp, body, d + 1) + more;
    FirstOfBlock(isIp, body, d + 1, more);
    hide LexContents, BlockLines, BlockTokens, WritableBlock;
    Entering(isIp, body, d, lines);
    Deeper(isIp, more, d);
    BlockLex(isIp, body, d + 1, more);
    Pending(isIp, more, d + 1, d);
    assert Dedents(1) == [Dedent] by { assert Dedents(0) == []; }
    var after := LexContents(isIp, more, Stack(d));
    PrependMore(BlockTokens(isIp, body), [Dedent], after);
    PrependMore([Indent], BlockTokens(isIp, body) + [Dedent], after);
    assert [Indent] + (BlockTokens(isIp, body) + [Dedent]) == NestedTokens(isIp, body);
  }

  lemma Deeper(isIp: string -> bool, lines: seq<string>, d: nat)
    requires Outside(isIp, lines, d)
    ensures Outside(isIp, lines, d + 1)
  {
    hide Line, AllPrintable;
  }

  /** The first line of a nested block opens it. */
  lemma Entering(isIp: string -> bool, body: seq<Node>, d: nat, lines: seq<string>)
    requires WritableBlock(BareWord, body) && body != [] && lines != []
    requires lines[0] == Line(d + 1, HeadTokens(isIp, body[0]))
    ensures LexContents(isIp, lines, Stack(d)) == Prepend([Indent], LexContents(isIp, lines, Stack(d + 1)))
  {
    HeadPrintable(isIp, body[0]);
    hide *;
    assert lines == [lines[0]] + lines[1..];
    EnteringLine(isIp, HeadTokens(isIp, body[0]), lines[1..], d);
  }

  lemma EnteringLine(isIp: string -> bool, toks: seq<Token>, rest: seq<string>, d: nat)
    requires AllPrintable(isIp, toks) && toks != []
    ensures var lines := [Line(d + 1, toks)] + rest;
            LexContents(isIp, lines, Stack(d)) == Prepend([Indent], LexContents(isIp, lines, Stack(d + 1)))
  {
    hide LexContents, Line, AllPrintable, Stack;
    LexFirst(isIp, d + 1, toks, rest, d);
    LexFirst(isIp, d + 1, toks, rest, d + 1);
    assert Opening(d + 1, d + 1) == [] by { assert Dedents(0) == []; }
    var own := [] + toks + [NewLine];
    assert [Indent] + toks + [NewLine] == [Indent] + own;
    PrependMore([Indent], own, LexContents(isIp, rest, Stack(d + 1)));
  }

  lemma NoLines(isIp: string -> bool, d: nat)
    ensures BlockLines(isIp, [], d) == []
  {
  }

  /** The lines of a statement give its tokens, with every block it opens closed before the next statement. */
  lemma {:induction false} NodeLex(isIp: string -> bool, n: Node, d: nat, more: seq<string>)
    requires Writable(BareWord, n) && Outside(isIp, more, d)
    ensures LexContents(isIp, NodeLines(isIp, n, d) + more, Stack(d)) == Prepend(NodeTokens(isIp, n), LexContents(isIp, more, Stack(d)))
    decreases Size(n), 0
  {
    hide LexContents, BlockLines, BlockTokens, HeadTokens, WritableBlock, AllPrintable, Line, Outside, NestedTokens;
    HeadPrintable(isIp, n);
    var head, after := HeadTokens(isIp, n), LexContents(isIp, more, Stack(d));
    var tail := NodeLines(isIp, n, d)[1..];
    assert NodeLines(isIp, n, d) + more == [Line(d, head)] + (tail + more);
    LexFirst(isIp, d, head, tail + more, d);
    assert Opening(d, d) == [] by { assert Dedents(0) == []; }
    assert [] + head + [NewLine] == head + [NewLine];
    match n
    case Operation(_, _, body) =>
      assert tail == BlockLines(isIp, body, d + 1);
      if body == [] {
        NoLines(isIp, d + 1);
        assert tail + more == more;
        assert NodeTokens(isIp, n) == head + [NewLine];
      } else {
        NestedLex(isIp, body, d, more);
        PrependMore(head + [NewLine], NestedTokens(isIp, body), after);
      }
    case Conditional(_, body, elseBody) =>
      ElseLex(isIp, n, d, more);
      var other := ElseLines(isIp, n, d);
      assert tail + more == BlockLines(isIp, body, d + 1) + (other + more);
      NestedLex(isIp, body, d, other + more);
      PrependMore(NestedTokens(isIp, body), ElseTokens(isIp, n), after);
      PrependMore(head + [NewLine], NestedTokens(isIp, body) + ElseTokens(isIp, n), after);
    case _ =>
      assert tail + more == more;
      assert NodeTokens(isIp, n) == head + [NewLine];
  }

  function ElseLines(isIp: string -> bool, n: Node, d: nat): seq<string>
    requires n.Conditional?
  {
    if n.elseBody == [] then [] else [Line(d, [WordToken(isIp, "else")])] + BlockLines(isIp, n.elseBody, d + 1)
  }

  function ElseTokens(isIp: string -> bool, n: Node): seq<Token>
    requires n.Conditional?
  {
    if n.elseBody == [] then [] else [WordToken(isIp, "else"), NewLine] + NestedTokens(isIp, n.elseBody)
  }

  lemma {:induction false} ElseLex(isIp: string -> bool, n: Node, d: nat, more: seq<string>)
    requires n.Conditional? && WritableBlock(BareWord, n.elseBody) && Outside(isIp, more, d)
    ensures Outside(isIp, ElseLines(isIp, n, d) + more, d)
    ensures LexContents(isIp, ElseLines(isIp, n, d) + more, Stack(d)) == Prepend(ElseTokens(isIp, n), LexContents(isIp, more, Stack(d)))
    decreases BlockSize(n.elseBody), 2
  {
    hide LexContents, BlockLines, BlockTokens, WritableBlock, AllPrintable, Line, NestedTokens;
    var after := LexContents(isIp, more, Stack(d));
    if n.elseBody == [] {
      assert ElseLines(isIp, n, d) + more == more;
      BlankPrepends(after);
    } else {
      var word := [WordToken(isIp, "else")];
      var rest := BlockLines(isIp, n.elseBody, d + 1) + more;
      assert ElseLines(isIp, n, d) + more == [Line(d, word)] + rest;
      KeywordsPrintable(isIp);
      LexFirst(isIp, d, word, rest, d);
      assert Opening(d, d) == [] by { assert Dedents(0) == []; }
      assert [] + word + [NewLine] == [WordToken(isIp, "else"), NewLine];
      NestedLex(isIp, n.elseBody, d, more);
      PrependMore([WordToken(isIp, "else"), NewLine], NestedTokens(isIp, n.elseBody), after);
    }
  }
}
