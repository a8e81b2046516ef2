/** Printing a syntax tree as source lines: lexing and parsing them gives the tree back, or the lexer refuses them. */
module CltRoundTrip {
  import opened Results
  import opened CltSyntax
  import opened CltParser
  import opened CltRender
  import opened CltLexer
  import opened CltScanner
  import opened CltPrint
  import opened CltComments
  import Text

  // ---------------------------------------------------------------- which words can be written without quotes

  lemma {:induction false} WordLengthAll(w: string)
    requires forall i :: 0 <= i < |w| ==> WordChar(w[i])
    ensures WordLength(w) == |w|
  {
    if w != [] { WordLengthAll(w[1..]); }
  }

  predicate IsWordKind(kind: Kind) {
    kind == IDENTIFIER || kind == NUMBER || kind == IP_ADDRESS
  }

  /** A word token is never longer than the text it was read from, and equal to it only for a bare word. */
  lemma {:induction false} WordTokens(isIp: string -> bool, s: string)
    requires LexText(isIp, s).Ok?
    ensures forall t :: t in LexText(isIp, s).value && IsWordKind(t.kind) ==> |t.value| <= |s| && (t.value == s ==> BareWord(s))
    decreases |s|
  {
    hide ReadString;
    if s != [] {
      var first := ScanOne(isIp, s).value;
      var rest := s[first.length..];
      WordTokens(isIp, rest);
      forall t | t in LexText(isIp, s).value && IsWordKind(t.kind) ensures |t.value| <= |s| && (t.value == s ==> BareWord(s)) {
        assert t in first.tokens || t in LexText(isIp, rest).value;
      }
    }
  }

  /** The words that the lexer reads back as themselves. */
  lemma BareWordIff(isIp: string -> bool, w: string)
    ensures LexText(isIp, w) == Ok([WordToken(isIp, w)]) <==> BareWord(w)
  {
    if BareWord(w) {
      assert w + [] == w;
      WordBack(isIp, w, []);
      assert w[|w|..] == [];
      assert LexText(isIp, []) == Ok([]);
      assert [WordToken(isIp, w)] + [] == [WordToken(isIp, w)];
    }
    if LexText(isIp, w) == Ok([WordToken(isIp, w)]) {
      WordTokens(isIp, w);
      assert WordToken(isIp, w) in [WordToken(isIp, w)];
    }
  }

  // ---------------------------------------------------------------- a printed line that the comment scanner cuts

  lemma {:induction false} UncommentedIsPrefix(s: string, quote: Option<char>, escaped: bool)
    ensures var kept := Uncommented(s, quote, escaped);
            kept <= s && (kept == s || s[|kept|] == '#')
  {
    if s != [] && !(quote.None? && s[0] == '#') {
      UncommentedIsPrefix(s[1..], NextQuote(s[0], quote, escaped), NextEscape(s[0], quote, escaped));
      assert s == [s[0]] + s[1..];
    }
  }

  /** What was cut stays cut, whatever follows. */
  lemma {:induction false} CutStays(s: string, post: string, quote: Option<char>, escaped: bool)
    requires Uncommented(s, quote, escaped) != s
    ensures Uncommented(s + post, quote, escaped) == Uncommented(s, quote, escaped)
  {
    hide NextQuote, NextEscape;
    assert (s + post)[0] == s[0] && (s + post)[1..] == s[1..] + post && s == [s[0]] + s[1..];
    if !(quote.None? && s[0] == '#') {
      CutStays(s[1..], post, NextQuote(s[0], quote, escaped), NextEscape(s[0], quote, escaped));
    }
  }

  /** A literal that is cut short has no end. */
  lemma {:induction false} CutLiteral(v: string, part: string)
    requires part <= Escape(v)
    ensures ReadString(part, '"', false) == None
  {
    if part != [] {
      var code, rest := EscapeChar(v[0]), Escape(v[1..]);
      assert Escape(v) == code + rest;
      if |part| >= |code| {
        var part' := part[|code|..];
        assert part == code + part' && part' <= rest;
        CutLiteral(v[1..], part');
        ReadChar(v[0], part');
      } else {
        assert part == "\\";
        assert part[1..] == [];
      }
    }
  }

  lemma HashOnlyInLiterals(isIp: string -> bool, t: Token, k: nat)
    requires Printable(isIp, t) && k < |TokenText(t)| && TokenText(t)[k] == '#'
    ensures t.kind == STRING && k > 0 && k <= |Escape(t.value)|
  {
    assert t.kind in {IDENTIFIER, NUMBER, IP_ADDRESS} ==> WordChar(TokenText(t)[k]);
  }

  /** Printed tokens that are cut before a hash sign end in a literal without an end. */
  lemma {:induction false} CutFails(isIp: string -> bool, toks: seq<Token>, part: string)
    requires AllPrintable(isIp, toks)
    requires part <= LineText(toks) && |part| < |LineText(toks)| && LineText(toks)[|part|] == '#'
    ensures LexText(isIp, part) == Err(Unterminated)
    decreases |toks|
  {
    hide ScanOne, TokenText, Printable;
    var text, more := TokenText(toks[0]), Spaced(toks[1..]);
    assert Printable(isIp, toks[0]) && AllPrintable(isIp, toks[1..]);
    if |part| < |text| {
      CutToken(isIp, toks[0], part);
    } else {
      var part' := part[|text|..];
      assert part == text + part' && part' <= more && more[|part'|] == '#';
      assert part' != [] && part'[0] == ' ';
      TokenBack(isIp, toks[0], part');
      SomeText(isIp, toks[0]);
      CutFails(isIp, toks[1..], part'[1..]);
      BlankFirst(isIp, part');
      assert part[|text|..] == part';
    }
  }

  lemma BlankFirst(isIp: string -> bool, s: string)
    requires s != [] && s[0] == ' '
    ensures LexText(isIp, s) == LexText(isIp, s[1..])
  {
    BlankPrepends(LexText(isIp, s[1..]));
  }

  lemma CutToken(isIp: string -> bool, t: Token, part: string)
    requires Printable(isIp, t) && part <= TokenText(t) && |part| < |TokenText(t)| && TokenText(t)[|part|] == '#'
    ensures LexText(isIp, part) == Err(Unterminated)
  {
    HashOnlyInLiterals(isIp, t, |part|);
    PartOfLiteral(t.value, part);
    hide Escape, TokenText, Printable, ReadString;
    CutLiteral(t.value, part[1..]);
    UnendedLiteral(isIp, part);
  }

  lemma PartOfLiteral(v: string, part: string)
    requires part <= "\"" + Escape(v) + "\"" && 0 < |part| <= |Escape(v)|
    ensures part[0] == '"' && part[1..] <= Escape(v)
  {
    hide Escape;
    var text := "\"" + Escape(v) + "\"";
    assert text[1..|part|] == Escape(v)[..|part| - 1];
    assert part == text[..|part|];
  }

  lemma UnendedLiteral(isIp: string -> bool, part: string)
    requires part != [] && part[0] == '"' && ReadString(part[1..], '"', false) == None
    ensures LexText(isIp, part) == Err(Unterminated)
  {
    hide ReadString;
    assert ScanOne(isIp, part) == Err(Unterminated);
  }

  // ---------------------------------------------------------------- printed lines, with or without a comment

  /** The same line, perhaps with blanks and a comment after it. */
  predicate Commented(line': string, line: string) {
    line <= line' && IsTail(line'[|line|..])
  }

  /** A line that ends with its last token. */
  predicate EndsFull(line: string) {
    line != [] && !Text.IsSpace(line[|line| - 1])
  }

  lemma {:induction false} TrimmedFull(line: string, blanks: string)
    requires EndsFull(line) && Blank(blanks)
    ensures Trimmed(line + blanks) == line
    decreases |blanks|
  {
    var s := line + blanks;
    if blanks == [] {
      assert s == line;
    } else {
      assert s[..|s| - 1] == line + blanks[..|blanks| - 1];
      TrimmedFull(line, blanks[..|blanks| - 1]);
    }
  }

  lemma TrimmedKeeps(s: string, k: nat)
    requires k < |s| && !Text.IsSpace(s[k])
    ensures |Trimmed(s)| > k
  {
    var n := |Trimmed(s)|;
    assert forall i :: n <= i < |s| ==> s[i] == s[n..][i - n];
  }

  /** Exactly when the comment scanner gives such a line back as it was printed. */
  lemma SurvivesIff(line': string, line: string)
    requires Commented(line', line) && EndsFull(line)
    ensures Trimmed(Content(line')) == line <==> if Blank(line'[|line|..]) then Content(line) == line else Closed(line)
  {
    hide Trimmed, Closed;
    var tail := line'[|line|..];
    var blanks := Gap(tail);
    var comment, line2 := tail[|blanks|..], line + blanks;
    assert line' == line2 + comment && (comment == [] <==> Blank(tail));
    if Content(line) != line {
      CutStays(line, tail, None, false);
      assert line' == line + tail;
      UncommentedIsPrefix(line, None, false);
      CutIsShort(line);
    } else {
      BlanksAfter(line, blanks);
      TrimmedFull(line, blanks);
      if comment == [] {
        assert line' == line2;
      } else {
        CommentIsCutIff(line2, comment);
        if ScanState(line2, None, false).0 != None {
          var kept :| kept != [] && kept[0] == '#' && Content(line') == line2 + kept;
          TrimmedKeeps(line2 + kept, |line2|);
        }
      }
      IsClosed(line);
    }
  }

  lemma IsClosed(line: string)
    ensures Closed(line) <==> Content(line) == line && ScanState(line, None, false).0 == None
  {
  }

  lemma CutIsShort(line: string)
    requires Content(line) != line
    ensures Trimmed(Content(line)) != line && !Closed(line)
  {
    UncommentedIsPrefix(line, None, false);
  }

  lemma {:induction false} TextEnds(isIp: string -> bool, toks: seq<Token>)
    requires AllPrintable(isIp, toks) && toks != []
    ensures EndsFull(LineText(toks))
    decreases |toks|
  {
    hide TokenText, Printable;
    var text, more := TokenText(toks[0]), Spaced(toks[1..]);
    assert Printable(isIp, toks[0]) && AllPrintable(isIp, toks[1..]);
    TokenEnds(isIp, toks[0]);
    if toks[1..] == [] {
      assert text + more == text;
    } else {
      TextEnds(isIp, toks[1..]);
      var rest := LineText(toks[1..]);
      assert more == " " + rest;
      assert (text + more)[|text + more| - 1] == rest[|rest| - 1];
    }
  }

  lemma TokenEnds(isIp: string -> bool, t: Token)
    requires Printable(isIp, t)
    ensures EndsFull(TokenText(t))
  {
    var text := TokenText(t);
    if t.kind in {IDENTIFIER, NUMBER, IP_ADDRESS} { assert WordChar(text[|text| - 1]); }
  }

  lemma {:induction false} SpacesUncommented(n: nat, text: string)
    ensures Uncommented(Spaces(n) + text, None, false) == Spaces(n) + Uncommented(text, None, false)
  {
    if n == 0 {
      assert Spaces(0) + text == text;
    } else {
      assert (Spaces(n) + text)[1..] == Spaces(n - 1) + text;
      SpacesUncommented(n - 1, text);
    }
  }

  /** A printed line is nothing but blanks and the text of its tokens. */
  lemma LineStarts(isIp: string -> bool, k: nat, toks: seq<Token>)
    requires AllPrintable(isIp, toks) && toks != []
    ensures var line, text := Line(k, toks), LineText(toks);
            && !Blank(line) && EndsFull(line)
            && LeadingSpaces(line) == 4 * k && line[4 * k..] == text && text != [] && !Text.IsSpace(text[0])
  {
    TextEnds(isIp, toks);
    hide TokenText, Printable;
    SomeText(isIp, toks[0]);
    var text := LineText(toks);
    assert text[0] == TokenText(toks[0])[0];
    SpacesLead(4 * k, text);
    assert Line(k, toks)[4 * k] == text[0];
  }

  /** A printed line that the comment scanner changes is refused, with a comment after it or without. */
  lemma ChangedIsRefused(isIp: string -> bool, k: nat, toks: seq<Token>, line': string, indents: seq<nat>)
    requires AllPrintable(isIp, toks) && toks != [] && IsStack(indents) && Commented(line', Line(k, toks))
    requires Trimmed(Content(line')) != Line(k, toks)
    ensures LexLine(isIp, line', indents).Err?
  {
    var line := Line(k, toks);
    var tail := line'[|line|..];
    assert line' == line + tail;
    hide LexText, LexStripped, Uncommented, LineText, Trimmed, Closed;
    LineStarts(isIp, k, toks);
    SurvivesIff(line', line);
    if Content(line) == line {
      OpenLineFails(isIp, k, toks, tail, indents);
    } else {
      CutStays(line, tail, None, false);
      CutLineFails(isIp, k, toks, indents);
    }
  }

  lemma OpenLineFails(isIp: string -> bool, k: nat, toks: seq<Token>, tail: string, indents: seq<nat>)
    requires AllPrintable(isIp, toks) && toks != [] && IsStack(indents) && IsTail(tail) && !Blank(tail)
    requires Content(Line(k, toks)) == Line(k, toks) && !Closed(Line(k, toks))
    ensures LexLine(isIp, Line(k, toks) + tail, indents).Err?
  {
    hide LexText, LexStripped, Content, LineText, ScanState;
    var line, blanks := Line(k, toks), Gap(tail);
    var comment, line2 := tail[|blanks|..], line + blanks;
    assert tail == blanks + comment && line + tail == line2 + comment;
    assert comment == [] ==> tail == blanks;
    LineStarts(isIp, k, toks);
    BlanksAfter(line, blanks);
    CommentIsCutIff(line2, comment);
    NotBlankMore(line, blanks);
    var kept :| kept != [] && kept[0] == '#' && Content(line + tail) == line2 + kept;
    SameLead(line, blanks);
    assert line2[4 * k..] == line[4 * k..] + blanks;
    LineBack(isIp, toks);
    TextThenBlanks(isIp, LineText(toks), blanks);
    HashIsRefused(isIp, line2, kept, indents);
  }

  lemma CutLineFails(isIp: string -> bool, k: nat, toks: seq<Token>, indents: seq<nat>)
    requires AllPrintable(isIp, toks) && toks != [] && IsStack(indents) && Content(Line(k, toks)) != Line(k, toks)
    ensures LexStripped(isIp, Content(Line(k, toks)), indents).Err?
  {
    hide LexText, Uncommented, LineText, Reindent, AllPrintable;
    var text := LineText(toks);
    var part := Uncommented(text, None, false);
    SpacesUncommented(4 * k, text);
    UncommentedIsPrefix(text, None, false);
    CutFails(isIp, toks, part);
    LineStarts(isIp, k, toks);
    LexNothing(isIp);
    SpacesLead(4 * k, part);
    var line := Spaces(4 * k) + part;
    assert line[4 * k..] == part && line[4 * k] == part[0];
  }

  lemma LexNothing(isIp: string -> bool)
    ensures LexText(isIp, []) == Ok([])
  {
  }

  // ---------------------------------------------------------------- whole sources

  /** The same lines, with comments at their ends and with blank and comment-only lines anywhere between them. */
  predicate Decorates(lines': seq<string>, lines: seq<string>)
    decreases |lines'|
  {
    if lines' == [] then lines == []
    else
      || (Blank(Content(lines'[0])) && Decorates(lines'[1..], lines))
      || (lines != [] && Commented(lines'[0], lines[0]) && Decorates(lines'[1..], lines[1..]))
  }

  ghost predicate IsPrinted(isIp: string -> bool, line: string) {
    exists k: nat, toks :: toks != [] && AllPrintable(isIp, toks) && line == Line(k, toks)
  }

  ghost predicate AllPrinted(isIp: string -> bool, lines: seq<string>) {
    forall k :: 0 <= k < |lines| ==> IsPrinted(isIp, lines[k])
  }

  lemma PrintedSurvives(isIp: string -> bool, line: string, line': string, indents: seq<nat>)
    requires IsPrinted(isIp, line) && IsStack(indents) && Commented(line', line) && LexLine(isIp, line', indents).Ok?
    ensures Trimmed(Content(line')) == line && !Blank(Content(line'))
  {
    var k: nat, toks :| toks != [] && AllPrintable(isIp, toks) && line == Line(k, toks);
    hide AllPrintable, Line, Content, Commented, LexLine;
    LineStarts(isIp, k, toks);
    if Trimmed(Content(line')) != line { ChangedIsRefused(isIp, k, toks, line', indents); }
  }

  /** Decorated printed lines that the lexer accepts all survive the comment scanner. */
  lemma {:induction false} AcceptedSurvive(isIp: string -> bool, lines: seq<string>, printed: seq<string>, indents: seq<nat>)
    requires Decorates(lines, printed) && AllPrinted(isIp, printed) && IsStack(indents)
    requires LexLines(isIp, lines, indents).Ok?
    ensures Significant(lines) == printed
    decreases |lines|
  {
    hide LexLine, Content, Commented, IsPrinted, Trimmed;
    if lines != [] {
      var first := LexLine(isIp, lines[0], indents);
      if Blank(Content(lines[0])) && Decorates(lines[1..], printed) {
        AcceptedSurvive(isIp, lines[1..], printed, first.value.indents);
        assert [] + printed == printed;
      } else {
        PrintedSurvives(isIp, printed[0], lines[0], indents);
        AcceptedSurvive(isIp, lines[1..], printed[1..], first.value.indents);
        assert printed == [printed[0]] + printed[1..];
      }
    }
  }

  lemma {:induction false} NodeIsPrinted(isIp: string -> bool, n: Node, depth: nat)
    requires Writable(BareWord, n)
    ensures AllPrinted(isIp, NodeLines(isIp, n, depth))
    decreases Size(n)
  {
    hide IsPrinted, HeadTokens, Line, AllPrintable, BlockLines, WritableBlock;
    HeadPrintable(isIp, n);
    LineIsPrinted(isIp, depth, HeadTokens(isIp, n));
    KeywordsPrintable(isIp);
    LineIsPrinted(isIp, depth, [WordToken(isIp, "else")]);
    match n
    case Operation(_, _, body) => BlockIsPrinted(isIp, body, depth + 1);
    case Conditional(_, body, elseBody) =>
      BlockIsPrinted(isIp, body, depth + 1);
      BlockIsPrinted(isIp, elseBody, depth + 1);
    case _ =>
  }

  lemma LineIsPrinted(isIp: string -> bool, depth: nat, toks: seq<Token>)
    requires AllPrintable(isIp, toks) && toks != []
    ensures IsPrinted(isIp, Line(depth, toks))
  {
    hide AllPrintable, Line;
  }

  lemma {:induction false} BlockIsPrinted(isIp: string -> bool, block: seq<Node>, depth: nat)
    requires WritableBlock(BareWord, block)
    ensures AllPrinted(isIp, BlockLines(isIp, block, depth))
    decreases BlockSize(block)
  {
    hide IsPrinted, NodeLines, Writable;
    if block != [] {
      NodeIsPrinted(isIp, block[0], depth);
      BlockIsPrinted(isIp, block[1..], depth);
    }
  }

  /** Whatever surrounds them, the printed lines of a well-formed tree give back the tree if they are the lines that count. */
  lemma PrintedReads(isIp: string -> bool, block: seq<Node>, lines: seq<string>)
    requires WellFormedBlock(isIp, block) && WritableBlock(BareWord, block) && Keywords(isIp)
    requires Significant(lines) == BlockLines(isIp, block, 0)
    ensures Lex(isIp, lines) == Ok(BlockTokens(isIp, block) + [End])
    ensures Parse(BlockTokens(isIp, block) + [End]) == Some((block, []))
  {
    hide WellFormedBlock, WritableBlock, Parse, BlockTokens, BlockLines, Significant;
    var printed := BlockLines(isIp, block, 0);
    OnlySignificant(isIp, lines, [0]);
    assert printed + [] == printed && Stack(0) == [0];
    BlockLex(isIp, block, 0, []);
    assert Dedents(0) + [End] == [End];
    ParseRendered(isIp, block);
  }

  /**
   * A well-formed tree is printed as source and decorated with comments and blank lines in any way. Lexing and parsing
   * either give the tree back or the lexer refuses the source, and it accepts exactly the sources whose printed lines
   * all survive the comment scanner.
   */
  lemma SourceRoundTrip(isIp: string -> bool, block: seq<Node>, lines: seq<string>)
    requires WellFormedBlock(isIp, block) && WritableBlock(BareWord, block) && Keywords(isIp)
    requires Decorates(lines, BlockLines(isIp, block, 0))
    ensures Lex(isIp, lines).Ok? <==> Significant(lines) == BlockLines(isIp, block, 0)
    ensures Lex(isIp, lines).Ok? ==> Lex(isIp, lines) == Ok(BlockTokens(isIp, block) + [End])
    ensures Parse(BlockTokens(isIp, block) + [End]) == Some((block, []))
  {
    hide *;
    BlockIsPrinted(isIp, block, 0);
    IsLexLines(isIp, lines);
    if Lex(isIp, lines).Ok? { AcceptedSurvive(isIp, lines, BlockLines(isIp, block, 0), [0]); }
    if Significant(lines) == BlockLines(isIp, block, 0) { PrintedReads(isIp, block, lines); }
    ParseRendered(isIp, block);
  }

  lemma IsLexLines(isIp: string -> bool, lines: seq<string>)
    ensures IsStack([0]) && Lex(isIp, lines) == LexLines(isIp, lines, [0])
  {
  }

  // ---------------------------------------------------------------- trees without quote characters in bare words

  /** A bare word without any quote character. */
  predicate PlainWord(w: string) {
    BareWord(w) && forall i :: 0 <= i < |w| ==> !IsQuote(w[i])
  }

  predicate PlainToken(t: Token) {
    IsWordKind(t.kind) ==> PlainWord(t.value)
  }

  predicate AllPlain(toks: seq<Token>) {
    forall k :: 0 <= k < |toks| ==> PlainToken(toks[k])
  }

  lemma QuoteCloses(post: string)
    ensures Uncommented("\"" + post, Some('"'), false) == "\"" + Uncommented(post, None, false)
  {
    assert ("\"" + post)[1..] == post;
  }

  lemma CharPasses(c: char, rest: string)
    ensures Uncommented(EscapeChar(c) + rest, Some('"'), false) == EscapeChar(c) + Uncommented(rest, Some('"'), false)
  {
    var s := EscapeChar(c) + rest;
    if c == '"' || c == '\\' {
      assert s[1..] == [c] + rest && s[1..][1..] == rest;
      assert Uncommented(s[1..], Some('"'), true) == [c] + Uncommented(rest, Some('"'), false);
    } else {
      assert s[1..] == rest;
    }
  }

  /** The comment scanner passes over an escaped literal, hash signs and quotes inside it included. */
  lemma {:induction false} LiteralPasses(v: string, post: string)
    ensures Uncommented(Escape(v) + ("\"" + post), Some('"'), false) == Escape(v) + ("\"" + Uncommented(post, None, false))
  {
    hide Uncommented, Escape, EscapeChar;
    var close, close' := "\"" + post, "\"" + Uncommented(post, None, false);
    EscapeStep(v, close);
    EscapeStep(v, close');
    QuoteCloses(post);
    if v != [] {
      LiteralPasses(v[1..], post);
      CharPasses(v[0], Escape(v[1..]) + close);
    }
  }


  lemma {:induction false} WordPasses(w: string, post: string)
    requires forall i :: 0 <= i < |w| ==> !IsQuote(w[i]) && w[i] != '#'
    ensures Uncommented(w + post, None, false) == w + Uncommented(post, None, false)
  {
    if w == [] {
      assert w + post == post;
    } else {
      assert (w + post)[1..] == w[1..] + post;
      WordPasses(w[1..], post);
    }
  }

  lemma TokenPasses(isIp: string -> bool, t: Token, post: string)
    requires Printable(isIp, t) && PlainToken(t)
    ensures Uncommented(TokenText(t) + post, None, false) == TokenText(t) + Uncommented(post, None, false)
  {
    hide Uncommented, Escape;
    if t.kind == STRING {
      var close := "\"" + post;
      assert TokenText(t) + post == "\"" + (Escape(t.value) + close);
      QuoteOpens(Escape(t.value) + close);
      LiteralPasses(t.value, post);
    } else {
      NoQuotes(isIp, t);
      WordPasses(t.value, post);
    }
  }

  lemma QuoteOpens(post: string)
    ensures Uncommented("\"" + post, None, false) == "\"" + Uncommented(post, Some('"'), false)
  {
    assert ("\"" + post)[1..] == post;
  }

  lemma NoQuotes(isIp: string -> bool, t: Token)
    requires Printable(isIp, t) && PlainToken(t) && t.kind != STRING
    ensures forall i :: 0 <= i < |t.value| ==> !IsQuote(t.value[i]) && t.value[i] != '#'
  {
    forall i | 0 <= i < |t.value| ensures !IsQuote(t.value[i]) && t.value[i] != '#' {
      if IsWordKind(t.kind) { assert WordChar(t.value[i]); }
    }
  }

  lemma {:induction false} LinePasses(isIp: string -> bool, toks: seq<Token>, post: string)
    requires AllPrintable(isIp, toks) && AllPlain(toks)
    ensures Uncommented(LineText(toks) + post, None, false) == LineText(toks) + Uncommented(post, None, false)
    decreases |toks|
  {
    hide TokenText, Printable, Uncommented, PlainToken;
    if toks == [] {
      assert LineText(toks) + post == post;
    } else {
      var text, more := TokenText(toks[0]), Spaced(toks[1..]);
      assert LineText(toks) + post == text + (more + post);
      TokenPasses(isIp, toks[0], more + post);
      assert AllPrintable(isIp, toks[1..]) && AllPlain(toks[1..]);
      LinePasses(isIp, toks[1..], post);
      SpacedPasses(toks[1..], post);
      assert text + (more + Uncommented(post, None, false)) == (text + more) + Uncommented(post, None, false);
    }
  }

  lemma SpacedPasses(toks: seq<Token>, post: string)
    requires Uncommented(LineText(toks) + post, None, false) == LineText(toks) + Uncommented(post, None, false)
    ensures Uncommented(Spaced(toks) + post, None, false) == Spaced(toks) + Uncommented(post, None, false)
  {
    hide LineText;
    if toks == [] {
      assert Spaced(toks) + post == post;
    } else {
      assert Spaced(toks) + post == " " + (LineText(toks) + post);
      BlankPasses(LineText(toks) + post);
      assert " " + (LineText(toks) + Uncommented(post, None, false)) == Spaced(toks) + Uncommented(post, None, false);
    }
  }

  lemma BlankPasses(post: string)
    ensures Uncommented(" " + post, None, false) == " " + Uncommented(post, None, false)
  {
    assert (" " + post)[1..] == post;
  }

  lemma ContentOfLine(isIp: string -> bool, depth: nat, toks: seq<Token>, post: string)
    requires AllPrintable(isIp, toks) && AllPlain(toks)
    ensures Content(Line(depth, toks) + post) == Line(depth, toks) + Content(post)
  {
    LinePasses(isIp, toks, post);
    WordPasses(Spaces(4 * depth), LineText(toks) + post);
    assert Line(depth, toks) + post == Spaces(4 * depth) + (LineText(toks) + post);
    hide Uncommented, LineText, Spaces;
    assert Spaces(4 * depth) + (LineText(toks) + Content(post)) == Line(depth, toks) + Content(post);
  }

  /** A line of plain words is closed, whatever its strings hold. */
  lemma PlainIsClosed(isIp: string -> bool, depth: nat, toks: seq<Token>)
    requires AllPrintable(isIp, toks) && AllPlain(toks)
    ensures Closed(Line(depth, toks))
  {
    hide Content, Line, AllPrintable, AllPlain, Closed;
    forall post ensures Content(Line(depth, toks) + post) == Line(depth, toks) + Content(post) {
      ContentOfLine(isIp, depth, toks, post);
    }
    CleanIffClosed(Line(depth, toks));
  }

  predicate AllClosed(lines: seq<string>) {
    forall k :: 0 <= k < |lines| ==> Closed(lines[k])
  }

  lemma {:induction false} PhrasePlain(isIp: string -> bool, phrase: seq<ValueNode>)
    requires WritablePhrase(PlainWord, phrase)
    ensures AllPlain(PhraseTokens(isIp, phrase))
  {
    if phrase != [] {
      assert WritablePhrase(PlainWord, phrase[1..]);
      PhrasePlain(isIp, phrase[1..]);
    }
  }

  lemma {:induction false} ArgumentsPlain(isIp: string -> bool, args: seq<ArgumentNode>)
    requires WritableArguments(PlainWord, args)
    ensures AllPlain(ArgumentsTokens(isIp, args))
  {
    if args != [] {
      ArgumentsPlain(isIp, args[1..]);
      ArgumentPlain(isIp, args[0]);
      hide PlainToken, ArgumentTokens;
      assert PlainToken(Token(COMMA, ",")) by { SignPlain(COMMA, ","); }
    }
  }

  lemma SignPlain(kind: Kind, value: string)
    requires !IsWordKind(kind)
    ensures PlainToken(Token(kind, value))
  {
  }

  lemma ArgumentPlain(isIp: string -> bool, a: ArgumentNode)
    requires WritableValue(PlainWord, a.value) && WritableValue(PlainWord, NameNode(a.name))
    ensures AllPlain(ArgumentTokens(isIp, a))
  {
  }

  lemma HeadPlain(isIp: string -> bool, n: Node)
    requires Writable(PlainWord, n)
    ensures AllPlain(HeadTokens(isIp, n))
  {
    hide PhraseTokens, ArgumentsTokens, PlainWord;
    match n
    case Assignment(_, _) =>
    case Operation(_, args, _) => ArgumentsPlain(isIp, args);
    case Flow(phrase) => PhrasePlain(isIp, phrase);
    case Conditional(phrase, _, _) =>
      PhrasePlain(isIp, phrase);
      IfIsPlain();
  }

  lemma IfIsPlain()
    ensures PlainWord("if") && PlainWord("else")
  {
  }

  /** A plain tree is made of bare words. */
  lemma {:induction false} PlainIsBare(n: Node)
    requires Writable(PlainWord, n)
    ensures Writable(BareWord, n)
    decreases Size(n)
  {
    match n
    case Operation(_, _, body) => PlainBlockIsBare(body);
    case Conditional(_, body, elseBody) =>
      PlainBlockIsBare(body);
      PlainBlockIsBare(elseBody);
    case _ =>
  }

  lemma {:induction false} PlainBlockIsBare(block: seq<Node>)
    requires WritableBlock(PlainWord, block)
    ensures WritableBlock(BareWord, block)
    decreases BlockSize(block)
  {
    if block != [] {
      PlainIsBare(block[0]);
      PlainBlockIsBare(block[1..]);
    }
  }

  lemma {:induction false} NodeIsClosed(isIp: string -> bool, n: Node, depth: nat)
    requires Writable(PlainWord, n)
    ensures AllClosed(NodeLines(isIp, n, depth))
    decreases Size(n)
  {
    hide Closed, HeadTokens, Line, AllPrintable, AllPlain, BlockLines, WritableBlock, PlainWord;
    PlainIsBare(n);
    HeadPrintable(isIp, n);
    HeadPlain(isIp, n);
    PlainIsClosed(isIp, depth, HeadTokens(isIp, n));
    ElseIsClosed(isIp, depth);
    match n
    case Operation(_, _, body) => BlockIsClosed(isIp, body, depth + 1);
    case Conditional(_, body, elseBody) =>
      BlockIsClosed(isIp, body, depth + 1);
      BlockIsClosed(isIp, elseBody, depth + 1);
    case _ =>
  }

  lemma ElseIsClosed(isIp: string -> bool, depth: nat)
    ensures Closed(Line(depth, [WordToken(isIp, "else")]))
  {
    KeywordsPrintable(isIp);
    IfIsPlain();
    hide PlainWord, Closed, Line, AllPrintable;
    PlainIsClosed(isIp, depth, [WordToken(isIp, "else")]);
  }

  lemma {:induction false} BlockIsClosed(isIp: string -> bool, block: seq<Node>, depth: nat)
    requires WritableBlock(PlainWord, block)
    ensures AllClosed(BlockLines(isIp, block, depth))
    decreases BlockSize(block)
  {
    hide Closed, NodeLines, Writable;
    if block != [] {
      NodeIsClosed(isIp, block[0], depth);
      BlockIsClosed(isIp, block[1..], depth);
    }
  }

  lemma {:induction false} ClosedSurvive(isIp: string -> bool, lines: seq<string>, printed: seq<string>)
    requires Decorates(lines, printed) && AllPrinted(isIp, printed) && AllClosed(printed)
    ensures Significant(lines) == printed
    decreases |lines|
  {
    hide Content, Commented, IsPrinted, Closed, Trimmed;
    if lines != [] {
      if Blank(Content(lines[0])) && Decorates(lines[1..], printed) {
        ClosedSurvive(isIp, lines[1..], printed);
        assert [] + printed == printed;
      } else {
        ClosedSurvives(isIp, lines[0], printed[0]);
        ClosedSurvive(isIp, lines[1..], printed[1..]);
        assert printed == [printed[0]] + printed[1..];
      }
    }
  }

  lemma ClosedSurvives(isIp: string -> bool, line': string, line: string)
    requires Commented(line', line) && Closed(line) && IsPrinted(isIp, line)
    ensures Trimmed(Content(line')) == line && !Blank(Content(line'))
  {
    hide AllPrintable, Line, Commented, Content, Trimmed;
    var k: nat, toks :| toks != [] && AllPrintable(isIp, toks) && line == Line(k, toks);
    LineStarts(isIp, k, toks);
    SurvivesIff(line', line);
  }

  /** Without quote characters in bare words nothing is ever refused: comments and blank lines may stand anywhere. */
  lemma PlainRoundTrip(isIp: string -> bool, block: seq<Node>, lines: seq<string>)
    requires WellFormedBlock(isIp, block) && WritableBlock(PlainWord, block) && Keywords(isIp)
    requires Decorates(lines, BlockLines(isIp, block, 0))
    ensures Lex(isIp, lines) == Ok(BlockTokens(isIp, block) + [End])
    ensures Parse(BlockTokens(isIp, block) + [End]) == Some((block, []))
  {
    hide *;
    PlainBlockIsBare(block);
    BlockIsPrinted(isIp, block, 0);
    BlockIsClosed(isIp, block, 0);
    ClosedSurvive(isIp, lines, BlockLines(isIp, block, 0));
    PrintedReads(isIp, block, lines);
  }
}
