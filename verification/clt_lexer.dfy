/** The indentation-aware lexer of blackline/clt/lexer.py, on the lines of a source and then on their characters. */
module CltLexer {
  import opened Results
  import opened CltSyntax
  import opened CltParser
  import opened CltRender
  import CltCursor
  import Text

  datatype LexError = TabIndent | NotMultipleOfFour | TooDeep | NoEarlierBlock | Unterminated | Unexpected(c: char)

  // ---------------------------------------------------------------- comments and strings

  /** The open quote after a character, and whether that character was an active backslash in a string. */
  function NextQuote(c: char, quote: Option<char>, escaped: bool): Option<char> {
    if quote.Some? then (if c == quote.value && !escaped then None else quote)
    else if IsQuote(c) then Some(c) else None
  }

  function NextEscape(c: char, quote: Option<char>, escaped: bool): bool {
    if quote.Some? then c == '\\' && !escaped else escaped
  }

  /** What is left of a line without its comment, given the open quote and whether a backslash came before. */
  function Uncommented(s: string, quote: Option<char>, escaped: bool): string {
    if s == [] || (quote.None? && s[0] == '#') then []
    else [s[0]] + Uncommented(s[1..], NextQuote(s[0], quote, escaped), NextEscape(s[0], quote, escaped))
  }

  function Content(line: string): string {
    Uncommented(line, None, false)
  }

  /** The characters of a string literal and what follows its closing quote. */
  function ReadString(s: string, quote: char, escaped: bool): (r: Option<(string, string)>)
    ensures r.Some? ==> |r.value.1| < |s| && r.value.1 == s[|s| - |r.value.1|..]
  {
    if s == [] then None
    else if s[0] == quote && !escaped then Some(([], s[1..]))
    else if s[0] == '\\' && !escaped then ReadString(s[1..], quote, true)
    else
      var more := ReadString(s[1..], quote, false);
      if more.None? then None else Some(([s[0]] + more.value.0, more.value.1))
  }

  // ---------------------------------------------------------------- one line

  function WordLength(s: string): (n: nat)
    ensures n <= |s| && (s != [] && WordChar(s[0]) ==> n > 0)
    ensures forall i :: 0 <= i < n ==> WordChar(s[i])
    ensures n < |s| ==> !WordChar(s[n])
  {
    if s == [] || !WordChar(s[0]) then 0 else 1 + WordLength(s[1..])
  }

  function Punctuation(c: char): Option<Kind> {
    match c
    case '=' => Some(EQUALS)
    case '[' => Some(LBRACKET)
    case ']' => Some(RBRACKET)
    case ',' => Some(COMMA)
    case _ => None
  }

  function Prepend(front: seq<Token>, r: Result<seq<Token>, LexError>): Result<seq<Token>, LexError> {
    if r.Err? then r else Ok(front + r.value)
  }

  /** A token, or nothing for a blank, and how many characters it takes up. */
  datatype Scanned = Scanned(tokens: seq<Token>, length: nat)

  function ScanOne(isIp: string -> bool, s: string): (r: Result<Scanned, LexError>)
    requires s != []
    ensures r.Ok? ==> 0 < r.value.length <= |s|
  {
    if Text.IsSpace(s[0]) then Ok(Scanned([], 1))
    else if "->" <= s then Ok(Scanned([Token(ARROW, "->")], 2))
    else if Punctuation(s[0]).Some? then Ok(Scanned([Token(Punctuation(s[0]).value, [s[0]])], 1))
    else if IsQuote(s[0]) then
      var literal := ReadString(s[1..], s[0], false);
      if literal.None? then Err(Unterminated) else Ok(Scanned([Token(STRING, literal.value.0)], |s| - |literal.value.1|))
    else if WordChar(s[0]) then Ok(Scanned([WordToken(isIp, s[..WordLength(s)])], WordLength(s)))
    else Err(Unexpected(s[0]))
  }

  function LexText(isIp: string -> bool, s: string): Result<seq<Token>, LexError>
    decreases |s|
  {
    if s == [] then Ok([])
    else
      var first := ScanOne(isIp, s);
      if first.Err? then Err(first.error) else Prepend(first.value.tokens, LexText(isIp, s[first.value.length..]))
  }

  // ---------------------------------------------------------------- indentation

  function LeadingBlanks(s: string): (n: nat)
    ensures n <= |s|
  {
    if s != [] && (s[0] == ' ' || s[0] == '\t') then 1 + LeadingBlanks(s[1..]) else 0
  }

  function LeadingSpaces(s: string): (n: nat)
    ensures n <= |s|
  {
    if s != [] && s[0] == ' ' then 1 + LeadingSpaces(s[1..]) else 0
  }

  /** The stack of open indentations, innermost last. */
  predicate IsStack(indents: seq<nat>) {
    indents != [] && indents[0] == 0
  }

  function Top(indents: seq<nat>): nat
    requires IsStack(indents)
  {
    indents[|indents| - 1]
  }

  function Popped(indents: seq<nat>, indent: nat): (r: seq<nat>)
    requires IsStack(indents)
    ensures IsStack(r) && r <= indents
  {
    if indent < Top(indents) then Popped(indents[..|indents| - 1], indent) else indents
  }

  function Dedents(n: nat): seq<Token> {
    if n == 0 then [] else [Dedent] + Dedents(n - 1)
  }

  datatype Indented = Indented(tokens: seq<Token>, indents: seq<nat>)

  /** Open or close blocks for a line of the given indentation. */
  function Reindent(indents: seq<nat>, indent: nat): (r: Result<Indented, LexError>)
    requires IsStack(indents)
    ensures r.Ok? ==> IsStack(r.value.indents)
  {
    if indent % 4 != 0 then Err(NotMultipleOfFour)
    else if indent > Top(indents) then
      if indent != Top(indents) + 4 then Err(TooDeep) else Ok(Indented([Indent], indents + [indent]))
    else
      var popped := Popped(indents, indent);
      if indent != Top(popped) then Err(NoEarlierBlock) else Ok(Indented(Dedents(|indents| - |popped|), popped))
  }

  predicate Blank(line: string) {
    forall i :: 0 <= i < |line| ==> Text.IsSpace(line[i])
  }

  /** The tokens of one line without its comment, and the stack after it; a blank line leaves no trace. */
  function LexStripped(isIp: string -> bool, line: string, indents: seq<nat>): (r: Result<Indented, LexError>)
    requires IsStack(indents)
    ensures r.Ok? ==> IsStack(r.value.indents)
  {
    if Blank(line) then Ok(Indented([], indents))
    else if '\t' in line[..LeadingBlanks(line)] then Err(TabIndent)
    else
      var indent := LeadingSpaces(line);
      var entry := Reindent(indents, indent);
      if entry.Err? then Err(entry.error)
      else
        var text := LexText(isIp, line[indent..]);
        if text.Err? then Err(text.error)
        else Ok(Indented(entry.value.tokens + text.value + [NewLine], entry.value.indents))
  }

  function LexLine(isIp: string -> bool, original: string, indents: seq<nat>): (r: Result<Indented, LexError>)
    requires IsStack(indents)
    ensures r.Ok? ==> IsStack(r.value.indents)
  {
    LexStripped(isIp, Content(original), indents)
  }

  function LexLines(isIp: string -> bool, lines: seq<string>, indents: seq<nat>): Result<seq<Token>, LexError>
    requires IsStack(indents)
  {
    if lines == [] then Ok(Dedents(|indents| - 1) + [End])
    else
      var first := LexLine(isIp, lines[0], indents);
      if first.Err? then Err(first.error) else Prepend(first.value.tokens, LexLines(isIp, lines[1..], first.value.indents))
  }

  function Lex(isIp: string -> bool, lines: seq<string>): Result<seq<Token>, LexError> {
    LexLines(isIp, lines, [0])
  }

  // ---------------------------------------------------------------- the stack is 0, 4, ..., 4d

  function Stack(d: nat): (s: seq<nat>)
    ensures |s| == d + 1 && IsStack(s) && Top(s) == 4 * d
  {
    if d == 0 then [0] else Stack(d - 1) + [4 * d]
  }

  lemma {:induction false} PoppedStack(d: nat, k: nat)
    requires k <= d
    ensures Popped(Stack(d), 4 * k) == Stack(k)
  {
    if k < d {
      assert Stack(d)[..d] == Stack(d - 1);
      PoppedStack(d - 1, k);
    }
  }

  /** On such a stack the error about an earlier block cannot occur, and the stack keeps its form. */
  lemma ReindentStack(d: nat, indent: nat)
    ensures indent % 4 == 0 && indent <= 4 * d + 4 ==>
              Reindent(Stack(d), indent) == Ok(Indented(if indent > 4 * d then [Indent] else Dedents(d - indent / 4), Stack(indent / 4)))
    ensures !(indent % 4 == 0 && indent <= 4 * d + 4) ==>
              Reindent(Stack(d), indent) == Err(if indent % 4 != 0 then NotMultipleOfFour else TooDeep)
  {
    hide Reindent;
    if indent % 4 == 0 && indent <= 4 * d + 4 {
      ReindentTo(d, indent / 4);
    } else {
      ReindentFails(d, indent);
    }
  }

  lemma ReindentTo(d: nat, k: nat)
    requires k <= d + 1
    ensures Reindent(Stack(d), 4 * k) == Ok(Indented(if k > d then [Indent] else Dedents(d - k), Stack(k)))
  {
    hide Popped;
    if k <= d { PoppedStack(d, k); }
  }

  lemma ReindentFails(d: nat, indent: nat)
    requires !(indent % 4 == 0 && indent <= 4 * d + 4)
    ensures Reindent(Stack(d), indent) == Err(if indent % 4 != 0 then NotMultipleOfFour else TooDeep)
  {
  }

  predicate Flat(toks: seq<Token>) {
    forall k :: 0 <= k < |toks| ==> toks[k].kind !in {NEWLINE, INDENT, DEDENT, EOF}
  }

  lemma {:induction false} TextIsFlat(isIp: string -> bool, s: string)
    ensures LexText(isIp, s).Ok? ==> Flat(LexText(isIp, s).value)
    ensures LexText(isIp, s).Ok? && !Blank(s) ==> LexText(isIp, s).value != []
    ensures LexText(isIp, s).Err? ==> LexText(isIp, s).error.Unterminated? || LexText(isIp, s).error.Unexpected?
    decreases |s|
  {
    hide ScanOne;
    if s != [] {
      ScanIsFlat(isIp, s);
      if ScanOne(isIp, s).Ok? {
        var rest := s[ScanOne(isIp, s).value.length..];
        TextIsFlat(isIp, rest);
      }
    }
  }

  lemma ScanIsFlat(isIp: string -> bool, s: string)
    requires s != []
    ensures var r := ScanOne(isIp, s);
            if r.Err? then r.error.Unterminated? || r.error.Unexpected?
            else if r.value.tokens == [] then r.value.length == 1 && Text.IsSpace(s[0]) && (!Blank(s) ==> !Blank(s[1..]))
            else Flat(r.value.tokens)
  {
    hide ReadString, WordLength;
    if Text.IsSpace(s[0]) && !Blank(s) {
      var i :| 0 <= i < |s| && !Text.IsSpace(s[i]);
      assert s[1..][i - 1] == s[i];
    }
  }

  /**
   * What the parser relies on: from depth d the tokens open and close blocks in balance, every opened block starts
   * with a token of a statement, never with a DEDENT, and the one EOF stands at the end.
   */
  predicate Balanced(toks: seq<Token>, d: nat) {
    toks != [] &&
    match toks[0].kind
    case EOF => |toks| == 1 && d == 0
    case INDENT => Head(toks[1..]) !in {NEWLINE, INDENT, DEDENT, EOF} && Balanced(toks[1..], d + 1)
    case DEDENT => d > 0 && Balanced(toks[1..], d - 1)
    case _ => Balanced(toks[1..], d)
  }

  lemma {:induction false} BalancedAfterFlat(front: seq<Token>, toks: seq<Token>, d: nat)
    requires Flat(front) && Balanced(toks, d)
    ensures Balanced(front + toks, d)
  {
    if front == [] {
      assert front + toks == toks;
    } else {
      BalancedAfterFlat(front[1..], toks, d);
      assert (front + toks)[1..] == front[1..] + toks;
    }
  }

  lemma {:induction false} BalancedAfterDedents(n: nat, toks: seq<Token>, d: nat)
    requires Balanced(toks, d)
    ensures Balanced(Dedents(n) + toks, d + n)
  {
    if n == 0 {
      assert Dedents(0) + toks == toks;
    } else {
      BalancedAfterDedents(n - 1, toks, d);
      assert (Dedents(n) + toks)[1..] == Dedents(n - 1) + toks;
    }
  }

  /** A significant line keeps the balance of whatever follows it. */
  lemma LineKeepsBalance(text: seq<Token>, toks: seq<Token>, d: nat, k: nat)
    requires k <= d + 1 && Flat(text) && text != [] && Balanced(toks, k)
    ensures Balanced((if k > d then [Indent] else Dedents(d - k)) + text + [NewLine] + toks, d)
  {
    assert ([NewLine] + toks)[1..] == toks;
    var line := text + ([NewLine] + toks);
    BalancedAfterFlat(text, [NewLine] + toks, k);
    hide Dedents;
    if k > d {
      assert ([Indent] + line)[1..] == line;
      assert [Indent] + text + [NewLine] + toks == [Indent] + line;
    } else {
      BalancedAfterDedents(d - k, line, k);
      assert Dedents(d - k) + text + [NewLine] + toks == Dedents(d - k) + line;
    }
  }

  /** Every source is lexed on stacks of this form; what is accepted is balanced. */
  lemma {:induction false} LexIsBalanced(isIp: string -> bool, lines: seq<string>, d: nat)
    ensures var r := LexLines(isIp, lines, Stack(d));
            if r.Ok? then Balanced(r.value, d) else r.error != NoEarlierBlock
    decreases |lines|, 1
  {
    if lines == [] {
      BalancedAfterDedents(d, [End], 0);
    } else {
      var line := Content(lines[0]);
      if Blank(line) {
        LexIsBalanced(isIp, lines[1..], d);
        BlankPrepends(LexLines(isIp, lines[1..], Stack(d)));
      } else {
        SignificantLine(isIp, lines, d, line);
      }
    }
  }

  lemma BlankPrepends(r: Result<seq<Token>, LexError>)
    ensures Prepend([], r) == r
  {
    if r.Ok? { assert [] + r.value == r.value; }
  }

  lemma {:induction false} SignificantLine(isIp: string -> bool, lines: seq<string>, d: nat, line: string)
    requires lines != [] && line == Content(lines[0]) && !Blank(line)
    ensures var r := LexLines(isIp, lines, Stack(d));
            if r.Ok? then Balanced(r.value, d) else r.error != NoEarlierBlock
    decreases |lines|, 0
  {
    hide LexText, Content, Popped;
    var indent := LeadingSpaces(line);
    ReindentStack(d, indent);
    TextIsFlat(isIp, line[indent..]);
    StillSignificant(line);
    if '\t' !in line[..LeadingBlanks(line)] && Reindent(Stack(d), indent).Ok? && LexText(isIp, line[indent..]).Ok? {
      var k, text := indent / 4, LexText(isIp, line[indent..]).value;
      LexIsBalanced(isIp, lines[1..], k);
      var rest := LexLines(isIp, lines[1..], Stack(k));
      if rest.Ok? {
        LineKeepsBalance(text, rest.value, d, k);
        hide Balanced;
      }
    }
  }

  lemma {:induction false} StillSignificant(line: string)
    requires !Blank(line)
    ensures !Blank(line[LeadingSpaces(line)..])
  {
    if line[0] == ' ' {
      var i :| 0 <= i < |line| && !Text.IsSpace(line[i]);
      assert !Text.IsSpace(line[1..][i - 1]);
      StillSignificant(line[1..]);
      assert line[LeadingSpaces(line)..] == line[1..][LeadingSpaces(line[1..])..];
    }
  }

  /** Balanced tokens end in their only EOF, which is what the parser's cursor needs. */
  lemma {:induction false} BalancedEndsOnce(toks: seq<Token>, d: nat)
    requires Balanced(toks, d)
    ensures CltCursor.EndsOnce(toks)
  {
    if |toks| > 1 {
      BalancedEndsOnce(toks[1..], if toks[0].kind == INDENT then d + 1 else if toks[0].kind == DEDENT then d - 1 else d);
      forall i | 0 <= i < |toks| - 1 ensures toks[i].kind != EOF {
        if i > 0 { assert toks[i] == toks[1..][i - 1]; }
      }
    }
  }
}
