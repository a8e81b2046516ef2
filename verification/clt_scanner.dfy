/** The loops of blackline/clt/lexer.py, tied to the functions that say what they compute. */
module CltScanner {
  import opened Results
  import opened CltSyntax
  import opened CltRender
  import opened CltLexer
  import CltCursor
  import Text

  method StripComment(line: string) returns (r: string)
    ensures r == Content(line)
  {
    hide Uncommented;
    var quote: Option<char>, escaped := None, false;
    assert line[0..] == line;
    for index := 0 to |line|
      invariant Content(line) == line[..index] + Uncommented(line[index..], quote, escaped)
    {
      StripStep(line, index, quote, escaped);
      var c := line[index];
      if quote.Some? {
        if c == quote.value && !escaped { quote := None; }
        escaped := c == '\\' && !escaped;
      } else if IsQuote(c) {
        quote := Some(c);
      } else if c == '#' {
        return line[..index];
      }
    }
    StripEnd(line, quote, escaped);
    r := line;
  }

  lemma StripStep(line: string, index: nat, quote: Option<char>, escaped: bool)
    requires index < |line|
    ensures var c := line[index];
            line[..index] + Uncommented(line[index..], quote, escaped) ==
              if quote.None? && c == '#' then line[..index]
              else line[..index + 1] + Uncommented(line[index + 1..], NextQuote(c, quote, escaped), NextEscape(c, quote, escaped))
  {
    hide NextQuote, NextEscape;
    assert line[index..][1..] == line[index + 1..];
    assert line[..index + 1] == line[..index] + [line[index]];
  }

  lemma StripEnd(line: string, quote: Option<char>, escaped: bool)
    ensures line[..|line|] + Uncommented(line[|line|..], quote, escaped) == line
  {
  }

  function Appended(front: string, r: Option<(string, string)>): Option<(string, string)> {
    if r.None? then None else Some((front + r.value.0, r.value.1))
  }

  /** The literal that starts a text, and how many characters it takes up. */
  method ReadLiteral(value: string) returns (r: Option<(string, nat)>)
    requires value != []
    ensures r.None? <==> ReadString(value[1..], value[0], false).None?
    ensures r.Some? ==> 1 < r.value.1 <= |value| && ReadString(value[1..], value[0], false) == Some((r.value.0, value[r.value.1..]))
  {
    var quote, escaped, characters := value[0], false, [];
    AppendedNothing(ReadString(value[1..], quote, false));
    for index := 1 to |value|
      invariant ReadString(value[1..], quote, false) == Appended(characters, ReadString(value[index..], quote, escaped))
    {
      var c := value[index];
      assert value[index..] == [c] + value[index + 1..];
      if c == quote && !escaped {
        assert characters + [] == characters;
        return Some((characters, index + 1));
      }
      if c == '\\' && !escaped {
        escaped := true;
      } else {
        AppendedOne(characters, c, ReadString(value[index + 1..], quote, false));
        characters := characters + [c];
        escaped := false;
      }
    }
    r := None;
  }

  lemma AppendedNothing(r: Option<(string, string)>)
    ensures Appended([], r) == r
  {
    if r.Some? { assert [] + r.value.0 == r.value.0; }
  }

  lemma AppendedOne(front: string, c: char, r: Option<(string, string)>)
    ensures Appended(front, Appended([c], r)) == Appended(front + [c], r)
  {
    if r.Some? { assert front + ([c] + r.value.0) == (front + [c]) + r.value.0; }
  }

  lemma PrependMore(front: seq<Token>, more: seq<Token>, r: Result<seq<Token>, LexError>)
    ensures Prepend(front, Prepend(more, r)) == Prepend(front + more, r)
    ensures Prepend([], r) == r
  {
    if r.Ok? {
      assert front + (more + r.value) == (front + more) + r.value;
      assert [] + r.value == r.value;
    }
  }

  lemma TextStep(isIp: string -> bool, content: string, index: nat)
    requires index < |content|
    ensures var first := ScanOne(isIp, content[index..]);
            LexText(isIp, content[index..]) == if first.Err? then Err(first.error)
                                               else Prepend(first.value.tokens, LexText(isIp, content[index + first.value.length..]))
  {
    hide ScanOne;
    var first := ScanOne(isIp, content[index..]);
    if first.Ok? { assert content[index..][first.value.length..] == content[index + first.value.length..]; }
  }

  method LexContent(isIp: string -> bool, content: string) returns (r: Result<seq<Token>, LexError>)
    ensures r == LexText(isIp, content)
  {
    hide LexText, ReadString;
    var tokens: seq<Token>, index := [], 0;
    assert content[0..] == content;
    PrependMore([], [], LexText(isIp, content));
    while index < |content|
      invariant index <= |content|
      invariant LexText(isIp, content) == Prepend(tokens, LexText(isIp, content[index..]))
      decreases |content| - index
    {
      TextStep(isIp, content, index);
      var left, c := content[index..], content[index];
      var token, length := [], 1;
      if Text.IsSpace(c) {
      } else if "->" <= left {
        token, length := [Token(ARROW, "->")], 2;
      } else if Punctuation(c).Some? {
        token := [Token(Punctuation(c).value, [c])];
      } else if IsQuote(c) {
        var literal := ReadLiteral(left);
        if literal.None? { return Err(Unterminated); }
        token, length := [Token(STRING, literal.value.0)], literal.value.1;
      } else {
        if !WordChar(c) { return Err(Unexpected(c)); }
        length := WordLength(left);
        token := [WordToken(isIp, left[..length])];
      }
      assert ScanOne(isIp, left) == Ok(Scanned(token, length));
      PrependMore(tokens, token, LexText(isIp, content[index + length..]));
      tokens, index := tokens + token, index + length;
    }
    Emptied(isIp, content, index);
    assert tokens + [] == tokens;
    r := Ok(tokens);
  }

  lemma Emptied(isIp: string -> bool, content: string, index: nat)
    requires index == |content|
    ensures LexText(isIp, content[index..]) == Ok([])
  {
  }

  /** The loop over the lines, with the stack of open indentations. */
  method LexSource(isIp: string -> bool, lines: seq<string>) returns (r: Result<seq<Token>, LexError>)
    ensures r == Lex(isIp, lines)
    ensures r.Ok? ==> Balanced(r.value, 0) && CltCursor.EndsOnce(r.value)
    ensures r.Err? ==> r.error != NoEarlierBlock
  {
    hide LexLines, LexLine, LexText, Content, Balanced, CltCursor.EndsOnce;
    LexIsBalanced(isIp, lines, 0);
    var tokens: seq<Token>, indents: seq<nat> := [], [0];
    assert lines[0..] == lines && Stack(0) == [0];
    PrependMore([], [], Lex(isIp, lines));
    for n := 0 to |lines|
      invariant IsStack(indents)
      invariant Lex(isIp, lines) == Prepend(tokens, LexLines(isIp, lines[n..], indents))
    {
      LinesStep(isIp, lines, n, indents);
      var line := StripComment(lines[n]);
      if Blank(line) {
        BlankLine(isIp, lines[n], indents);
        PrependMore(tokens, [], LexLines(isIp, lines[n + 1..], indents));
        assert tokens + [] == tokens;
        continue;
      }
      LineStep(isIp, lines[n], indents);
      if '\t' in line[..LeadingBlanks(line)] { return Err(TabIndent); }
      var indent := LeadingSpaces(line);
      var entry := OpenAndClose(indents, indent);
      if entry.Err? { return Err(entry.error); }
      var text := LexContent(isIp, line[indent..]);
      if text.Err? { return Err(text.error); }
      PrependMore(tokens, entry.value.tokens + text.value + [NewLine], LexLines(isIp, lines[n + 1..], entry.value.indents));
      tokens, indents := tokens + (entry.value.tokens + text.value + [NewLine]), entry.value.indents;
    }
    LastLine(isIp, lines[|lines|..], indents);
    while |indents| > 1
      invariant IsStack(indents) && Lex(isIp, lines) == Prepend(tokens, Ok(Dedents(|indents| - 1) + [End]))
      decreases |indents|
    {
      assert Dedents(|indents| - 1) + [End] == [Dedent] + (Dedents(|indents| - 2) + [End]);
      PrependMore(tokens, [Dedent], Ok(Dedents(|indents| - 2) + [End]));
      indents, tokens := indents[..|indents| - 1], tokens + [Dedent];
    }
    assert Dedents(0) + [End] == [End];
    r := Ok(tokens + [End]);
    if r.Ok? { BalancedEndsOnce(r.value, 0); }
  }

  method OpenAndClose(indents: seq<nat>, indent: nat) returns (r: Result<Indented, LexError>)
    requires IsStack(indents)
    ensures r == Reindent(indents, indent)
  {
    if indent % 4 != 0 { return Err(NotMultipleOfFour); }
    var stack, tokens := indents, [];
    if indent > Top(stack) {
      if indent != Top(stack) + 4 { return Err(TooDeep); }
      return Ok(Indented([Indent], indents + [indent]));
    }
    while indent < Top(stack)
      invariant IsStack(stack) && |stack| <= |indents| && Popped(indents, indent) == Popped(stack, indent)
      invariant tokens == Dedents(|indents| - |stack|)
      decreases |stack|
    {
      OneMoreDedent(|indents| - |stack|);
      stack, tokens := stack[..|stack| - 1], tokens + [Dedent];
    }
    if indent != Top(stack) { return Err(NoEarlierBlock); }
    r := Ok(Indented(tokens, stack));
  }

  lemma {:induction false} OneMoreDedent(n: nat)
    ensures Dedents(n) + [Dedent] == Dedents(n + 1)
  {
    if n > 0 { OneMoreDedent(n - 1); }
  }

  lemma LinesStep(isIp: string -> bool, lines: seq<string>, n: nat, indents: seq<nat>)
    requires n < |lines| && IsStack(indents)
    ensures var first := LexLine(isIp, lines[n], indents);
            LexLines(isIp, lines[n..], indents) == if first.Err? then Err(first.error)
                                                   else Prepend(first.value.tokens, LexLines(isIp, lines[n + 1..], first.value.indents))
  {
    hide LexLine;
    assert lines[n..][1..] == lines[n + 1..];
  }

  lemma BlankLine(isIp: string -> bool, line: string, indents: seq<nat>)
    requires IsStack(indents) && Blank(Content(line))
    ensures LexLine(isIp, line, indents) == Ok(Indented([], indents))
  {
  }

  lemma LineStep(isIp: string -> bool, original: string, indents: seq<nat>)
    requires IsStack(indents) && !Blank(Content(original))
    ensures var line := Content(original);
            var entry, text := Reindent(indents, LeadingSpaces(line)), LexText(isIp, line[LeadingSpaces(line)..]);
            LexLine(isIp, original, indents) ==
              if '\t' in line[..LeadingBlanks(line)] then Err(TabIndent)
              else if entry.Err? then Err(entry.error)
              else if text.Err? then Err(text.error)
              else Ok(Indented(entry.value.tokens + text.value + [NewLine], entry.value.indents))
  {
    hide LexText, Reindent;
  }

  lemma LastLine(isIp: string -> bool, lines: seq<string>, indents: seq<nat>)
    requires lines == [] && IsStack(indents)
    ensures LexLines(isIp, lines, indents) == Ok(Dedents(|indents| - 1) + [End])
  {
  }
}
