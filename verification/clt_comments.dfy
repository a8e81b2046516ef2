/** Comments and blank lines: when they leave the tokens of a source alone, and what happens when they do not. */
module CltComments {
  import opened Results
  import opened CltSyntax
  import opened CltRender
  import opened CltLexer
  import opened CltScanner
  import opened CltPrint
  import Text

  // ---------------------------------------------------------------- the comment scanner

  /** The open quote and the escape flag of the comment scanner after a text without comments. */
  function ScanState(s: string, quote: Option<char>, escaped: bool): (Option<char>, bool) {
    if s == [] then (quote, escaped) else ScanState(s[1..], NextQuote(s[0], quote, escaped), NextEscape(s[0], quote, escaped))
  }

  lemma {:induction false} ScanThrough(s: string, post: string, quote: Option<char>, escaped: bool)
    requires Uncommented(s, quote, escaped) == s
    ensures var (q, e) := ScanState(s, quote, escaped);
            Uncommented(s + post, quote, escaped) == s + Uncommented(post, q, e)
  {
    hide NextQuote, NextEscape;
    if s == [] {
      assert s + post == post;
    } else {
      var c, rest := s[0], s[1..];
      assert s == [c] + rest && (s + post)[0] == c && (s + post)[1..] == rest + post;
      ScanThrough(rest, post, NextQuote(c, quote, escaped), NextEscape(c, quote, escaped));
    }
  }

  /** Outside of a string no backslash is active. */
  predicate Settled(quote: Option<char>, escaped: bool) {
    if quote.Some? then IsQuote(quote.value) else !escaped
  }

  lemma {:induction false} StaysSettled(s: string, quote: Option<char>, escaped: bool)
    requires Settled(quote, escaped)
    ensures Settled(ScanState(s, quote, escaped).0, ScanState(s, quote, escaped).1)
  {
    if s != [] { StaysSettled(s[1..], NextQuote(s[0], quote, escaped), NextEscape(s[0], quote, escaped)); }
  }

  /** A line without a comment of its own that ends outside of a string. */
  predicate Closed(line: string) {
    Content(line) == line && ScanState(line, None, false).0 == None
  }

  /** A line after which the comment scanner starts afresh. */
  ghost predicate Clean(line: string) {
    forall post :: Content(line + post) == line + Content(post)
  }

  /** These are the same lines. */
  lemma CleanIffClosed(line: string)
    ensures Clean(line) <==> Closed(line)
  {
    hide Content;
    if Closed(line) {
      forall post ensures Content(line + post) == line + Content(post) {
        ClosedSplits(line, post);
      }
    }
    if Clean(line) {
      NoContent("#");
      NoContent([]);
      assert line + [] == line;
      assert Content(line + []) == line + Content([]) && Content(line + "#") == line + Content("#");
      CommentIsCutIff(line, "#");
    }
  }

  lemma ClosedSplits(line: string, post: string)
    requires Closed(line)
    ensures Content(line + post) == line + Content(post)
  {
    hide ScanState, Uncommented;
    ScanThrough(line, post, None, false);
    StaysSettled(line, None, false);
  }

  lemma NoContent(comment: string)
    requires comment == [] || comment[0] == '#'
    ensures Content(comment) == []
  {
  }

  /** A comment after a line without one is cut off exactly when the line leaves no quote open. */
  lemma CommentIsCutIff(line: string, comment: string)
    requires Content(line) == line && comment != [] && comment[0] == '#'
    ensures Content(line + comment) == line <==> ScanState(line, None, false).0 == None
    ensures ScanState(line, None, false).0 != None ==>
              exists kept :: kept != [] && kept[0] == '#' && Content(line + comment) == line + kept
  {
    ScanThrough(line, comment, None, false);
    var (q, e) := ScanState(line, None, false);
    if q.Some? {
      var kept := Uncommented(comment, q, e);
      assert kept[0] == '#' && (line + kept)[|line|] == '#';
    }
  }

  // ---------------------------------------------------------------- what ends a token

  lemma {:induction false} ReadMore(s: string, quote: char, escaped: bool, rest: string)
    requires ReadString(s, quote, escaped).Some?
    ensures var r := ReadString(s, quote, escaped).value;
            ReadString(s + rest, quote, escaped) == Some((r.0, r.1 + rest))
  {
    assert (s + rest)[0] == s[0] && (s + rest)[1..] == s[1..] + rest;
    if s[0] == quote && !escaped {
    } else if s[0] == '\\' && !escaped {
      ReadMore(s[1..], quote, true, rest);
    } else {
      ReadMore(s[1..], quote, false, rest);
    }
  }

  /** A character that ends every word. */
  predicate Stops(c: char) {
    c == '#' || Text.IsSpace(c)
  }

  lemma {:induction false} WordLengthMore(s: string, rest: string)
    requires rest != [] && Stops(rest[0])
    ensures WordLength(s + rest) == WordLength(s)
  {
    if s == [] {
      assert s + rest == rest;
    } else {
      assert (s + rest)[1..] == s[1..] + rest;
      if WordChar(s[0]) { WordLengthMore(s[1..], rest); }
    }
  }

  /** A token is read as before when a hash sign or a blank follows. */
  lemma ScanMore(isIp: string -> bool, s: string, rest: string)
    requires s != [] && rest != [] && Stops(rest[0]) && ScanOne(isIp, s).Ok?
    ensures ScanOne(isIp, s + rest) == ScanOne(isIp, s)
  {
    hide ReadString, WordLength;
    var t := s + rest;
    assert t[0] == s[0] && t[1..] == s[1..] + rest;
    SameArrow(s, rest);
    if IsQuote(s[0]) {
      ReadMore(s[1..], s[0], false, rest);
    } else if WordChar(s[0]) {
      WordLengthMore(s, rest);
      assert t[..WordLength(s)] == s[..WordLength(s)];
    }
  }

  lemma SameArrow(s: string, rest: string)
    requires s != [] && rest != [] && Stops(rest[0])
    ensures "->" <= s + rest <==> "->" <= s
  {
    var t := s + rest;
    assert "->" <= t <==> t[..2] == "->";
    if |s| >= 2 {
      assert t[..2] == s[..2];
    } else {
      assert t[1] == rest[0];
    }
  }

  // ---------------------------------------------------------------- blanks at the end of a line

  lemma {:induction false} NoEndMore(s: string, quote: char, escaped: bool, blanks: string)
    requires ReadString(s, quote, escaped) == None && Blank(blanks) && IsQuote(quote)
    ensures ReadString(s + blanks, quote, escaped) == None
  {
    if s == [] {
      assert s + blanks == blanks;
      NoEndInBlanks(blanks, quote, escaped);
    } else {
      assert (s + blanks)[0] == s[0] && (s + blanks)[1..] == s[1..] + blanks;
      if s[0] == '\\' && !escaped { NoEndMore(s[1..], quote, true, blanks); } else { NoEndMore(s[1..], quote, false, blanks); }
    }
  }

  lemma {:induction false} NoEndInBlanks(blanks: string, quote: char, escaped: bool)
    requires Blank(blanks) && IsQuote(quote)
    ensures ReadString(blanks, quote, escaped) == None
  {
    if blanks != [] { NoEndInBlanks(blanks[1..], quote, false); }
  }

  lemma FailsAsBefore(isIp: string -> bool, s: string, blanks: string)
    requires s != [] && blanks != [] && Blank(blanks) && ScanOne(isIp, s).Err?
    ensures ScanOne(isIp, s + blanks) == ScanOne(isIp, s)
  {
    hide ReadString, WordLength;
    assert (s + blanks)[0] == s[0] && (s + blanks)[1..] == s[1..] + blanks;
    SameArrow(s, blanks);
    if IsQuote(s[0]) { NoEndMore(s[1..], s[0], false, blanks); }
  }

  lemma {:induction false} OnlyBlanks(isIp: string -> bool, blanks: string)
    requires Blank(blanks)
    ensures LexText(isIp, blanks) == Ok([])
  {
    if blanks != [] {
      OnlyBlanks(isIp, blanks[1..]);
      BlankPrepends(LexText(isIp, blanks[1..]));
    }
  }

  /** Blanks at its end change nothing in a text, not even its error. */
  lemma {:induction false} TextThenBlanks(isIp: string -> bool, s: string, blanks: string)
    requires Blank(blanks)
    ensures LexText(isIp, s + blanks) == LexText(isIp, s)
    decreases |s|
  {
    hide ScanOne;
    if blanks == [] {
      assert s + blanks == s;
    } else if s == [] {
      assert s + blanks == blanks;
      OnlyBlanks(isIp, blanks);
    } else if ScanOne(isIp, s).Err? {
      FailsAsBefore(isIp, s, blanks);
    } else {
      ScanMore(isIp, s, blanks);
      var n := ScanOne(isIp, s).value.length;
      assert (s + blanks)[n..] == s[n..] + blanks;
      TextThenBlanks(isIp, s[n..], blanks);
    }
  }

  /** A line without the blanks at its end. */
  function Trimmed(s: string): (r: string)
    ensures r <= s && Blank(s[|r|..])
    ensures r == [] <==> Blank(s)
    ensures r != [] ==> !Text.IsSpace(r[|r| - 1])
  {
    if s != [] && Text.IsSpace(s[|s| - 1]) then
      var r := Trimmed(s[..|s| - 1]);
      assert s == s[..|s| - 1] + [s[|s| - 1]];
      r
    else s
  }

  lemma LineThenBlanks(isIp: string -> bool, line: string, blanks: string, indents: seq<nat>)
    requires IsStack(indents) && Blank(blanks)
    ensures LexStripped(isIp, line + blanks, indents) == LexStripped(isIp, line, indents)
  {
    hide LexText, Reindent, LeadingSpaces, LeadingBlanks;
    if Blank(line) {
      BothBlank(line, blanks);
    } else {
      var t, n := line + blanks, LeadingSpaces(line);
      SameLead(line, blanks);
      NotBlankMore(line, blanks);
      assert t[..LeadingBlanks(line)] == line[..LeadingBlanks(line)];
      assert t[n..] == line[n..] + blanks;
      TextThenBlanks(isIp, line[n..], blanks);
    }
  }

  lemma BothBlank(line: string, blanks: string)
    requires Blank(line) && Blank(blanks)
    ensures Blank(line + blanks)
  {
  }

  // ---------------------------------------------------------------- a comment that is not recognised

  lemma {:induction false} TextThenHash(isIp: string -> bool, s: string, rest: string)
    requires rest != [] && rest[0] == '#' && LexText(isIp, s).Ok?
    ensures LexText(isIp, s + rest) == Err(Unexpected('#'))
    decreases |s|
  {
    hide ScanOne;
    if s == [] {
      assert s + rest == rest;
      HashIsUnexpected(isIp, rest);
    } else {
      ScanMore(isIp, s, rest);
      var n := ScanOne(isIp, s).value.length;
      assert (s + rest)[n..] == s[n..] + rest;
      TextThenHash(isIp, s[n..], rest);
    }
  }

  lemma HashIsUnexpected(isIp: string -> bool, rest: string)
    requires rest != [] && rest[0] == '#'
    ensures ScanOne(isIp, rest) == Err(Unexpected('#'))
  {
  }

  lemma {:induction false} BlankIsSettled(line: string)
    requires Blank(line)
    ensures ScanState(line, None, false).0 == None
  {
    if line != [] { BlankIsSettled(line[1..]); }
  }

  lemma {:induction false} SameLead(line: string, rest: string)
    requires !Blank(line)
    ensures LeadingSpaces(line + rest) == LeadingSpaces(line) < |line|
    ensures LeadingBlanks(line + rest) == LeadingBlanks(line) < |line|
  {
    assert (line + rest)[0] == line[0] && (line + rest)[1..] == line[1..] + rest;
    if line[0] == ' ' || line[0] == '\t' {
      StillNotBlank(line);
      SameLead(line[1..], rest);
    }
  }

  lemma StillNotBlank(line: string)
    requires !Blank(line) && Text.IsSpace(line[0])
    ensures !Blank(line[1..])
  {
    var i :| 0 <= i < |line| && !Text.IsSpace(line[i]);
    assert line[1..][i - 1] == line[i];
  }

  /** A line with a hash sign that the comment scanner left in place is refused by the tokenizer. */
  lemma HashIsRefused(isIp: string -> bool, line: string, kept: string, indents: seq<nat>)
    requires IsStack(indents) && kept != [] && kept[0] == '#' && !Blank(line)
    requires LexText(isIp, line[LeadingSpaces(line)..]).Ok?
    ensures LexStripped(isIp, line + kept, indents) ==
              if LexStripped(isIp, line, indents).Ok? then Err(Unexpected('#')) else Err(LexStripped(isIp, line, indents).error)
  {
    hide LexText, Reindent, LeadingSpaces, LeadingBlanks;
    var t, n := line + kept, LeadingSpaces(line);
    SameLead(line, kept);
    NotBlankMore(line, kept);
    assert t[..LeadingBlanks(line)] == line[..LeadingBlanks(line)];
    assert t[n..] == line[n..] + kept;
    TextThenHash(isIp, line[n..], kept);
  }

  lemma NotBlankMore(line: string, kept: string)
    requires !Blank(line)
    ensures !Blank(line + kept)
  {
    var i :| 0 <= i < |line| && !Text.IsSpace(line[i]);
    assert (line + kept)[i] == line[i];
  }

  /** What may follow a line: blanks, and then a comment or nothing. */
  predicate IsTail(rest: string) {
    rest == [] || rest[0] == '#' || (Text.IsSpace(rest[0]) && IsTail(rest[1..]))
  }

  /** The blanks of a tail. */
  function Gap(rest: string): (blanks: string)
    requires IsTail(rest)
    ensures blanks <= rest && Blank(blanks)
    ensures rest == blanks || rest[|blanks|] == '#'
  {
    if rest == [] || rest[0] == '#' then []
    else
      var more := Gap(rest[1..]);
      assert rest == [rest[0]] + rest[1..];
      [rest[0]] + more
  }

  lemma {:induction false} BlanksPass(blanks: string, quote: Option<char>, escaped: bool)
    requires Blank(blanks) && (quote.Some? ==> IsQuote(quote.value))
    ensures Uncommented(blanks, quote, escaped) == blanks && ScanState(blanks, quote, escaped).0 == quote
  {
    if blanks != [] { BlanksPass(blanks[1..], quote, NextEscape(blanks[0], quote, escaped)); }
  }

  lemma {:induction false} ScanStateMore(s: string, post: string, quote: Option<char>, escaped: bool)
    ensures var (q, e) := ScanState(s, quote, escaped);
            ScanState(s + post, quote, escaped) == ScanState(post, q, e)
  {
    hide NextQuote, NextEscape;
    if s == [] {
      assert s + post == post;
    } else {
      assert (s + post)[0] == s[0] && (s + post)[1..] == s[1..] + post;
      ScanStateMore(s[1..], post, NextQuote(s[0], quote, escaped), NextEscape(s[0], quote, escaped));
    }
  }

  /** Blanks after a line neither open nor close a quote. */
  lemma BlanksAfter(line: string, blanks: string)
    requires Content(line) == line && Blank(blanks)
    ensures Content(line + blanks) == line + blanks
    ensures ScanState(line + blanks, None, false).0 == ScanState(line, None, false).0
  {
    hide ScanState, Uncommented;
    var (q, e) := ScanState(line, None, false);
    StaysSettled(line, None, false);
    ScanThrough(line, blanks, None, false);
    ScanStateMore(line, blanks, None, false);
    BlanksPass(blanks, q, e);
  }

  /**
   * For every line without a comment that the lexer accepts: blanks and a comment after it change nothing exactly when
   * the line leaves no quote open, and otherwise the line is refused at the hash sign.
   */
  lemma CommentIsInvisibleIff(isIp: string -> bool, line: string, tail: string, indents: seq<nat>)
    requires IsStack(indents) && Content(line) == line && IsTail(tail) && !Blank(tail)
    requires LexLine(isIp, line, indents).Ok?
    ensures LexLine(isIp, line + tail, indents) ==
              if Closed(line) then LexLine(isIp, line, indents) else Err(Unexpected('#'))
  {
    hide LexText, LexStripped, Content, ScanState;
    var blanks := Gap(tail);
    var comment, line2 := tail[|blanks|..], line + blanks;
    assert tail == blanks + comment && line + tail == line2 + comment;
    assert comment == [] ==> tail == blanks;
    BlanksAfter(line, blanks);
    LineThenBlanks(isIp, line, blanks, indents);
    CommentIsCutIff(line2, comment);
    if !Closed(line) {
      NotBlankWhenOpen(line);
      NotBlankMore(line, blanks);
      var kept :| kept != [] && kept[0] == '#' && Content(line + tail) == line2 + kept;
      AcceptedText(isIp, line2, indents);
      HashIsRefused(isIp, line2, kept, indents);
    }
  }

  lemma NotBlankWhenOpen(line: string)
    requires Content(line) == line && !Closed(line)
    ensures !Blank(line)
  {
    if Blank(line) { BlankIsSettled(line); }
  }

  lemma AcceptedText(isIp: string -> bool, line: string, indents: seq<nat>)
    requires IsStack(indents) && LexStripped(isIp, line, indents).Ok? && !Blank(line)
    ensures LexText(isIp, line[LeadingSpaces(line)..]).Ok?
  {
    hide LexText, Reindent;
  }

  /** An instance: a bare word with a quote character in it leaves a quote open. */
  lemma ApostropheHidesComment(isIp: string -> bool)
    ensures Lex(isIp, ["a'"]) == Ok([WordToken(isIp, "a'"), NewLine, End])
    ensures Lex(isIp, ["a'#"]) == Err(Unexpected('#'))
  {
    hide LexText;
    assert Content("a'") == "a'" by { assert Uncommented("'", None, false) == "'"; }
    assert Content("a'#") == "a'#" by {
      assert Uncommented("#", Some('\''), false) == "#";
      assert Uncommented("'#", None, false) == "'#";
    }
    WordThenHash(isIp);
    assert !Blank("a'") && !Blank("a'#") by { assert "a'"[0] == 'a' && "a'#"[0] == 'a'; }
    assert "a'"[0..] == "a'" && "a'#"[0..] == "a'#";
    var w := WordToken(isIp, "a'");
    assert Dedents(0) == [] && Popped([0], 0) == [0];
    assert LexLines(isIp, [], [0]) == Ok([End]) by { assert Dedents(0) + [End] == [End]; }
    assert LexLine(isIp, "a'", [0]) == Ok(Indented([w, NewLine], [0])) by { assert [] + [w] + [NewLine] == [w, NewLine]; }
    assert [w, NewLine] + [End] == [w, NewLine, End];
    assert ["a'"][1..] == [] && ["a'#"][1..] == [];
  }

  lemma WordThenHash(isIp: string -> bool)
    ensures LexText(isIp, "a'") == Ok([WordToken(isIp, "a'")])
    ensures LexText(isIp, "a'#") == Err(Unexpected('#'))
  {
    assert WordLength("'") == 1 by { assert WordLength("") == 0; }
    assert WordLength("'#") == 1 by { assert WordLength("#") == 0; }
    assert WordLength("a'") == 2 && WordLength("a'#") == 2;
    assert "a'"[..2] == "a'" && "a'#"[..2] == "a'" && "a'"[2..] == "" && "a'#"[2..] == "#";
    assert LexText(isIp, "") == Ok([]) && [WordToken(isIp, "a'")] + [] == [WordToken(isIp, "a'")];
    assert ScanOne(isIp, "#") == Err(Unexpected('#'));
  }

  // ---------------------------------------------------------------- the lines that count

  /** The lines without their comments and the blanks before them, and without those that are blank then. */
  function Significant(lines: seq<string>): seq<string> {
    if lines == [] then []
    else (if Blank(Content(lines[0])) then [] else [Trimmed(Content(lines[0]))]) + Significant(lines[1..])
  }

  /** The tokens of a source depend on these lines only: comments and blank lines beside them change nothing. */
  lemma {:induction false} OnlySignificant(isIp: string -> bool, lines: seq<string>, indents: seq<nat>)
    requires IsStack(indents)
    ensures LexLines(isIp, lines, indents) == LexContents(isIp, Significant(lines), indents)
  {
    hide LexStripped, Content, Trimmed;
    if lines != [] {
      var line := Content(lines[0]);
      if Blank(line) {
        BlankLine(isIp, lines[0], indents);
        OnlySignificant(isIp, lines[1..], indents);
        BlankPrepends(LexLines(isIp, lines[1..], indents));
        assert [] + Significant(lines[1..]) == Significant(lines[1..]);
      } else {
        var trimmed := Trimmed(line);
        assert line == trimmed + line[|trimmed|..];
        LineThenBlanks(isIp, trimmed, line[|trimmed|..], indents);
        var first := LexStripped(isIp, trimmed, indents);
        assert ([trimmed] + Significant(lines[1..]))[1..] == Significant(lines[1..]);
        if first.Ok? { OnlySignificant(isIp, lines[1..], first.value.indents); }
      }
    }
  }

  /** So sources with the same lines that count have the same tokens, or the same error. */
  lemma DecorationIsInvisible(isIp: string -> bool, lines: seq<string>, lines': seq<string>)
    requires Significant(lines) == Significant(lines')
    ensures Lex(isIp, lines) == Lex(isIp, lines')
  {
    OnlySignificant(isIp, lines, [0]);
    OnlySignificant(isIp, lines', [0]);
    hide LexLines, LexContents, Significant;
  }
}
