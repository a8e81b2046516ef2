/** Python's str operations on ASCII text: lower, strip, isdigit, int and str of an integer. */
module Text {
  import opened Results

  function LowerChar(c: char): char {
    if 'A' <= c <= 'Z' then c - 'A' + 'a' else c
  }

  function Lower(s: string): (r: string)
    ensures |r| == |s| && forall i :: 0 <= i < |s| ==> r[i] == LowerChar(s[i])
  {
    if s == [] then [] else [LowerChar(s[0])] + Lower(s[1..])
  }

  lemma LowerTwice(s: string)
    ensures Lower(Lower(s)) == Lower(s)
  {
  }

  predicate IsDigit(c: char) {
    '0' <= c <= '9'
  }

  predicate IsDigits(s: string) {
    s != [] && forall i :: 0 <= i < |s| ==> IsDigit(s[i])
  }

  predicate IsSpace(c: char) {
    c == ' ' || '\t' <= c <= '\r' || '\U{1c}' <= c <= '\U{1f}'
  }

  function Strip(s: string): (r: string)
    ensures r != [] ==> !IsSpace(r[0]) && !IsSpace(r[|r| - 1])
    decreases |s|
  {
    if s == [] then []
    else if IsSpace(s[0]) then Strip(s[1..])
    else if IsSpace(s[|s| - 1]) then Strip(s[..|s| - 1])
    else s
  }

  predicate AllSpace(s: string) {
    forall i :: 0 <= i < |s| ==> IsSpace(s[i])
  }

  /** Stripping takes the space off both ends, however much there is, and nothing else. */
  lemma {:induction false} StripPadded(before: string, core: string, after: string)
    requires AllSpace(before) && AllSpace(after)
    requires core != "" ==> !IsSpace(core[0]) && !IsSpace(core[|core| - 1])
    ensures Strip(before + core + after) == core
    decreases |before| + |after|
  {
    var s := before + core + after;
    if before != "" {
      assert s[1..] == before[1..] + core + after;
      StripPadded(before[1..], core, after);
    } else if core == "" && after != "" {
      assert s[1..] == before + core + after[1..];
      StripPadded(before, core, after[1..]);
    } else if after != "" {
      assert s[..|s| - 1] == before + core + after[..|after| - 1];
      StripPadded(before, core, after[..|after| - 1]);
    } else {
      assert s == core;
    }
  }

  // ---------------------------------------------------------------- decimal numerals

  function Digit(d: nat): char
    requires d < 10
  {
    '0' + d as char
  }

  /** str(n) of a natural number. */
  function Decimal(n: nat): (s: string)
    ensures IsDigits(s)
    decreases n
  {
    if n < 10 then [Digit(n)] else Decimal(n / 10) + [Digit(n % 10)]
  }

  /** int(s) of a string of digits. */
  function Number(s: string): nat
    requires forall i :: 0 <= i < |s| ==> IsDigit(s[i])
  {
    if s == [] then 0
    else
      assert IsDigit(s[|s| - 1]);
      10 * Number(s[..|s| - 1]) + (s[|s| - 1] - '0') as nat
  }

  lemma {:induction false} NumberOfDecimal(n: nat)
    ensures Number(Decimal(n)) == n
  {
    if n >= 10 {
      NumberOfDecimal(n / 10);
      assert Decimal(n)[..|Decimal(n)| - 1] == Decimal(n / 10);
    } else {
      assert Decimal(n)[..0] == [];
    }
  }

  /** A numeral is canonical when it is what str gives back: no leading zero. */
  predicate Canonical(s: string) {
    IsDigits(s) && (|s| > 1 ==> s[0] != '0')
  }

  lemma {:induction false} CanonicalIff(s: string)
    requires IsDigits(s)
    ensures Canonical(s) <==> Decimal(Number(s)) == s
  {
    DecimalIsCanonical(Number(s));
    if Canonical(s) { CanonicalSurvives(s); }
  }

  lemma {:induction false} DecimalIsCanonical(n: nat)
    ensures Canonical(Decimal(n)) && (n > 0 ==> Decimal(n)[0] != '0')
  {
    if n >= 10 { DecimalIsCanonical(n / 10); }
  }

  lemma {:induction false} CanonicalSurvives(s: string)
    requires Canonical(s)
    ensures Decimal(Number(s)) == s
    ensures s != "0" ==> Number(s) > 0
  {
    var front, last := s[..|s| - 1], s[|s| - 1];
    assert s == front + [last];
    var d := LastDigit(s);
    hide Number;
    if front != [] {
      CanonicalSurvives(front);
      assert Number(front) > 0;
      DivideByTen(Number(front), d);
    }
  }

  lemma LastDigit(s: string) returns (d: nat)
    requires IsDigits(s)
    ensures d < 10 && Digit(d) == s[|s| - 1] && Number(s) == 10 * Number(s[..|s| - 1]) + d
    ensures |s| == 1 ==> Number(s[..|s| - 1]) == 0
  {
    assert IsDigit(s[|s| - 1]);
    d := (s[|s| - 1] - '0') as nat;
  }

  lemma DivideByTen(n: nat, d: nat)
    requires d < 10
    ensures (10 * n + d) / 10 == n && (10 * n + d) % 10 == d
  {
  }

  /** int(s): surrounding blanks and a sign are allowed, anything else is refused. */
  function ParseInt(s: string): Option<int> {
    var body := Strip(s);
    var (negative, digits) :=
      if body != [] && body[0] == '-' then (true, body[1..])
      else if body != [] && body[0] == '+' then (false, body[1..])
      else (false, body);
    if !IsDigits(digits) then None
    else
      var n: int := Number(digits);
      Some(if negative then -n else n)
  }
}
