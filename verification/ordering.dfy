/** Sorting by a strict order without keeping duplicates, and the orders the program sorts by. */
module Ordering {
  // ---------------------------------------------------------------- any order

  ghost predicate Total<T(!new)>(less: (T, T) -> bool) {
    forall x, y :: less(x, y) || x == y || less(y, x)
  }

  ghost predicate Strict<T(!new)>(less: (T, T) -> bool) {
    forall x, y :: less(x, y) ==> !less(y, x) && x != y
  }

  ghost predicate Transitive<T(!new)>(less: (T, T) -> bool) {
    forall x, y, z :: less(x, y) && less(y, z) ==> less(x, z)
  }

  ghost predicate Order<T(!new)>(less: (T, T) -> bool) {
    Total(less) && Strict(less) && Transitive(less)
  }

  lemma Trans<T(!new)>(less: (T, T) -> bool, x: T, y: T, z: T)
    requires Order(less) && less(x, y) && less(y, z)
    ensures less(x, z)
  {
  }

  lemma Tri<T(!new)>(less: (T, T) -> bool, x: T, y: T)
    requires Order(less)
    ensures less(x, y) || x == y || less(y, x)
    ensures !(less(x, y) && less(y, x)) && !less(x, x)
  {
  }

  predicate Increasing<T>(less: (T, T) -> bool, s: seq<T>) {
    forall a, b :: 0 <= a < b < |s| ==> less(s[a], s[b])
  }

  /** Python's sorted(set(s)). */
  function SortedSet<T(!new, ==)>(less: (T, T) -> bool, s: seq<T>): (r: seq<T>)
    requires Order(less)
    ensures Increasing(less, r) && forall x :: x in r <==> x in s
  {
    if s == [] then []
    else
      var rest := SortedSet(less, s[1..]);
      assert s == [s[0]] + s[1..];
      Insert(less, s[0], rest)
  }

  function Insert<T(!new, ==)>(less: (T, T) -> bool, x: T, s: seq<T>): (r: seq<T>)
    requires Order(less) && Increasing(less, s)
    ensures Increasing(less, r) && forall y :: y in r <==> y == x || y in s
  {
    if s == [] then [x]
    else if x == s[0] then s
    else if less(x, s[0]) then
      IncreasingCons(less, x, s);
      [x] + s
    else
      Tri(less, x, s[0]);
      var rest := Insert(less, x, s[1..]);
      assert s == [s[0]] + s[1..];
      IncreasingCons(less, s[0], rest);
      [s[0]] + rest
  }

  lemma IncreasingCons<T(!new)>(less: (T, T) -> bool, first: T, rest: seq<T>)
    requires Order(less) && Increasing(less, rest)
    ensures (forall x :: x in rest ==> less(first, x)) ==> Increasing(less, [first] + rest)
    ensures rest != [] && less(first, rest[0]) ==> Increasing(less, [first] + rest)
  {
    hide Order;
    var s := [first] + rest;
    if rest != [] && less(first, rest[0]) {
      forall b | 0 <= b < |rest| ensures less(first, rest[b]) {
        if b > 0 { Trans(less, first, rest[0], rest[b]); }
      }
    }
    if forall x :: x in rest ==> less(first, x) {
      forall a, b | 0 <= a < b < |s| ensures less(s[a], s[b]) {
        assert s[b] == rest[b - 1] && rest[b - 1] in rest;
      }
    }
  }

  /** An increasing sequence is determined by its elements. */
  lemma {:induction false} IncreasingIsCanonical<T(!new)>(less: (T, T) -> bool, a: seq<T>, b: seq<T>)
    requires Order(less) && Increasing(less, a) && Increasing(less, b) && forall x :: x in a <==> x in b
    ensures a == b
  {
    hide Order;
    assert a != [] ==> a[0] in b;
    assert b != [] ==> b[0] in a;
    if a != [] && b != [] {
      Tri(less, a[0], b[0]);
      assert a[0] == b[0];
      assert a == [a[0]] + a[1..] && b == [b[0]] + b[1..];
      forall x ensures x in a[1..] <==> x in b[1..] {
        Tri(less, x, x);
        assert x in a <==> x == a[0] || x in a[1..];
        assert x in b <==> x == b[0] || x in b[1..];
      }
      IncreasingIsCanonical(less, a[1..], b[1..]);
    }
  }

  /** The elements of a sequence that satisfy a predicate, in order. */
  function Filter<T(!new)>(keep: T -> bool, s: seq<T>): (r: seq<T>)
    ensures forall x :: x in r <==> x in s && keep(x)
  {
    if s == [] then [] else (if keep(s[0]) then [s[0]] else []) + Filter(keep, s[1..])
  }

  lemma {:induction false} FilterIncreasing<T(!new)>(less: (T, T) -> bool, keep: T -> bool, s: seq<T>)
    requires Order(less) && Increasing(less, s)
    ensures Increasing(less, Filter(keep, s))
  {
    hide Order;
    if s != [] {
      FilterIncreasing(less, keep, s[1..]);
      IncreasingCons(less, s[0], Filter(keep, s[1..]));
      forall x | x in s[1..] ensures less(s[0], x) {
        var k :| 0 <= k < |s[1..]| && s[1..][k] == x;
        assert s[k + 1] == x;
      }
    }
  }

  /** sorted(s) of a Python set. */
  method SortSet<T(!new, ==)>(less: (T, T) -> bool, s: set<T>) returns (r: seq<T>)
    requires Order(less)
    ensures Increasing(less, r) && forall x :: x in r <==> x in s
  {
    hide Order;
    r := [];
    var left := s;
    while left != {}
      invariant left <= s && Increasing(less, r)
      invariant forall x :: x in r <==> x in s && x !in left
      decreases left
    {
      var x :| x in left;
      r := Insert(less, x, r);
      left := left - {x};
    }
  }

  // ---------------------------------------------------------------- code-point order on strings

  predicate Less(a: string, b: string) {
    b != [] && (a == [] || a[0] < b[0] || (a[0] == b[0] && Less(a[1..], b[1..])))
  }

  /** The strings agree up to k, and there the first one ends or has the smaller character. */
  predicate DiffersAt(a: string, b: string, k: nat) {
    k <= |a| && k < |b| && a[..k] == b[..k] && (k == |a| || a[k] < b[k])
  }

  /** The order of strings is the one by the first difference. */
  lemma {:induction false} LessIff(a: string, b: string)
    ensures Less(a, b) <==> exists k: nat :: DiffersAt(a, b, k)
  {
    if a == [] {
      assert b != [] ==> DiffersAt(a, b, 0);
    } else if b != [] {
      if a[0] < b[0] { assert DiffersAt(a, b, 0); }
      LessIff(a[1..], b[1..]);
      if a[0] == b[0] && Less(a, b) {
        var k: nat :| DiffersAt(a[1..], b[1..], k);
        assert a[..k + 1] == [a[0]] + a[1..][..k] && b[..k + 1] == [b[0]] + b[1..][..k];
        assert DiffersAt(a, b, k + 1);
      }
      if k: nat :| DiffersAt(a, b, k) {
        if k > 0 {
          assert a[0] == a[..k][0] == b[..k][0] == b[0];
          assert a[1..][..k - 1] == a[..k][1..] && b[1..][..k - 1] == b[..k][1..];
          assert DiffersAt(a[1..], b[1..], k - 1);
        }
      }
    }
  }

  lemma {:induction false} LessIsStrict(a: string, b: string)
    requires Less(a, b)
    ensures !Less(b, a) && a != b
  {
    if a != [] && a[0] == b[0] { LessIsStrict(a[1..], b[1..]); }
  }

  lemma {:induction false} LessIsTransitive(a: string, b: string, c: string)
    requires Less(a, b) && Less(b, c)
    ensures Less(a, c)
  {
    if a != [] && a[0] == b[0] && b[0] == c[0] { LessIsTransitive(a[1..], b[1..], c[1..]); }
  }

  lemma {:induction false} LessIsTotal(a: string, b: string)
    ensures Less(a, b) || a == b || Less(b, a)
  {
    if a != [] && b != [] && a[0] == b[0] {
      LessIsTotal(a[1..], b[1..]);
      assert a == [a[0]] + a[1..] && b == [b[0]] + b[1..];
    }
  }

  lemma StringOrder()
    ensures Order(Less)
  {
    forall x, y ensures Less(x, y) || x == y || Less(y, x) { LessIsTotal(x, y); }
    forall x, y | Less(x, y) ensures !Less(y, x) && x != y { LessIsStrict(x, y); }
    forall x, y, z | Less(x, y) && Less(y, z) ensures Less(x, z) { LessIsTransitive(x, y, z); }
  }

  /** sorted(set(s)) of strings. */
  function SortedStrings(s: seq<string>): (r: seq<string>)
    ensures Increasing(Less, r) && forall x :: x in r <==> x in s
  {
    StringOrder();
    SortedSet(Less, s)
  }
}
