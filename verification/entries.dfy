/** Lists of (step index, value) pairs: what the program keeps where the step system speaks of maps. */
module Entries {
  datatype Entry<T> = Entry(index: nat, value: T)

  predicate Distinct<T>(entries: seq<Entry<T>>) {
    forall a, b :: 0 <= a < b < |entries| ==> entries[a].index != entries[b].index
  }

  predicate Stands<T(==)>(e: Entry<T>, m: map<nat, T>) {
    e.index in m && m[e.index] == e.value
  }

  predicate Named<T>(entries: seq<Entry<T>>, i: nat) {
    exists k :: 0 <= k < |entries| && entries[k].index == i
  }

  /** The list holds exactly the entries of the map, each once. */
  ghost predicate Lists<T>(entries: seq<Entry<T>>, m: map<nat, T>) {
    && Distinct(entries)
    && |entries| == |m|
    && (forall k :: 0 <= k < |entries| ==> Stands(entries[k], m))
    && (forall i :: i in m ==> Named(entries, i))
  }

  lemma Appended<T>(entries: seq<Entry<T>>, m: map<nat, T>, e: Entry<T>)
    requires Lists(entries, m) && e.index !in m
    ensures Lists(entries + [e], m[e.index := e.value])
  {
    var more, m' := entries + [e], m[e.index := e.value];
    forall i | i in m' ensures Named(more, i) {
      if i in m {
        var k :| 0 <= k < |entries| && entries[k].index == i;
        assert more[k].index == i;
      } else {
        assert more[|entries|].index == i;
      }
    }
    forall k | 0 <= k < |entries| ensures Stands(more[k], m') {
      assert Stands(entries[k], m);
    }
  }

  lemma Updated<T>(entries: seq<Entry<T>>, m: map<nat, T>, k: nat, v: T)
    requires Lists(entries, m) && k < |entries|
    ensures entries[k].index in m && Lists(entries[k := Entry(entries[k].index, v)], m[entries[k].index := v])
  {
    var i := entries[k].index;
    var more, m' := entries[k := Entry(i, v)], m[i := v];
    assert Stands(entries[k], m);
    SameSize(m, i, v);
    forall j | 0 <= j < |more| ensures Stands(more[j], m') {
      assert Stands(entries[j], m);
    }
    forall x | x in m' ensures Named(more, x) {
      var j :| 0 <= j < |entries| && entries[j].index == x;
      assert more[j].index == x;
    }
  }

  lemma SameSize<T>(m: map<nat, T>, i: nat, v: T)
    requires i in m
    ensures |m[i := v]| == |m|
  {
    assert m[i := v].Keys == m.Keys;
  }

  lemma Removed<T>(entries: seq<Entry<T>>, m: map<nat, T>, k: nat)
    requires Lists(entries, m) && k < |entries|
    ensures entries[k].index in m && Lists(entries[..k] + entries[k + 1..], m - {entries[k].index})
  {
    var i := entries[k].index;
    var less, m' := entries[..k] + entries[k + 1..], m - {i};
    assert Stands(entries[k], m);
    OneFewer(m, i);
    hide Named;
    forall j | 0 <= j < |less| ensures Stands(less[j], m') {
      var j' := if j < k then j else j + 1;
      assert less[j] == entries[j'] && Stands(entries[j'], m);
    }
    forall x | x in m' ensures Named(less, x) {
      StillNamed(entries, k, x);
    }
  }

  lemma StillNamed<T>(entries: seq<Entry<T>>, k: nat, i: nat)
    requires k < |entries| && Named(entries, i) && i != entries[k].index
    ensures Named(entries[..k] + entries[k + 1..], i)
  {
    var less := entries[..k] + entries[k + 1..];
    var j :| 0 <= j < |entries| && entries[j].index == i;
    assert less[if j < k then j else j - 1].index == i;
  }

  lemma OneFewer<T>(m: map<nat, T>, i: nat)
    requires i in m
    ensures |m - {i}| == |m| - 1
  {
    assert m == (m - {i})[i := m[i]];
  }

  // ---------------------------------------------------------------- sorting by index

  predicate Sorted<T>(entries: seq<Entry<T>>) {
    forall a, b :: 0 <= a < b < |entries| ==> entries[a].index < entries[b].index
  }

  function Inserted<T>(e: Entry<T>, entries: seq<Entry<T>>): (r: seq<Entry<T>>)
  {
    if entries == [] || e.index < entries[0].index then [e] + entries else [entries[0]] + Inserted(e, entries[1..])
  }

  function SortedByIndex<T>(entries: seq<Entry<T>>): seq<Entry<T>> {
    if entries == [] then [] else Inserted(entries[0], SortedByIndex(entries[1..]))
  }

  lemma {:induction false} InsertedKeeps<T>(e: Entry<T>, entries: seq<Entry<T>>)
    requires Sorted(entries) && forall x :: x in entries ==> x.index != e.index
    ensures Sorted(Inserted(e, entries)) && forall x :: x in Inserted(e, entries) <==> x == e || x in entries
  {
    if entries != [] && entries[0].index <= e.index {
      var rest := entries[1..];
      assert entries == [entries[0]] + rest;
      InsertedKeeps(e, rest);
      assert entries[0] in entries;
      SortedCons(entries[0], Inserted(e, rest));
    } else {
      SortedCons(e, entries);
    }
  }

  lemma SortedCons<T>(first: Entry<T>, rest: seq<Entry<T>>)
    requires Sorted(rest)
    ensures (forall x :: x in rest ==> first.index < x.index) ==> Sorted([first] + rest)
    ensures rest != [] && first.index < rest[0].index ==> Sorted([first] + rest)
  {
    var s := [first] + rest;
    if forall x :: x in rest ==> first.index < x.index {
      forall a, b | 0 <= a < b < |s| ensures s[a].index < s[b].index {
        assert s[b] == rest[b - 1] && rest[b - 1] in rest;
      }
    }
  }

  ghost predicate SameEntries<T(!new)>(a: seq<Entry<T>>, b: seq<Entry<T>>) {
    forall x :: x in a <==> x in b
  }

  /** Sorting keeps exactly the entries and puts them in ascending order of their index. */
  lemma {:induction false} SortedIsPermutation<T(!new)>(entries: seq<Entry<T>>)
    requires Distinct(entries)
    ensures Sorted(SortedByIndex(entries)) && SameEntries(SortedByIndex(entries), entries)
  {
    if entries != [] {
      var others := entries[1..];
      var rest := SortedByIndex(others);
      SortedIsPermutation(others);
      assert SameEntries(rest, others);
      assert entries == [entries[0]] + others;
      forall x | x in rest ensures x.index != entries[0].index {
        assert x in others;
      }
      InsertedKeeps(entries[0], rest);
    }
  }

  function Indexes<T>(entries: seq<Entry<T>>): (r: seq<nat>) {
    seq(|entries|, k requires 0 <= k < |entries| => entries[k].index)
  }

  lemma SortedStands<T(!new)>(entries: seq<Entry<T>>, m: map<nat, T>)
    requires Lists(entries, m)
    ensures Sorted(SortedByIndex(entries))
    ensures forall k :: 0 <= k < |SortedByIndex(entries)| ==> Stands(SortedByIndex(entries)[k], m)
  {
    SortedIsPermutation(entries);
    hide SortedByIndex, Sorted;
    forall k | 0 <= k < |SortedByIndex(entries)| ensures Stands(SortedByIndex(entries)[k], m) {
      assert SortedByIndex(entries)[k] in entries;
    }
  }

  lemma SortedNames<T(!new)>(entries: seq<Entry<T>>, m: map<nat, T>, i: nat)
    requires Lists(entries, m)
    ensures i in Indexes(SortedByIndex(entries)) <==> i in m
  {
    SortedStands(entries, m);
    SortedIsPermutation(entries);
    hide SortedByIndex, Sorted;
    var sorted := SortedByIndex(entries);
    if i in Indexes(sorted) {
      var k :| 0 <= k < |sorted| && Indexes(sorted)[k] == i;
      assert Stands(sorted[k], m);
    }
    if i in m {
      assert Named(entries, i);
      var k :| 0 <= k < |entries| && entries[k].index == i;
      assert entries[k] in sorted;
      var j :| 0 <= j < |sorted| && sorted[j] == entries[k];
      assert Indexes(sorted)[j] == i;
    }
  }
}
