/** The deduplicating artifact collection of one plan run: blackline/core/artifacts.py. */
module Artifacts {
  import opened PlanModel

  /** Two artifacts are the same fact whatever their confidence and time, and in no other case. */
  lemma SameFact(a: Artifact, b: Artifact)
    ensures a.Key() == b.Key() <==>
            exists confidence, observedAt :: b == a.(confidence := confidence, observedAt := observedAt)
  {
    if a.Key() == b.Key() {
      assert b == a.(confidence := b.confidence, observedAt := b.observedAt);
    }
  }

  predicate HasKey(s: seq<Artifact>, key: ArtifactKey) {
    exists k :: 0 <= k < |s| && s[k].Key() == key
  }

  /** The store's contents after adding one artifact. */
  function Added(s: seq<Artifact>, a: Artifact): seq<Artifact> {
    if HasKey(s, a.Key()) then s else s + [a]
  }

  function AddedAll(s: seq<Artifact>, more: seq<Artifact>): seq<Artifact>
    decreases |more|
  {
    if more == [] then s else AddedAll(Added(s, more[0]), more[1..])
  }

  predicate HasKind(s: seq<Artifact>, kind: string) {
    exists k :: 0 <= k < |s| && s[k].kind == kind
  }

  predicate DistinctKeys(s: seq<Artifact>) {
    forall i, j :: 0 <= i < j < |s| ==> s[i].Key() != s[j].Key()
  }

  /** First occurrences only: an artifact stays unless an earlier one has the same key. */
  function FirstOccurrences(s: seq<Artifact>): seq<Artifact> {
    if s == [] then []
    else
      var front, last := s[..|s| - 1], s[|s| - 1];
      if HasKey(front, last.Key()) then FirstOccurrences(front) else FirstOccurrences(front) + [last]
  }

  /** Removing duplicates loses no key and leaves none twice. */
  lemma {:induction false} FirstOccurrencesKeepKeys(s: seq<Artifact>)
    ensures DistinctKeys(FirstOccurrences(s))
    ensures forall key :: HasKey(FirstOccurrences(s), key) <==> HasKey(s, key)
  {
    if s != [] {
      var front, last := s[..|s| - 1], s[|s| - 1];
      FirstOccurrencesKeepKeys(front);
      var kept := FirstOccurrences(front);
      forall key ensures HasKey(FirstOccurrences(s), key) <==> HasKey(s, key) {
        KeysOfSnoc(front, last, key);
        KeysOfSnoc(kept, last, key);
        assert s == front + [last];
      }
    }
  }

  lemma KeysOfSnoc(front: seq<Artifact>, last: Artifact, key: ArtifactKey)
    ensures HasKey(front + [last], key) <==> HasKey(front, key) || last.Key() == key
  {
    if HasKey(front, key) {
      var k :| 0 <= k < |front| && front[k].Key() == key;
      assert (front + [last])[k].Key() == key;
    }
    assert (front + [last])[|front|] == last;
  }

  lemma {:induction false} AddedAllSnoc(s: seq<Artifact>, more: seq<Artifact>, a: Artifact)
    ensures AddedAll(s, more + [a]) == Added(AddedAll(s, more), a)
    decreases |more|
  {
    if more == [] {
      assert more + [a] == [a];
      assert AddedAll(Added(s, a), []) == Added(s, a);
    } else {
      assert (more + [a])[1..] == more[1..] + [a];
      AddedAllSnoc(Added(s, more[0]), more[1..], a);
    }
  }

  /** Adding one by one to an empty store is exactly removing later duplicates. */
  lemma {:induction false} AddedAllIsFirstOccurrences(s: seq<Artifact>)
    ensures AddedAll([], s) == FirstOccurrences(s)
  {
    if s != [] {
      var front, last := s[..|s| - 1], s[|s| - 1];
      assert s == front + [last];
      AddedAllSnoc([], front, last);
      AddedAllIsFirstOccurrences(front);
      FirstOccurrencesKeepKeys(front);
    }
  }

  lemma {:induction false} AddedAllJoin(s: seq<Artifact>, a: seq<Artifact>, b: seq<Artifact>)
    ensures AddedAll(s, a + b) == AddedAll(AddedAll(s, a), b)
    decreases |a|
  {
    if a == [] {
      assert a + b == b;
    } else {
      assert (a + b)[1..] == a[1..] + b;
      AddedAllJoin(Added(s, a[0]), a[1..], b);
    }
  }

  /** Nothing that is in the store is ever lost, so a kind once present stays present. */
  lemma {:induction false} AddedAllExtends(s: seq<Artifact>, more: seq<Artifact>)
    ensures s <= AddedAll(s, more)
    decreases |more|
  {
    if more != [] { AddedAllExtends(Added(s, more[0]), more[1..]); }
  }

  class ArtifactStore {
    var artifacts: seq<Artifact>
    var identities: set<ArtifactKey>

    ghost predicate Valid() reads this {
      DistinctKeys(artifacts) && forall key :: key in identities <==> HasKey(artifacts, key)
    }

    constructor (initial: seq<Artifact>)
      ensures Valid() && artifacts == FirstOccurrences(initial)
    {
      artifacts, identities := [], {};
      new;
      Extend(initial);
      AddedAllIsFirstOccurrences(initial);
    }

    method Add(a: Artifact) returns (added: bool)
      requires Valid()
      modifies this
      ensures Valid() && artifacts == Added(old(artifacts), a)
      ensures added <==> !HasKey(old(artifacts), a.Key())
    {
      var key := a.Key();
      if key in identities { return false; }
      forall k ensures HasKey(artifacts + [a], k) <==> HasKey(artifacts, k) || k == key {
        KeysOfSnoc(artifacts, a, k);
      }
      forall i | 0 <= i < |artifacts| ensures artifacts[i].Key() != key {
        assert !HasKey(artifacts, key);
      }
      identities := identities + {key};
      artifacts := artifacts + [a];
      added := true;
    }

    method Extend(more: seq<Artifact>)
      requires Valid()
      modifies this
      ensures Valid() && artifacts == AddedAll(old(artifacts), more)
    {
      ghost var was := artifacts;
      for k := 0 to |more|
        invariant Valid()
        invariant artifacts == AddedAll(was, more[..k])
      {
        var _ := Add(more[k]);
        AddedAllSnoc(was, more[..k], more[k]);
        assert more[..k + 1] == more[..k] + [more[k]];
      }
      assert more[..|more|] == more;
    }

    /** A snapshot holds the same artifacts in the same order and shares nothing with the store. */
    method Snapshot() returns (copy: ArtifactStore)
      requires Valid()
      ensures fresh(copy) && copy.Valid() && copy.artifacts == artifacts
    {
      copy := new ArtifactStore(artifacts);
      DistinctAreFirst(artifacts);
    }
  }

  lemma {:induction false} DistinctAreFirst(s: seq<Artifact>)
    requires DistinctKeys(s)
    ensures FirstOccurrences(s) == s
  {
    if s != [] {
      var front, last := s[..|s| - 1], s[|s| - 1];
      DistinctAreFirst(front);
      assert s == front + [last];
    }
  }
}
