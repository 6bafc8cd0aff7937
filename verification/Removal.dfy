/** Removing elements of a sequence by key: the first one with a key, or all with certain keys. */
module Removal {
  import opened Replay

  ghost predicate DistinctKeys<T>(s: seq<T>, key: T -> nat) {
    forall i, j :: 0 <= i < j < |s| ==> key(s[i]) != key(s[j])
  }

  function FirstWithKey<T>(s: seq<T>, key: T -> nat, id: nat): (k: nat)
    ensures k <= |s| && (k < |s| ==> key(s[k]) == id) && forall j :: 0 <= j < k ==> key(s[j]) != id
  {
    if s == [] then 0 else if key(s[0]) == id then 0 else 1 + FirstWithKey(s[1..], key, id)
  }

  function RemoveFirst<T>(s: seq<T>, key: T -> nat, id: nat): seq<T> {
    var k := FirstWithKey(s, key, id);
    if k == |s| then s else RemoveAt(s, k)
  }

  /** The elements whose key is not in `gone`, in their old order. */
  function Without<T>(s: seq<T>, key: T -> nat, gone: set<nat>): (r: seq<T>)
    ensures forall x :: x in r ==> x in s && key(x) !in gone
    ensures forall x :: x in s ==> key(x) in gone || x in r
  {
    if s == [] then []
    else
      var n := |s| - 1;
      assert forall x :: x in s ==> x in s[..n] || x == s[n];
      if key(s[n]) in gone then Without(s[..n], key, gone) else Without(s[..n], key, gone) + [s[n]]
  }

  lemma {:induction false} WithoutNothing<T>(s: seq<T>, key: T -> nat, gone: set<nat>)
    requires forall x :: x in s ==> key(x) !in gone
    ensures Without(s, key, gone) == s
  {
    if s == [] {
    } else {
      WithoutNothing(s[..|s| - 1], key, gone);
    }
  }

  lemma {:induction false} WithoutTwice<T>(s: seq<T>, key: T -> nat, a: set<nat>, b: set<nat>)
    ensures Without(Without(s, key, a), key, b) == Without(s, key, a + b)
  {
    if s == [] {
    } else {
      var (front, last) := (s[..|s| - 1], s[|s| - 1]);
      WithoutTwice(front, key, a, b);
      if key(last) !in a {
        var kept := Without(front, key, a);
        assert (kept + [last])[..|kept|] == kept;
      }
    }
  }

  lemma {:induction false} WithoutKeepsDistinct<T>(s: seq<T>, key: T -> nat, gone: set<nat>)
    requires DistinctKeys(s, key)
    ensures DistinctKeys(Without(s, key, gone), key)
  {
    if s == [] {
    } else {
      var front := s[..|s| - 1];
      WithoutKeepsDistinct(front, key, gone);
      var kept := Without(front, key, gone);
      forall i | 0 <= i < |kept| ensures key(kept[i]) != key(s[|s| - 1]) {
        assert kept[i] in front;
      }
    }
  }

  lemma RemoveAtFront<T>(s: seq<T>, k: nat)
    requires k < |s| - 1
    ensures RemoveAt(s, k) == RemoveAt(s[..|s| - 1], k) + [s[|s| - 1]]
  {
  }

  lemma {:induction false} WithoutOne<T>(s: seq<T>, key: T -> nat, k: nat)
    requires DistinctKeys(s, key) && k < |s|
    ensures RemoveAt(s, k) == Without(s, key, {key(s[k])})
  {
    var (front, last) := (s[..|s| - 1], s[|s| - 1]);
    if k == |s| - 1 {
      WithoutNothing(front, key, {key(last)});
    } else {
      WithoutOne(front, key, k);
      RemoveAtFront(s, k);
      assert key(last) != key(s[k]) && front[k] == s[k];
    }
  }

  /** Where keys are distinct, erasing the first element with a key is filtering by that key. */
  lemma ErasingIsFiltering<T>(s: seq<T>, key: T -> nat, id: nat)
    requires DistinctKeys(s, key)
    ensures RemoveFirst(s, key, id) == Without(s, key, {id})
  {
    var k := FirstWithKey(s, key, id);
    if k < |s| {
      WithoutOne(s, key, k);
    } else {
      WithoutNothing(s, key, {id});
    }
  }
}
