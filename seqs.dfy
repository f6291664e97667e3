/** Sequence utilities shared by the prompt builders and the registry. */
module Seqs {

  /** `xs.filter(id => !banned.has(id))`: every element not in `banned`, in the original order. */
  function Exclude(xs: seq<int>, banned: set<int>): (r: seq<int>)
    ensures forall x :: x in r <==> x in xs && x !in banned
    ensures forall x :: multiset(r)[x] == if x in banned then 0 else multiset(xs)[x]
    ensures |r| <= |xs|
  {
    if xs == [] then []
    else
      var rest := Exclude(xs[1..], banned);
      assert xs == [xs[0]] + xs[1..];
      if xs[0] in banned then rest else [xs[0]] + rest
  }

  /** Filtering commutes with concatenation: the relative order of the kept elements is the input's. */
  lemma {:induction false} ExcludeAppend(a: seq<int>, b: seq<int>, banned: set<int>)
    ensures Exclude(a + b, banned) == Exclude(a, banned) + Exclude(b, banned)
  {
    if a == [] {
      assert a + b == b;
    } else {
      assert (a + b)[0] == a[0];
      assert (a + b)[1..] == a[1..] + b;
      ExcludeAppend(a[1..], b, banned);
    }
  }

  /** Filtering with nothing banned is the identity. */
  lemma {:induction false} ExcludeNothing(xs: seq<int>)
    ensures Exclude(xs, {}) == xs
  {
    if xs != [] {
      ExcludeNothing(xs[1..]);
    }
  }

  ghost predicate Distinct<T>(s: seq<T>) {
    forall i, j :: 0 <= i < j < |s| ==> s[i] != s[j]
  }

  /** A sequence without repeats has as many elements as the set of its elements. */
  lemma {:induction false} DistinctCard<T>(s: seq<T>)
    requires Distinct(s)
    ensures |set x | x in s| == |s|
  {
    if s != [] {
      var tail := s[1..];
      DistinctCard(tail);
      assert (set x | x in s) == (set x | x in tail) + {s[0]};
      forall k | 0 <= k < |tail| ensures tail[k] != s[0] {
        assert tail[k] == s[k + 1];
      }
    }
  }

  /** Removing every occurrence of a value keeps a sequence free of repeats. */
  lemma {:induction false} ExcludeDistinct(xs: seq<int>, banned: set<int>)
    requires Distinct(xs)
    ensures Distinct(Exclude(xs, banned))
  {
    if xs != [] {
      ExcludeDistinct(xs[1..], banned);
      forall k | 0 <= k < |xs| - 1 ensures xs[1..][k] != xs[0] {
        assert xs[1..][k] == xs[k + 1];
      }
    }
  }
}
