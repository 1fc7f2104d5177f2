/** Sizes of sets and of sequences without repetition. */
module Collections {
  lemma {:induction false} DistinctSize<T>(p: seq<T>, s: set<T>)
    requires forall i, j | 0 <= i < j < |p| :: p[i] != p[j]
    requires forall k | 0 <= k < |p| :: p[k] in s
    ensures |p| <= |s|
    ensures (forall x | x in s :: x in p) ==> |p| == |s|
  {
    if p == [] {
      if forall x | x in s :: x in p { assert s == {}; }
    } else {
      var last := p[|p| - 1];
      DistinctSize(p[..|p| - 1], s - {last});
      assert p == p[..|p| - 1] + [last];
    }
  }

  lemma SubsetSize<T>(a: set<T>, b: set<T>)
    requires a <= b
    ensures |a| <= |b|
    ensures |a| == |b| ==> a == b
  {
    assert |b - a| == |b| - |a|;
  }
}
