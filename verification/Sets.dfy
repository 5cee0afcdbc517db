/** Sizes of finite sets. */
module Sets {
  lemma SubsetSize<T>(a: set<T>, b: set<T>)
    requires a <= b
    ensures |a| <= |b|
  {
    assert b == a + (b - a);
  }

  lemma SizeWithout<T>(s: set<T>, x: T)
    ensures |s| == |s - {x}| + (if x in s then 1 else 0)
  {
    assert x in s ==> s == (s - {x}) + {x};
    assert x !in s ==> s == s - {x};
  }

  /** A listing without repetitions is as long as the set it lists. */
  lemma {:induction false} DistinctSize<T>(items: seq<T>, s: set<T>)
    requires forall x :: x in items <==> x in s
    requires forall i, j :: 0 <= i < j < |items| ==> items[i] != items[j]
    ensures |s| == |items|
  {
    if items == [] {
      assert s == {};
    } else {
      var last, front := items[|items| - 1], items[..|items| - 1];
      DistinctSize(front, s - {last});
    }
  }
}
