/** Ordering lists highest key first: the nested swap loop the all-codes
    back test uses, and what sorting and cutting such a list keeps. */
module Ranking {

  /** Highest key first. */
  predicate SortedBy<T>(s: seq<T>, key: T -> real) {
    forall p, q :: 0 <= p < q < |s| ==> key(s[p]) >= key(s[q])
  }

  /** The inner swap loop: every later entry with a higher key than
      position i is swapped into it, so position i ends up holding the
      highest key from i on; the entries before i stay. */
  method BestToFront<T>(a: array<T>, i: int, key: T -> real)
    requires 0 <= i < a.Length
    modifies a
    ensures forall q :: i < q < a.Length ==> key(a[i]) >= key(a[q])
    ensures a[..i] == old(a[..i])
    ensures multiset(a[i..]) == multiset(old(a[i..]))
  {
    var j := i + 1;
    while j < a.Length
      invariant i < j <= a.Length
      invariant a[..i] == old(a[..i])
      invariant multiset(a[i..]) == multiset(old(a[i..]))
      invariant forall q :: i < q < j ==> key(a[i]) >= key(a[q])
    {
      SwapIfHigher(a, i, j, key);
      j := j + 1;
    }
  }

  /** One step of the inner loop: entry j moves to position i when its key
      is higher. */
  method SwapIfHigher<T>(a: array<T>, i: int, j: int, key: T -> real)
    requires 0 <= i < j < a.Length
    modifies a
    ensures key(a[i]) >= key(a[j]) && key(a[i]) >= old(key(a[i]))
    ensures forall q :: 0 <= q < a.Length && q != i && q != j ==> a[q] == old(a[q])
    ensures a[..i] == old(a[..i])
    ensures multiset(a[i..]) == multiset(old(a[i..]))
  {
    if key(a[j]) > key(a[i]) {
      ghost var s := a[i..];
      a[i], a[j] := a[j], a[i];
      assert a[i..] == s[0 := s[j - i]][j - i := s[0]];
    }
  }

  /** The outer loop of the swap sort: after it the list is sorted by
      key, highest first, and holds the same entries. */
  method SortDescending<T>(a: array<T>, key: T -> real)
    modifies a
    ensures SortedBy(a[..], key)
    ensures multiset(a[..]) == multiset(old(a[..]))
  {
    var i := 0;
    while i < a.Length
      invariant 0 <= i <= a.Length
      invariant multiset(a[..]) == multiset(old(a[..]))
      invariant forall p, q :: 0 <= p < i && p < q < a.Length ==> key(a[p]) >= key(a[q])
    {
      ghost var before := a[..];
      BestToFront(a, i, key);
      assert a[..] == a[..i] + a[i..];
      assert before == before[..i] + before[i..];
      forall p, q | 0 <= p < i && p < q < a.Length
        ensures key(a[p]) >= key(a[q])
      {
        assert a[p] == before[p];
        assert a[q] in multiset(a[i..]) || q < i;
      }
      i := i + 1;
    }
  }

  /** The first k entries of a list sorted by key are the k best: no entry
      left out has a higher key than one kept. */
  lemma TopOfSorted<T>(s: seq<T>, k: int, key: T -> real)
    requires SortedBy(s, key) && 0 <= k <= |s|
    ensures forall x, y :: x in multiset(s) - multiset(s[..k]) && y in s[..k] ==> key(x) <= key(y)
  {
    assert s == s[..k] + s[k..];
    assert multiset(s) - multiset(s[..k]) == multiset(s[k..]);
    forall x, y | x in multiset(s[k..]) && y in s[..k]
      ensures key(x) <= key(y)
    {
      assert x in s[k..];
      var p :| k <= p < |s| && s[p] == x;
      var q :| 0 <= q < k && s[q] == y;
    }
  }
}
