/** The one thing the planners need of the library sort: a sorted permutation. */
module Sorting {
  import opened DiskUsage

  /** Reading less(a, b) as "a goes strictly before b": ties are allowed, cycles are not. */
  ghost predicate WeakOrder<T>(s: seq<T>, less: (T, T) -> bool) {
    && (forall a, b :: a in s && b in s && less(a, b) ==> !less(b, a))
    && (forall a, b, c :: a in s && b in s && c in s && !less(b, a) && !less(c, b) ==> !less(c, a))
  }

  ghost predicate SortedBy<T>(s: seq<T>, less: (T, T) -> bool) {
    forall i, j :: 0 <= i < j < |s| ==> !less(s[j], s[i])
  }

  lemma {:induction false} SamePermutationMembers<T>(a: seq<T>, b: seq<T>)
    requires multiset(a) == multiset(b)
    ensures |a| == |b| && forall x :: x in a <==> x in b
  {
    assert forall x :: x in a <==> x in multiset(a);
    assert forall x :: x in b <==> x in multiset(b);
    assert |multiset(a)| == |a| && |multiset(b)| == |b|;
  }

  /** x goes in at p, after everything it does not precede. */
  lemma {:induction false} InsertedInOrder<T>(r: seq<T>, x: T, p: nat, less: (T, T) -> bool)
    requires SortedBy(r, less) && p <= |r|
    requires forall q :: 0 <= q < p ==> !less(x, r[q])
    requires forall q :: p <= q < |r| ==> !less(r[q], x)
    ensures SortedBy(r[..p] + [x] + r[p..], less)
    ensures multiset(r[..p] + [x] + r[p..]) == multiset(r + [x])
  {
    var r' := r[..p] + [x] + r[p..];
    forall i, j | 0 <= i < j < |r'|
      ensures !less(r'[j], r'[i])
    {
      assert r'[i] == if i < p then r[i] else if i == p then x else r[i - 1];
      assert r'[j] == if j < p then r[j] else if j == p then x else r[j - 1];
    }
    assert r == r[..p] + r[p..];
  }

  method Insert<T>(r: seq<T>, x: T, less: (T, T) -> bool) returns (r': seq<T>)
    requires SortedBy(r, less) && WeakOrder(r + [x], less)
    ensures multiset(r') == multiset(r + [x])
    ensures SortedBy(r', less)
  {
    assert (r + [x])[|r|] == x;
    assert forall q :: 0 <= q < |r| ==> (r + [x])[q] == r[q];
    var p := |r|;
    while p > 0 && less(x, r[p - 1])
      invariant 0 <= p <= |r|
      invariant forall q :: p <= q < |r| ==> !less(r[q], x)
    {
      p := p - 1;
    }
    forall q | 0 <= q < p
      ensures !less(x, r[q])
    {
      assert q == p - 1 || !less(r[p - 1], r[q]);
    }
    InsertedInOrder(r, x, p, less);
    r' := r[..p] + [x] + r[p..];
  }

  /** An insertion sort, standing for sort.Slice and sort.SliceStable; callers know only what it ensures. */
  method SortSlice<T>(s: seq<T>, less: (T, T) -> bool) returns (r: seq<T>)
    requires WeakOrder(s, less)
    ensures multiset(r) == multiset(s)
    ensures SortedBy(r, less)
  {
    r := [];
    for k := 0 to |s|
      invariant multiset(r) == multiset(s[..k])
      invariant SortedBy(r, less)
    {
      assert s[..k + 1] == s[..k] + [s[k]];
      SamePermutationMembers(r + [s[k]], s[..k + 1]);
      forall a | a in r + [s[k]]
        ensures a in s
      {
        assert a in s[..k + 1];
      }
      r := Insert(r, s[k], less);
    }
    assert s[..|s|] == s;
  }

  lemma {:induction false} PermutedNoRepeats<T>(a: seq<T>, b: seq<T>)
    requires multiset(a) == multiset(b) && NoRepeats(a)
    ensures NoRepeats(b)
  {
    forall i, j | 0 <= i < j < |b|
      ensures b[i] != b[j]
    {
      if b[i] == b[j] {
        assert b == b[..i] + [b[i]] + b[i + 1..j] + [b[j]] + b[j + 1..];
        assert multiset(b)[b[i]] >= 2;
        NoRepeatsOnce(a, b[i]);
      }
    }
  }

  lemma {:induction false} NoRepeatsOnce<T>(a: seq<T>, x: T)
    requires NoRepeats(a)
    ensures multiset(a)[x] <= 1
    decreases |a|
  {
    if a != [] {
      assert a == [a[0]] + a[1..];
      if a[0] == x {
        assert x !in a[1..];
        assert x !in multiset(a[1..]);
      } else {
        NoRepeatsOnce(a[1..], x);
      }
    }
  }
}
