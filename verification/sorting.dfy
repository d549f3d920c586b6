/** The descending sort by one numeric key (Go's sort.Slice with a "greater than"
    comparison) used by every calculator. Go's sort.Slice is not stable and its algorithm is
    unspecified, so the model promises only what the callers rely on: the slice ends up
    as a permutation of its old contents, ordered by non-increasing key. */
module Sorting {

  ghost predicate SortedDesc<T>(s: seq<T>, key: T -> real) {
    forall i, j :: 0 <= i < j < |s| ==> key(s[i]) >= key(s[j])
  }

  /** `s` with `f` applied to every element (Go: collecting one field of each record). */
  function MapSeq<T, U>(s: seq<T>, f: T -> U): seq<U> {
    seq(|s|, i requires 0 <= i < |s| => f(s[i]))
  }

  /** Sorts `a` in place by non-increasing key (insertion sort by adjacent swaps). */
  method SortDesc<T>(a: array<T>, key: T -> real)
    modifies a
    ensures SortedDesc(a[..], key)
    ensures multiset(a[..]) == multiset(old(a[..]))
  {
    var i := 0;
    while i < a.Length
      invariant 0 <= i <= a.Length
      invariant SortedDesc(a[..i], key)
      invariant multiset(a[..]) == multiset(old(a[..]))
    {
      Insert(a, key, i);
      i := i + 1;
    }
    assert a[..a.Length] == a[..];
  }

  /** Moves `a[i]` left into the sorted prefix `a[..i]`. */
  method Insert<T>(a: array<T>, key: T -> real, i: nat)
    requires i < a.Length
    requires SortedDesc(a[..i], key)
    modifies a
    ensures SortedDesc(a[..i + 1], key)
    ensures multiset(a[..]) == multiset(old(a[..]))
  {
    var j := i;
    while 0 < j && key(a[j - 1]) < key(a[j])
      invariant 0 <= j <= i
      invariant forall p, q :: 0 <= p < q <= i && p != j && q != j ==> key(a[p]) >= key(a[q])
      invariant forall q :: j < q <= i ==> key(a[j]) > key(a[q])
      invariant multiset(a[..]) == multiset(old(a[..]))
    {
      Swap(a, j - 1, j);
      j := j - 1;
    }
  }

  method Swap<T>(a: array<T>, i: nat, j: nat)
    requires i < j < a.Length
    modifies a
    ensures a[..] == old(a[..])[i := old(a[j])][j := old(a[i])]
    ensures multiset(a[..]) == multiset(old(a[..]))
  {
    a[i], a[j] := a[j], a[i];
  }

  /** Sorting a Go slice: copy into an array, sort it in place, read it back. */
  method SortSliceDesc<T>(s: seq<T>, key: T -> real) returns (r: seq<T>)
    ensures SortedDesc(r, key)
    ensures multiset(r) == multiset(s)
  {
    var a := new T[|s|](i requires 0 <= i < |s| => s[i]);
    assert a[..] == s;
    SortDesc(a, key);
    r := a[..];
  }

  lemma MapSeqAppend<T, U>(a: seq<T>, b: seq<T>, f: T -> U)
    ensures MapSeq(a + b, f) == MapSeq(a, f) + MapSeq(b, f)
  {
  }

  /** Reordering records reorders any field of them the same way. */
  lemma {:induction false} PermutationMaps<T, U>(a: seq<T>, b: seq<T>, f: T -> U)
    requires multiset(a) == multiset(b)
    ensures multiset(MapSeq(a, f)) == multiset(MapSeq(b, f))
    decreases |a|
  {
    if a == [] {
      assert |b| == |multiset(b)| == 0;
    } else {
      var x := a[0];
      assert x in multiset(b);
      var j :| 0 <= j < |b| && b[j] == x;
      var rest := b[..j] + b[j + 1..];
      assert b == b[..j] + [x] + b[j + 1..];
      assert a == [x] + a[1..];
      assert multiset(a[1..]) == multiset(a) - multiset{x};
      assert multiset(rest) == multiset(b) - multiset{x};
      PermutationMaps(a[1..], rest, f);
      MapSeqAppend([x], a[1..], f);
      MapSeqAppend(b[..j] + [x], b[j + 1..], f);
      MapSeqAppend(b[..j], [x], f);
      MapSeqAppend(b[..j], b[j + 1..], f);
    }
  }
}
