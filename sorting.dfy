/** Go's `sort.Slice` with a strict "less by key" comparison. Only what
    `sort.Slice` promises is stated: the slice ends up ordered by the key and
    holds the same elements; nothing is said about the order of equal keys. */
module Sorting {

  ghost predicate SortedBy<T>(s: seq<T>, key: T -> int)
  {
    forall i, j :: 0 <= i < j < |s| ==> key(s[i]) <= key(s[j])
  }

  /** Sorts `a` in place, ascending by `key` (insertion sort). */
  method SortBy<T>(a: array<T>, key: T -> int)
    modifies a
    ensures SortedBy(a[..], key)
    ensures multiset(a[..]) == old(multiset(a[..]))
  {
    var i := 0;
    while i < a.Length
      invariant 0 <= i <= a.Length
      invariant forall p, q :: 0 <= p < q < i ==> key(a[p]) <= key(a[q])
      invariant multiset(a[..]) == old(multiset(a[..]))
    {
      InsertLast(a, key, i);
      i := i + 1;
    }
  }

  /** Moves `a[i]` left into the sorted prefix `a[..i]`. */
  method InsertLast<T>(a: array<T>, key: T -> int, i: int)
    requires 0 <= i < a.Length
    requires forall p, q :: 0 <= p < q < i ==> key(a[p]) <= key(a[q])
    modifies a
    ensures forall p, q :: 0 <= p < q <= i ==> key(a[p]) <= key(a[q])
    ensures multiset(a[..]) == old(multiset(a[..]))
  {
    var j := i;
    while 0 < j && key(a[j]) < key(a[j - 1])
      invariant 0 <= j <= i
      invariant multiset(a[..]) == old(multiset(a[..]))
      invariant forall p, q :: 0 <= p < q <= i && p != j && q != j ==> key(a[p]) <= key(a[q])
      invariant forall q :: j < q <= i ==> key(a[j]) <= key(a[q])
    {
      Swap(a, j - 1, j);
      j := j - 1;
    }
  }

  method Swap<T>(a: array<T>, i: int, j: int)
    requires 0 <= i < j < a.Length
    modifies a
    ensures a[i] == old(a[j]) && a[j] == old(a[i])
    ensures forall k :: 0 <= k < a.Length && k != i && k != j ==> a[k] == old(a[k])
    ensures multiset(a[..]) == old(multiset(a[..]))
  {
    a[i], a[j] := a[j], a[i];
  }
}
