/** `sort.Slice` with a strict `<` (ascending) or `>` (descending) comparator
    on a numeric key, as both order books use it. */
module Sorting {

  /** `x` may stand before `y` in the sorted slice. */
  predicate Precedes(x: real, y: real, descending: bool) {
    if descending then x >= y else x <= y
  }

  predicate OrderedBy<T>(s: seq<T>, key: T -> real, descending: bool) {
    forall i, j :: 0 <= i < j < |s| ==> Precedes(key(s[i]), key(s[j]), descending)
  }

  /** The key used when the slice holds the prices themselves. */
  function Id(x: real): real { x }

  method Swap<T>(a: array<T>, i: int, j: int)
    requires 0 <= i < a.Length && 0 <= j < a.Length
    modifies a
    ensures a[i] == old(a[j]) && a[j] == old(a[i])
    ensures forall k :: 0 <= k < a.Length && k != i && k != j ==> a[k] == old(a[k])
    ensures multiset(a[..]) == multiset(old(a[..]))
  {
    a[i], a[j] := a[j], a[i];
  }

  /** Sorts `a` in place by `key`: the result is ordered and a permutation of
      the input. `sort.Slice` is not stable, so nothing more is promised about
      elements with equal keys. */
  method SortBy<T>(a: array<T>, key: T -> real, descending: bool)
    modifies a
    ensures OrderedBy(a[..], key, descending)
    ensures multiset(a[..]) == multiset(old(a[..]))
  {
    var i := 0;
    while i < a.Length
      invariant 0 <= i <= a.Length
      invariant forall x, y :: 0 <= x < y < i ==> Precedes(key(a[x]), key(a[y]), descending)
      invariant forall x, y :: 0 <= x < i <= y < a.Length ==> Precedes(key(a[x]), key(a[y]), descending)
      invariant multiset(a[..]) == multiset(old(a[..]))
    {
      var m, j := i, i + 1;
      while j < a.Length
        invariant i <= m < a.Length && i < j <= a.Length
        invariant forall y :: i <= y < j ==> Precedes(key(a[m]), key(a[y]), descending)
      {
        if !Precedes(key(a[m]), key(a[j]), descending) {
          m := j;
        }
        j := j + 1;
      }
      Swap(a, i, m);
      i := i + 1;
    }
  }

  /** The head of an ordered list precedes every element of it. */
  lemma HeadPrecedes(a: seq<real>, x: real, descending: bool)
    requires OrderedBy(a, Id, descending) && x in a
    ensures Precedes(a[0], x, descending)
  {
    var k :| 0 <= k < |a| && a[k] == x;
    if k != 0 {
      assert Precedes(Id(a[0]), Id(a[k]), descending);
    }
  }

  /** Two ordered arrangements of the same multiset of numbers are equal, so
      the sorted price list does not depend on the order the prices were
      collected in. */
  lemma {:induction false} OrderedUnique(a: seq<real>, b: seq<real>, descending: bool)
    requires OrderedBy(a, Id, descending) && OrderedBy(b, Id, descending)
    requires multiset(a) == multiset(b)
    ensures a == b
  {
    if a == [] {
      assert |b| == |multiset(b)| == 0;
    } else {
      assert a[0] in multiset(b);
      HeadPrecedes(b, a[0], descending);
      assert b[0] in multiset(a);
      HeadPrecedes(a, b[0], descending);
      assert a[0] == b[0];
      assert a == [a[0]] + a[1..] && b == [b[0]] + b[1..];
      assert multiset(a) == multiset([a[0]]) + multiset(a[1..]);
      assert multiset(b) == multiset([b[0]]) + multiset(b[1..]);
      assert multiset(a[1..]) == multiset(a) - multiset([a[0]]);
      assert multiset(b[1..]) == multiset(b) - multiset([b[0]]);
      OrderedUnique(a[1..], b[1..], descending);
    }
  }
}
