/**
  Sorting by a given order, as the library's sort does it: ties may end up in any order.
 */
module Sorting {
  import opened Sequences

  // `less` is a strict order in which incomparable means equally ranked.
  ghost predicate Orders<T(!new)>(less: (T, T) -> bool) {
    && (forall a, b :: !less(a, b) || !less(b, a))
    && forall a, b, c :: !less(b, a) && !less(c, b) ==> !less(c, a)
  }

  ghost predicate Sorted<T>(less: (T, T) -> bool, s: seq<T>) {
    forall i: nat, j: nat :: i < j < |s| ==> !less(s[j], s[i])
  }

  // Each number below n once.
  ghost predicate IsPermutation(n: nat, perm: seq<nat>) {
    && (forall i: nat :: i < |perm| ==> perm[i] < n)
    && Distinct(perm)
    && forall x: nat :: x < n ==> x in perm
  }

  // `perm` says where each element of `to` comes from.
  ghost predicate Rearranges<T>(from: seq<T>, to: seq<T>, perm: seq<nat>) {
    && |to| == |from| == |perm| && IsPermutation(|from|, perm)
    && forall i: nat :: i < |to| ==> to[i] == from[perm[i]]
  }

  ghost function WhereIs(n: nat, perm: seq<nat>, x: nat): (p: nat)
    requires IsPermutation(n, perm) && x < n
    ensures p < |perm| && perm[p] == x
  {
    assert x in perm;
    var p :| 0 <= p < |perm| && perm[p] == x;
    p
  }

  // The first place from which nothing is greater than x stays before it.
  method Place<T(!new)>(less: (T, T) -> bool, s: seq<T>, x: T) returns (k: nat)
    requires Orders(less) && Sorted(less, s)
    ensures k <= |s|
    ensures forall i: nat :: i < k ==> !less(x, s[i])
    ensures forall i: nat :: k <= i < |s| ==> !less(s[i], x)
  {
    k := |s|;
    while k > 0 && less(x, s[k - 1])
      invariant k <= |s|
      invariant forall i: nat :: k <= i < |s| ==> !less(s[i], x)
    {
      k := k - 1;
    }
    if k > 0 {
      forall i: nat | i < k
        ensures !less(x, s[i])
      {
        assert i < k - 1 ==> !less(s[k - 1], s[i]);
      }
    }
  }

  function Inserted<T>(s: seq<T>, k: nat, x: T): (r: seq<T>)
    requires k <= |s|
    ensures |r| == |s| + 1 && r[k] == x
    ensures forall i: nat :: i < k ==> r[i] == s[i]
    ensures forall i: nat :: k < i < |r| ==> r[i] == s[i - 1]
  {
    s[..k] + [x] + s[k..]
  }

  lemma InsertPermutation(n: nat, perm: seq<nat>, k: nat)
    requires IsPermutation(n, perm) && k <= |perm|
    ensures IsPermutation(n + 1, Inserted(perm, k, n))
  {
    var perm' := Inserted(perm, k, n);
    forall x: nat | x < n + 1
      ensures x in perm'
    {
      if x == n {
        assert perm'[k] == x;
      } else {
        var p := WhereIs(n, perm, x);
        assert perm'[if p < k then p else p + 1] == x;
      }
    }
  }

  method Sort<T(!new)>(less: (T, T) -> bool, from: seq<T>) returns (to: seq<T>, ghost perm: seq<nat>)
    requires Orders(less)
    ensures Sorted(less, to) && Rearranges(from, to, perm) && multiset(to) == multiset(from)
  {
    to, perm := [], [];
    for n := 0 to |from|
      invariant Sorted(less, to) && Rearranges(from[..n], to, perm) && multiset(to) == multiset(from[..n])
    {
      var k := Place(less, to, from[n]);
      InsertSorted(less, to, from[n], k);
      InsertRearranges(from, n, to, perm, k);
      InsertElements(from, n, to, k);
      to, perm := Inserted(to, k, from[n]), Inserted(perm, k, n);
    }
    assert from[..|from|] == from;
  }

  lemma InsertSorted<T>(less: (T, T) -> bool, s: seq<T>, x: T, k: nat)
    requires Sorted(less, s) && k <= |s|
    requires forall i: nat :: i < k ==> !less(x, s[i])
    requires forall i: nat :: k <= i < |s| ==> !less(s[i], x)
    ensures Sorted(less, Inserted(s, k, x))
  {
  }

  lemma InsertElements<T>(from: seq<T>, n: nat, to: seq<T>, k: nat)
    requires n < |from| && k <= |to| && multiset(to) == multiset(from[..n])
    ensures multiset(Inserted(to, k, from[n])) == multiset(from[..n + 1])
  {
    assert to == to[..k] + to[k..];
    assert from[..n + 1] == from[..n] + [from[n]];
  }

  lemma InsertRearranges<T>(from: seq<T>, n: nat, to: seq<T>, perm: seq<nat>, k: nat)
    requires n < |from| && k <= |to| && Rearranges(from[..n], to, perm)
    ensures Rearranges(from[..n + 1], Inserted(to, k, from[n]), Inserted(perm, k, n))
  {
    InsertPermutation(n, perm, k);
  }

  // The elements of a set, each once, in some order.
  method Listed<T(==)>(s: set<T>) returns (list: seq<T>)
    ensures forall x :: x in list <==> x in s
    ensures Distinct(list)
  {
    list := [];
    var todo := s;
    while todo != {}
      invariant todo <= s
      invariant forall x :: x in list <==> x in s - todo
      invariant Distinct(list)
    {
      var x :| x in todo;
      assert forall y :: y in list + [x] <==> y in list || y == x;
      list, todo := list + [x], todo - {x};
    }
  }

  // ---------- Strings ----------

  predicate LexLess(a: string, b: string) {
    b != [] && (a == [] || a[0] < b[0] || (a[0] == b[0] && LexLess(a[1..], b[1..])))
  }

  lemma {:induction false} LexAsymmetric(a: string, b: string)
    ensures !LexLess(a, b) || !LexLess(b, a)
  {
    if a != [] && b != [] {
      LexAsymmetric(a[1..], b[1..]);
    }
  }

  lemma {:induction false} LexTransitive(a: string, b: string, c: string)
    requires !LexLess(b, a) && !LexLess(c, b)
    ensures !LexLess(c, a)
  {
    if a != [] && b != [] && c != [] && a[0] == b[0] == c[0] {
      LexTransitive(a[1..], b[1..], c[1..]);
    }
  }

  lemma {:induction false} LexTotal(a: string, b: string)
    ensures LexLess(a, b) || LexLess(b, a) || a == b
  {
    if a != [] && b != [] && a[0] == b[0] {
      LexTotal(a[1..], b[1..]);
    }
  }

  lemma LexOrders()
    ensures Orders(LexLess)
  {
    forall a, b
      ensures !LexLess(a, b) || !LexLess(b, a)
    {
      LexAsymmetric(a, b);
    }
    forall a, b, c | !LexLess(b, a) && !LexLess(c, b)
      ensures !LexLess(c, a)
    {
      LexTransitive(a, b, c);
    }
  }
}
