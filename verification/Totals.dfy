/**
  Sums over a sequence of counts.
 */
module Totals {

  ghost function Total(c: seq<int>, f: int -> int): int {
    if c == [] then 0 else f(c[0]) + Total(c[1..], f)
  }

  lemma {:induction false} TotalUpdate(c: seq<int>, f: int -> int, i: nat, v: int)
    requires i < |c|
    ensures Total(c[i := v], f) == Total(c, f) - f(c[i]) + f(v)
  {
    if i > 0 {
      assert c[i := v][1..] == c[1..][i - 1 := v];
      TotalUpdate(c[1..], f, i - 1, v);
    } else {
      assert c[i := v][1..] == c[1..];
    }
  }

  lemma {:induction false} TotalAtMost(c: seq<int>, f: int -> int, g: int -> int)
    requires forall i: nat :: i < |c| ==> f(c[i]) <= g(c[i])
    ensures Total(c, f) <= Total(c, g)
  {
    if c != [] {
      TotalAtMost(c[1..], f, g);
    }
  }

  lemma {:induction false} TotalLess(c: seq<int>, f: int -> int, g: int -> int, k: nat)
    requires k < |c| && f(c[k]) < g(c[k])
    requires forall i: nat :: i < |c| ==> f(c[i]) <= g(c[i])
    ensures Total(c, f) < Total(c, g)
  {
    if k > 0 {
      TotalLess(c[1..], f, g, k - 1);
    } else {
      TotalAtMost(c[1..], f, g);
    }
  }

  lemma {:induction false} TotalShift(c: seq<int>, f: int -> int, g: int -> int, d: int)
    requires forall i: nat :: i < |c| ==> f(c[i]) == g(c[i]) + d
    ensures Total(c, f) == Total(c, g) + |c| * d
  {
    if c != [] {
      TotalShift(c[1..], f, g, d);
      assert |c| * d == |c[1..]| * d + d;
    }
  }

  function Same(x: int): int {
    x
  }

  function Square(x: int): int {
    x * x
  }

  function Zero(x: int): int {
    0
  }

  // x counted from q.
  function Above(q: int): int -> int {
    x => x - q
  }

  // 1 for what exceeds q.
  function High(q: int): int -> int {
    x => if x > q then 1 else 0
  }

  // What exceeds q.
  function Excess(q: int): int -> int {
    x => if x > q then x - q else 0
  }

  lemma {:induction false} TotalZero(c: seq<int>)
    ensures Total(c, Zero) == 0
  {
    if c != [] {
      TotalZero(c[1..]);
    }
  }
}
