/**
  Spreading the shards evenly over the groups.  `lists` holds, for each group in the order of the
  group ids, the shards it is responsible for.
 */
module Rebalance {
  import opened ShardConfig
  import opened Totals

  type Lists = seq<seq<ShardId>>

  function Counts(lists: Lists): (c: seq<int>)
    ensures |c| == |lists| && forall i: nat :: i < |c| ==> c[i] == |lists[i]|
  {
    seq(|lists|, i requires 0 <= i < |lists| => |lists[i]|)
  }

  // The last group with the most shards.
  function Fullest(c: seq<int>): (k: nat)
    requires c != []
    ensures k < |c| && (forall i: nat :: i < |c| ==> c[i] <= c[k]) && forall i: nat :: k < i < |c| ==> c[i] < c[k]
  {
    if |c| == 1 then 0
    else
      var k, n := Fullest(c[..|c| - 1]), |c| - 1;
      if c[n] >= c[k] then n else k
  }

  // The last group with the fewest shards.
  function Emptiest(c: seq<int>): (k: nat)
    requires c != []
    ensures k < |c| && (forall i: nat :: i < |c| ==> c[k] <= c[i]) && forall i: nat :: k < i < |c| ==> c[k] < c[i]
  {
    if |c| == 1 then 0
    else
      var k, n := Emptiest(c[..|c| - 1]), |c| - 1;
      if c[n] <= c[k] then n else k
  }

  // No two groups differ by more than one shard.
  predicate Even(c: seq<int>) {
    forall i: nat, j: nat :: i < |c| && j < |c| ==> c[i] - c[j] <= 1
  }

  // Moving is called for.
  predicate Uneven(lists: Lists) {
    lists != [] && var c := Counts(lists); c[Fullest(c)] - c[Emptiest(c)] > 1
  }

  lemma UnevenIff(lists: Lists)
    ensures Uneven(lists) <==> !Even(Counts(lists))
  {
    var c := Counts(lists);
    if lists != [] && !Uneven(lists) {
      forall i: nat, j: nat | i < |c| && j < |c|
        ensures c[i] - c[j] <= 1
      {
        assert c[i] <= c[Fullest(c)] && c[Emptiest(c)] <= c[j];
      }
    }
  }

  // The first shard of the fullest group goes to the end of the emptiest.
  function Moved(lists: Lists): (r: Lists)
    requires Uneven(lists)
    ensures |r| == |lists|
  {
    var c := Counts(lists);
    var i, j := Fullest(c), Emptiest(c);
    lists[i := lists[i][1..]][j := lists[j] + [lists[i][0]]]
  }

  lemma MovedCounts(lists: Lists)
    requires Uneven(lists)
    ensures var c := Counts(lists);
            Counts(Moved(lists)) == c[Fullest(c) := c[Fullest(c)] - 1][Emptiest(c) := c[Emptiest(c)] + 1]
  {
  }

  // What a move does to a sum over the counts.
  lemma MoveTotals(lists: Lists, f: int -> int)
    requires Uneven(lists)
    ensures var c := Counts(lists);
            var x, y := c[Fullest(c)], c[Emptiest(c)];
            Total(Counts(Moved(lists)), f) == Total(c, f) - f(x) - f(y) + f(x - 1) + f(y + 1)
  {
    var c := Counts(lists);
    var i, j := Fullest(c), Emptiest(c);
    MovedCounts(lists);
    TotalUpdate(c, f, i, c[i] - 1);
    TotalUpdate(c[i := c[i] - 1], f, j, c[j] + 1);
  }

  ghost function Weight(lists: Lists): (w: nat) {
    var t := Total(Counts(lists), Square);
    if t < 0 then 0 else t
  }

  lemma {:induction false} SquaresPositive(c: seq<int>)
    ensures Total(c, Square) >= 0
  {
    if c != [] {
      SquaresPositive(c[1..]);
    }
  }

  // The sum of the squared counts falls.
  lemma MoveLightens(lists: Lists)
    requires Uneven(lists)
    ensures Weight(Moved(lists)) < Weight(lists)
  {
    var c := Counts(lists);
    var x, y := c[Fullest(c)], c[Emptiest(c)];
    MoveTotals(lists, Square);
    SquaresPositive(Counts(Moved(lists)));
    SquaresFall(x, y);
  }

  lemma SquaresFall(x: int, y: int)
    requires x - y > 1
    ensures Square(x - 1) + Square(y + 1) < Square(x) + Square(y)
  {
    assert Square(x - 1) == Square(x) - 2 * x + 1;
    assert Square(y + 1) == Square(y) + 2 * y + 1;
  }

  function Balance(lists: Lists): (r: Lists)
    ensures |r| == |lists|
    decreases Weight(lists)
  {
    if Uneven(lists) then MoveLightens(lists); Balance(Moved(lists)) else lists
  }

  lemma {:induction false} BalanceEven(lists: Lists)
    ensures Even(Counts(Balance(lists)))
    decreases Weight(lists)
  {
    if Uneven(lists) {
      MoveLightens(lists);
      BalanceEven(Moved(lists));
    } else {
      UnevenIff(lists);
    }
  }

  // The shards Balance moves, in order.
  ghost function Moves(lists: Lists): seq<ShardId>
    decreases Weight(lists)
  {
    if Uneven(lists) then
      MoveLightens(lists);
      [lists[Fullest(Counts(lists))][0]] + Moves(Moved(lists))
    else []
  }

  // ---------- No shard moves twice ----------

  ghost predicate Disjoint(lists: Lists) {
    forall i: nat, j: nat, a: nat, b: nat ::
      i < |lists| && j < |lists| && a < |lists[i]| && b < |lists[j]| && lists[i][a] == lists[j][b] ==> i == j && a == b
  }

  // q shards for each group, and one more for r of them.
  ghost predicate Shares(c: seq<int>, q: int, r: int) {
    0 <= r < |c| && Total(c, Above(q)) == r
  }

  lemma MoveKeepsShares(lists: Lists, q: int, r: int)
    requires Uneven(lists) && Shares(Counts(lists), q, r)
    ensures Shares(Counts(Moved(lists)), q, r)
  {
    MoveTotals(lists, Above(q));
  }

  // The fullest group has more than its share, the emptiest no more than it.
  lemma FullestAndEmptiest(lists: Lists, q: int, r: int)
    requires Uneven(lists) && Shares(Counts(lists), q, r)
    ensures var c := Counts(lists); c[Emptiest(c)] <= q < c[Fullest(c)]
  {
    var c := Counts(lists);
    var i, j := Fullest(c), Emptiest(c);
    TotalZero(c);
    if c[i] <= q {
      TotalLess(c, Above(q), Zero, j);
    }
    if c[j] > q {
      TotalAtMost(c, Zero, Above(q + 1));
      TotalShift(c, Above(q), Above(q + 1), 1);
    }
  }

  // Groups that have received are at their share, or one above it with nobody below it.
  ghost predicate Receivers(lists: Lists, got: set<nat>, q: int) {
    forall k :: k in got ==>
      k < |lists| && (|lists[k]| <= q || (|lists[k]| == q + 1 && forall i: nat :: i < |lists| ==> |lists[i]| >= q))
  }

  lemma ReceiversKeep(lists: Lists, got: set<nat>, q: int, r: int)
    requires Uneven(lists) && Shares(Counts(lists), q, r) && Receivers(lists, got, q)
    ensures Fullest(Counts(lists)) !in got
    ensures Receivers(Moved(lists), got + {Emptiest(Counts(lists))}, q)
  {
    FullestAndEmptiest(lists, q, r);
    var c := Counts(lists);
    var i, j := Fullest(c), Emptiest(c);
    MovedCounts(lists);
    assert forall k: nat :: k < |lists| ==> c[j] <= c[k] <= c[i];
  }

  lemma MoveKeepsDisjoint(lists: Lists)
    requires Uneven(lists) && Disjoint(lists)
    ensures Disjoint(Moved(lists))
  {
    var c := Counts(lists);
    var i, j, moved := Fullest(c), Emptiest(c), Moved(lists);
    forall k: nat, l: nat, a: nat, b: nat | k < |moved| && l < |moved| && a < |moved[k]| && b < |moved[l]| &&
                                            moved[k][a] == moved[l][b]
      ensures k == l && a == b
    {
      var (k', a') := Before(lists, k, a);
      var (l', b') := Before(lists, l, b);
    }
  }

  // Where the shard at this place was before the move.
  ghost function Before(lists: Lists, k: nat, a: nat): (p: (nat, nat))
    requires Uneven(lists) && k < |lists| && a < |Moved(lists)[k]|
    ensures p.0 < |lists| && p.1 < |lists[p.0]| && lists[p.0][p.1] == Moved(lists)[k][a]
  {
    var c := Counts(lists);
    var i, j := Fullest(c), Emptiest(c);
    if k == i then (i, a + 1)
    else if k == j && a == |lists[j]| then (i, 0)
    else (k, a)
  }

  /**
    No shard moves twice, a shard that moves ends with another group, and the others stay where
    they are.
   */
  lemma {:induction false} MovesOnce(lists: Lists, got: set<nat>, q: int, r: int)
    requires Disjoint(lists) && (lists == [] || Shares(Counts(lists), q, r)) && Receivers(lists, got, q)
    ensures forall a: nat, b: nat :: a < b < |Moves(lists)| ==> Moves(lists)[a] != Moves(lists)[b]
    ensures forall k: nat, s :: k < |lists| && s in lists[k] ==> Settles(lists, got, k, s)
    ensures forall s :: s in Moves(lists) ==> exists k: nat :: k < |lists| && s in lists[k]
    decreases Weight(lists)
  {
    if Uneven(lists) {
      var c, moved := Counts(lists), Moved(lists);
      var i, j := Fullest(c), Emptiest(c);
      var x, got' := lists[i][0], got + {j};
      MoveLightens(lists);
      MoveKeepsDisjoint(lists);
      MoveKeepsShares(lists, q, r);
      ReceiversKeep(lists, got, q, r);
      MovesOnce(moved, got', q, r);
      assert moved[j][|lists[j]|] == x;
      assert Settles(moved, got', j, x);
      forall k: nat, s | k < |lists| && s in lists[k]
        ensures Settles(lists, got, k, s)
      {
        StepSettles(lists, got, k, s);
      }
      forall s | s in Moves(lists)
        ensures exists k: nat :: k < |lists| && s in lists[k]
      {
        if s != x {
          var k: nat :| k < |moved| && s in moved[k];
          var a :| 0 <= a < |moved[k]| && moved[k][a] == s;
          var p := Before(lists, k, a);
          assert lists[p.0][p.1] == s;
        } else {
          assert x in lists[i];
        }
      }
    }
  }

  // What becomes of shard s of group k, which may not have received anything if s moves.
  ghost predicate Settles(lists: Lists, got: set<nat>, k: nat, s: ShardId)
    requires k < |lists|
  {
    (s in Moves(lists) ==> k !in got) && Ends(Balance(lists), Moves(lists), k, s)
  }

  // Shard s of group k ends in another list if it is among the moves, and otherwise in the same.
  ghost predicate Ends(out: Lists, moves: seq<ShardId>, k: nat, s: ShardId)
    requires k < |out|
  {
    if s in moves then exists l: nat :: l < |out| && l != k && s in out[l] else s in out[k]
  }

  lemma OthersRemain(lists: Lists, k: nat, s: ShardId)
    requires Uneven(lists) && k < |lists| && s in lists[k] && s != lists[Fullest(Counts(lists))][0]
    ensures s in Moved(lists)[k]
  {
    var i, j := Fullest(Counts(lists)), Emptiest(Counts(lists));
    var a :| 0 <= a < |lists[k]| && lists[k][a] == s;
    assert Moved(lists)[k][if k == i then a - 1 else a] == s;
  }

  lemma Unfold(lists: Lists)
    requires Uneven(lists)
    ensures Moves(lists) == [lists[Fullest(Counts(lists))][0]] + Moves(Moved(lists)) &&
            Balance(lists) == Balance(Moved(lists))
  {
    MoveLightens(lists);
  }

  lemma StepSettles(lists: Lists, got: set<nat>, k: nat, s: ShardId)
    requires Uneven(lists) && Disjoint(lists) && k < |lists| && s in lists[k]
    requires Fullest(Counts(lists)) !in got
    requires var i, j := Fullest(Counts(lists)), Emptiest(Counts(lists));
             && Settles(Moved(lists), got + {j}, j, lists[i][0])
             && (s in Moved(lists)[k] ==> Settles(Moved(lists), got + {j}, k, s))
    ensures Settles(lists, got, k, s)
  {
    var i, j := Fullest(Counts(lists)), Emptiest(Counts(lists));
    Unfold(lists);
    if s == lists[i][0] {
      assert k == i;
      assert s in Balance(lists)[j];
    } else {
      OthersRemain(lists, k, s);
    }
  }
}
