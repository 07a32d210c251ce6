/**
  Rebalancing for a join reassigns as few shards as any even assignment can.
 */
module RebalanceMinimal {
  import opened Sequences
  import opened ShardConfig
  import opened Totals
  import opened Rebalance
  import opened ShardAssign

  // How many shards have to move from groups with these counts: all beyond one more than the
  // share, and one each from the groups with one more that are too many.
  ghost function Needed(c: seq<int>, q: int, r: int): int {
    var surplus := Total(c, High(q)) - r;
    Total(c, Excess(q + 1)) + if surplus > 0 then surplus else 0
  }

  // ---------- What the loop does ----------

  // With nobody above one more than the share and somebody below it, too many have one more.
  lemma TooManyHigh(c: seq<int>, q: int, r: int, j: nat)
    requires Shares(c, q, r) && j < |c| && c[j] < q && forall k: nat :: k < |c| ==> c[k] <= q + 1
    ensures Total(c, High(q)) > r
  {
    TotalLess(c, Above(q), High(q), j);
  }

  // With nobody below the share and somebody beyond one more, too few have more.
  lemma TooFewHigh(c: seq<int>, q: int, r: int, i: nat)
    requires Shares(c, q, r) && i < |c| && c[i] > q + 1 && forall k: nat :: k < |c| ==> c[k] >= q
    ensures Total(c, High(q)) < r
  {
    TotalLess(c, High(q), Above(q), i);
  }

  lemma MoveNeedsOneLess(lists: Lists, q: int, r: int)
    requires Uneven(lists) && Shares(Counts(lists), q, r)
    ensures Needed(Counts(Moved(lists)), q, r) == Needed(Counts(lists), q, r) - 1
  {
    var c := Counts(lists);
    var i, j := Fullest(c), Emptiest(c);
    FullestAndEmptiest(lists, q, r);
    MoveTotals(lists, High(q));
    MoveTotals(lists, Excess(q + 1));
    if c[i] == q + 1 {
      TooManyHigh(c, q, r, j);
    } else if c[j] == q {
      TooFewHigh(c, q, r, i);
    }
  }

  // In an even assignment every group has its share or one more, and as many have one more as must.
  lemma EvenShares(c: seq<int>, q: int, r: int)
    requires Even(c) && Shares(c, q, r)
    ensures forall i: nat :: i < |c| ==> q <= c[i] <= q + 1
    ensures Total(c, High(q)) == r
  {
    TotalZero(c);
    forall k: nat | k < |c|
      ensures q <= c[k] <= q + 1
    {
      if c[k] < q {
        TotalLess(c, Above(q), Zero, k);
      }
      if c[k] > q + 1 {
        TotalAtMost(c, Zero, Above(q + 1));
        TotalShift(c, Above(q), Above(q + 1), 1);
      }
    }
    TotalShift(c, High(q), Above(q), 0);
  }

  lemma EvenNeedsNothing(c: seq<int>, q: int, r: int)
    requires Even(c) && Shares(c, q, r)
    ensures Needed(c, q, r) == 0
  {
    EvenShares(c, q, r);
    TotalZero(c);
    TotalShift(c, Excess(q + 1), Zero, 0);
  }

  lemma {:induction false} MovesNeeded(lists: Lists, q: int, r: int)
    requires Shares(Counts(lists), q, r)
    ensures |Moves(lists)| == Needed(Counts(lists), q, r)
    decreases Weight(lists)
  {
    if Uneven(lists) {
      MoveLightens(lists);
      MoveKeepsShares(lists, q, r);
      MovesNeeded(Moved(lists), q, r);
      MoveNeedsOneLess(lists, q, r);
    } else {
      UnevenIff(lists);
      EvenNeedsNothing(Counts(lists), q, r);
    }
  }

  // ---------- What any even assignment takes ----------

  // d[i] shards leave group i, which has c[i] shards before and t[i] after.
  lemma {:induction false} LossesAddUp(c: seq<int>, t: seq<int>, d: seq<int>, q: int)
    requires |c| == |t| == |d|
    requires forall i: nat :: i < |c| ==> q <= t[i] <= q + 1 && d[i] >= 0 && d[i] >= c[i] - t[i]
    ensures Total(d, Same) >= Total(c, Excess(q + 1))
    ensures Total(d, Same) >= Total(c, Excess(q + 1)) + Total(c, High(q)) - Total(t, High(q))
  {
    if c != [] {
      LossesAddUp(c[1..], t[1..], d[1..], q);
    }
  }

  // The shards that a and b give to different groups.
  ghost function Handed(a: Assignment, b: Assignment): set<ShardId> {
    set s | s in ALL && a[s] != b[s]
  }

  // What a group loses on balance is handed over.
  lemma GroupLoses(a: Assignment, b: Assignment, gid: int)
    ensures |OwnedBy(a, ALL, gid)| - |OwnedBy(b, ALL, gid)| <= |OwnedBy(a, Handed(a, b), gid)|
  {
    var before, after, lost := OwnedBy(a, ALL, gid), OwnedBy(b, ALL, gid), OwnedBy(a, Handed(a, b), gid);
    var kept := before - lost;
    assert before == kept + lost;
    SubsetSize(kept, after);
  }

  lemma {:induction false} SubsetSize<T>(a: set<T>, b: set<T>)
    requires a <= b
    ensures |a| <= |b|
  {
    assert b == a + (b - a);
  }

  // Every shard belongs to one of the groups.
  ghost predicate AllOwned(gids: seq<int>, a: Assignment) {
    forall s: ShardId :: a[s] in gids
  }

  lemma OwnedShares(gids: seq<int>, a: Assignment)
    requires gids != [] && Distinct(gids) && AllOwned(gids, a)
    ensures Shares(CountsOf(gids, a, ALL), N_SHARDS / |gids|, N_SHARDS % |gids|)
  {
    CountsAddUp(gids, a, ALL);
    assert OwnedByAny(a, ALL, gids) == ALL;
    SharesOf(CountsOf(gids, a, ALL), N_SHARDS);
  }

  lemma SharesOf(c: seq<int>, n: nat)
    requires c != [] && Total(c, Same) == n
    ensures Shares(c, n / |c|, n % |c|)
  {
    var q, k := n / |c|, |c|;
    TotalShift(c, Above(q), Same, -q);
    Division(n, k);
  }

  lemma Division(n: nat, k: nat)
    requires k > 0
    ensures n % k == n + k * (-(n / k)) && 0 <= n % k < k
  {
    assert n == k * (n / k) + n % k;
    assert k * (-(n / k)) == -(k * (n / k));
  }

  lemma HandedAddUp(gids: seq<int>, a: Assignment, b: Assignment)
    requires Distinct(gids) && AllOwned(gids, a)
    ensures Total(CountsOf(gids, a, Handed(a, b)), Same) == |Handed(a, b)|
  {
    CountsAddUp(gids, a, Handed(a, b));
    assert OwnedByAny(a, Handed(a, b), gids) == Handed(a, b);
  }

  lemma LossesAre(gids: seq<int>, a: Assignment, b: Assignment, i: nat)
    requires i < |gids|
    ensures CountsOf(gids, a, Handed(a, b))[i] >= CountsOf(gids, a, ALL)[i] - CountsOf(gids, b, ALL)[i]
    ensures CountsOf(gids, a, Handed(a, b))[i] >= 0
  {
    GroupLoses(a, b, gids[i]);
  }

  lemma EvenTakes(gids: seq<int>, a: Assignment, b: Assignment, c: seq<int>, t: seq<int>, q: int, r: int)
    requires Distinct(gids) && AllOwned(gids, a) && c == CountsOf(gids, a, ALL) && t == CountsOf(gids, b, ALL)
    requires Even(t) && Shares(t, q, r)
    ensures |Handed(a, b)| >= Needed(c, q, r)
  {
    var d := CountsOf(gids, a, Handed(a, b));
    EvenShares(t, q, r);
    forall i: nat | i < |d|
      ensures d[i] >= c[i] - t[i] && d[i] >= 0
    {
      LossesAre(gids, a, b, i);
    }
    LossesAddUp(c, t, d, q);
    HandedAddUp(gids, a, b);
  }

  // ---------- The result of a join ----------

  function Joined(gids: seq<int>, a: Assignment): Assignment {
    Assign(gids, Balance(ListsOf(gids, a)), a)
  }

  lemma {:induction false} BalanceDisjoint(lists: Lists)
    requires Disjoint(lists)
    ensures Disjoint(Balance(lists))
    decreases Weight(lists)
  {
    if Uneven(lists) {
      MoveLightens(lists);
      MoveKeepsDisjoint(lists);
      BalanceDisjoint(Moved(lists));
    }
  }

  lemma JoinSettles(gids: seq<int>, a: Assignment)
    requires gids != [] && Distinct(gids) && AllOwned(gids, a)
    ensures var lists := ListsOf(gids, a);
            && Disjoint(Balance(lists)) && Assigns(gids, Balance(lists), a, Joined(gids, a)) && Distinct(Moves(lists))
            && forall k: nat, s :: k < |lists| && s in lists[k] ==> Settles(lists, {}, k, s)
  {
    var lists := ListsOf(gids, a);
    ListsDisjoint(gids, a);
    ListCounts(gids, a);
    OwnedShares(gids, a);
    MovesOnce(lists, {}, N_SHARDS / |gids|, N_SHARDS % |gids|);
    BalanceDisjoint(lists);
    AssignAssigns(gids, Balance(lists), a);
  }

  lemma EndsAt(gids: seq<int>, a: Assignment, out: Lists, moves: seq<ShardId>, r: Assignment, k: nat, s: ShardId)
    requires Distinct(gids) && |out| == |gids| && Assigns(gids, out, a, r) && k < |gids| && gids[k] == a[s] &&
             Ends(out, moves, k, s)
    ensures Listed(out, s) && r[s] in gids
    ensures r[s] != a[s] <==> s in moves
  {
  }

  lemma JoinAt(gids: seq<int>, a: Assignment, lists: Lists, s: ShardId)
    requires Distinct(gids) && AllOwned(gids, a) && lists == ListsOf(gids, a)
    requires Assigns(gids, Balance(lists), a, Joined(gids, a))
    requires forall k: nat, s :: k < |lists| && s in lists[k] ==> Settles(lists, {}, k, s)
    ensures Listed(Balance(lists), s) && Joined(gids, a)[s] in gids
    ensures Joined(gids, a)[s] != a[s] <==> s in Moves(lists)
  {
    assert a[s] in gids;
    var k :| 0 <= k < |gids| && gids[k] == a[s];
    assert s in lists[k];
    assert Settles(lists, {}, k, s);
    EndsAt(gids, a, Balance(lists), Moves(lists), Joined(gids, a), k, s);
  }

  // What a join reassigns is what the loop moves.
  lemma JoinHands(gids: seq<int>, a: Assignment)
    requires gids != [] && Distinct(gids) && AllOwned(gids, a)
    ensures AllOwned(gids, Joined(gids, a))
    ensures Handed(a, Joined(gids, a)) == Elements(Moves(ListsOf(gids, a))) && Distinct(Moves(ListsOf(gids, a)))
  {
    var lists := ListsOf(gids, a);
    JoinSettles(gids, a);
    forall s: ShardId
      ensures Joined(gids, a)[s] in gids && (Joined(gids, a)[s] != a[s] <==> s in Moves(lists))
    {
      JoinAt(gids, a, lists, s);
    }
  }

  lemma JoinEven(gids: seq<int>, a: Assignment)
    requires gids != [] && Distinct(gids) && AllOwned(gids, a)
    ensures Even(CountsOf(gids, Joined(gids, a), ALL))
  {
    var lists := ListsOf(gids, a);
    JoinSettles(gids, a);
    BalanceEven(lists);
    forall s: ShardId
      ensures Listed(Balance(lists), s)
    {
      JoinAt(gids, a, lists, s);
    }
    AssignCounts(gids, Balance(lists), a, Joined(gids, a));
  }

  /** A join reassigns no more shards than any even assignment to the same groups. */
  lemma JoinIsMinimal(gids: seq<int>, a: Assignment, b: Assignment)
    requires gids != [] && Distinct(gids) && AllOwned(gids, a) && AllOwned(gids, b)
    requires Even(CountsOf(gids, b, ALL))
    ensures |Handed(a, Joined(gids, a))| <= |Handed(a, b)|
  {
    var q, r, lists := N_SHARDS / |gids|, N_SHARDS % |gids|, ListsOf(gids, a);
    JoinHands(gids, a);
    SizeOfSeq(Moves(lists));
    ListCounts(gids, a);
    OwnedShares(gids, a);
    OwnedShares(gids, b);
    MovesNeeded(lists, q, r);
    EvenTakes(gids, a, b, CountsOf(gids, a, ALL), CountsOf(gids, b, ALL), q, r);
  }
}
