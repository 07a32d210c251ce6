/**
  The shard controller as a state machine: the numbered history of configurations that joins,
  leaves and moves make.
 */
module Controller {
  import opened Sequences
  import opened ShardConfig
  import opened Rebalance
  import opened ShardAssign
  import opened RebalanceMinimal

  // ---------- Orphans ----------

  // The orphans go one by one to the group with the fewest shards.
  function Adopt(lists: Lists, orphans: seq<ShardId>): (r: Lists)
    requires lists != []
    ensures |r| == |lists|
    decreases |orphans|
  {
    if orphans == [] then lists
    else
      var j := Emptiest(Counts(lists));
      Adopt(lists[j := lists[j] + [orphans[0]]], orphans[1..])
  }

  lemma {:induction false} AdoptEven(lists: Lists, orphans: seq<ShardId>)
    requires lists != [] && Even(Counts(lists))
    ensures Even(Counts(Adopt(lists, orphans)))
    decreases |orphans|
  {
    if orphans != [] {
      var j := Emptiest(Counts(lists));
      var more := lists[j := lists[j] + [orphans[0]]];
      assert forall i: nat :: i < |more| ==>
               Counts(more)[i] == if i == j then Counts(lists)[i] + 1 else Counts(lists)[i];
      AdoptEven(more, orphans[1..]);
    }
  }

  ghost predicate Unlisted(lists: Lists, orphans: seq<ShardId>) {
    forall i: nat :: i < |orphans| ==> !Listed(lists, orphans[i])
  }

  // Nobody loses a shard and every orphan finds a group.
  lemma {:induction false} AdoptPlaces(lists: Lists, orphans: seq<ShardId>)
    requires lists != [] && Disjoint(lists) && Distinct(orphans) && Unlisted(lists, orphans)
    ensures Disjoint(Adopt(lists, orphans))
    ensures forall k: nat, s :: k < |lists| && s in lists[k] ==> s in Adopt(lists, orphans)[k]
    ensures forall s :: s in orphans ==> Listed(Adopt(lists, orphans), s)
    decreases |orphans|
  {
    if orphans != [] {
      var j := Emptiest(Counts(lists));
      var more := lists[j := lists[j] + [orphans[0]]];
      AddDisjoint(lists, j, orphans[0]);
      forall i: nat | i < |orphans[1..]|
        ensures !Listed(more, orphans[1..][i])
      {
        assert orphans[1..][i] == orphans[i + 1] && !Listed(lists, orphans[i + 1]);
      }
      AdoptPlaces(more, orphans[1..]);
      assert more[j][|lists[j]|] == orphans[0];
      assert orphans[0] in Adopt(lists, orphans)[j];
    }
  }

  lemma AddDisjoint(lists: Lists, j: nat, s: ShardId)
    requires Disjoint(lists) && j < |lists| && !Listed(lists, s)
    ensures Disjoint(lists[j := lists[j] + [s]])
  {
    var more := lists[j := lists[j] + [s]];
    assert forall i: nat, a: nat :: i < |lists| && a < |lists[i]| ==> lists[i][a] in lists[i];
  }

  // ---------- Rebalancing ----------

  function Rebalanced(gids: seq<int>, a: Assignment, isJoin: bool, isFirst: bool): Assignment {
    if isJoin && !isFirst then Joined(gids, a)
    else if gids != [] then Assign(gids, Adopt(ListsOf(gids, a), Orphans(gids, a, N_SHARDS)), a)
    else NO_SHARDS
  }

  // Every shard has a group if there are any, and the groups' numbers of shards differ by at most one.
  ghost predicate Balanced(gids: seq<int>, a: Assignment) {
    if gids == [] then a == NO_SHARDS else AllOwned(gids, a) && Even(CountsOf(gids, a, ALL))
  }

  lemma JoinBalances(gids: seq<int>, more: seq<int>, a: Assignment)
    requires gids != [] && Distinct(more) && AllOwned(gids, a)
    requires forall g :: g in gids ==> g in more
    ensures Balanced(more, Rebalanced(more, a, true, false))
  {
    var first := gids[0];
    assert first in gids && first in more;
    forall s: ShardId
      ensures a[s] in more
    {
      var g := a[s];
      assert g in gids && g in more;
    }
    JoinHands(more, a);
    JoinEven(more, a);
  }

  lemma AdoptSettles(gids: seq<int>, a: Assignment, lists: Lists, orphans: seq<ShardId>)
    requires gids != [] && Distinct(gids) && lists == ListsOf(gids, a) && orphans == Orphans(gids, a, N_SHARDS)
    ensures Disjoint(Adopt(lists, orphans))
    ensures Assigns(gids, Adopt(lists, orphans), a, Assign(gids, Adopt(lists, orphans), a))
    ensures forall k: nat, s :: k < |lists| && s in lists[k] ==> s in Adopt(lists, orphans)[k]
    ensures forall s :: s in orphans ==> Listed(Adopt(lists, orphans), s)
  {
    ListsDisjoint(gids, a);
    assert Unlisted(lists, orphans);
    AdoptPlaces(lists, orphans);
    AssignAssigns(gids, Adopt(lists, orphans), a);
  }

  // Shards whose groups stay keep them, and the others find a group.
  lemma AdoptOwns(gids: seq<int>, a: Assignment)
    requires gids != [] && Distinct(gids)
    ensures AllOwned(gids, Rebalanced(gids, a, false, false))
    ensures forall s: ShardId :: a[s] in gids ==> Rebalanced(gids, a, false, false)[s] == a[s]
    ensures forall s: ShardId :: Listed(Adopt(ListsOf(gids, a), Orphans(gids, a, N_SHARDS)), s)
  {
    var lists, orphans, r := ListsOf(gids, a), Orphans(gids, a, N_SHARDS), Rebalanced(gids, a, false, false);
    AdoptSettles(gids, a, lists, orphans);
    forall s: ShardId
      ensures Listed(Adopt(lists, orphans), s) && r[s] in gids && (a[s] in gids ==> r[s] == a[s])
    {
      AdoptAt(gids, a, lists, orphans, Adopt(lists, orphans), r, s);
    }
  }

  // If the remaining counts are even, they stay so.
  lemma AdoptBalances(gids: seq<int>, a: Assignment)
    requires gids != [] && Distinct(gids) && Even(CountsOf(gids, a, ALL))
    ensures Balanced(gids, Rebalanced(gids, a, false, false))
    ensures forall s: ShardId :: a[s] in gids ==> Rebalanced(gids, a, false, false)[s] == a[s]
  {
    var lists, orphans := ListsOf(gids, a), Orphans(gids, a, N_SHARDS);
    AdoptOwns(gids, a);
    AdoptSettles(gids, a, lists, orphans);
    AdoptSpreads(gids, a, lists, orphans, Rebalanced(gids, a, false, false));
  }

  lemma AdoptSpreads(gids: seq<int>, a: Assignment, lists: Lists, orphans: seq<ShardId>, r: Assignment)
    requires gids != [] && Distinct(gids) && Even(CountsOf(gids, a, ALL)) && lists == ListsOf(gids, a)
    requires Disjoint(Adopt(lists, orphans)) && Assigns(gids, Adopt(lists, orphans), a, r)
    requires forall s: ShardId :: Listed(Adopt(lists, orphans), s)
    ensures Even(CountsOf(gids, r, ALL))
  {
    ListCounts(gids, a);
    AdoptEven(lists, orphans);
    AssignCounts(gids, Adopt(lists, orphans), a, r);
  }

  lemma AdoptAt(gids: seq<int>, a: Assignment, lists: Lists, orphans: seq<ShardId>, out: Lists, r: Assignment,
                s: ShardId)
    requires lists == ListsOf(gids, a) && |out| == |gids| && Assigns(gids, out, a, r)
    requires s in orphans || a[s] in gids
    requires forall k: nat, s :: k < |lists| && s in lists[k] ==> s in out[k]
    requires s in orphans ==> Listed(out, s)
    ensures Listed(out, s) && r[s] in gids && (a[s] in gids ==> r[s] == a[s])
  {
    if a[s] in gids {
      var k :| 0 <= k < |gids| && gids[k] == a[s];
      assert s in lists[k] && s in out[k];
    }
  }

  lemma FirstJoinBalances(gids: seq<int>)
    requires Distinct(gids) && 0 !in gids
    ensures Balanced(gids, Rebalanced(gids, NO_SHARDS, true, true))
  {
    if gids != [] {
      forall i: nat | i < |gids|
        ensures CountsOf(gids, NO_SHARDS, ALL)[i] == 0
      {
        assert OwnedBy(NO_SHARDS, ALL, gids[i]) == {};
      }
      AdoptBalances(gids, NO_SHARDS);
    }
  }

  lemma FewerEven(gids: seq<int>, fewer: seq<int>, a: Assignment)
    requires Even(CountsOf(gids, a, ALL)) && forall g :: g in fewer ==> g in gids
    ensures Even(CountsOf(fewer, a, ALL))
  {
    var c, d := CountsOf(gids, a, ALL), CountsOf(fewer, a, ALL);
    forall i: nat, j: nat | i < |fewer| && j < |fewer|
      ensures d[i] - d[j] <= 1
    {
      assert fewer[i] in fewer && fewer[j] in fewer;
      var k :| 0 <= k < |gids| && gids[k] == fewer[i];
      var l :| 0 <= l < |gids| && gids[l] == fewer[j];
      assert d[i] == c[k] && d[j] == c[l];
    }
  }

  lemma LeaveBalances(gids: seq<int>, fewer: seq<int>, a: Assignment)
    requires Distinct(gids) && Distinct(fewer) && Balanced(gids, a) && forall g :: g in fewer ==> g in gids
    ensures Balanced(fewer, Rebalanced(fewer, a, false, false))
  {
    if fewer != [] {
      assert fewer[0] in fewer;
      FewerEven(gids, fewer, a);
      AdoptBalances(fewer, a);
    }
  }
}
