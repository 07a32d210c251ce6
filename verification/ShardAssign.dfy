/**
  Between an assignment and the lists of shards of its groups: how many shards each group has, and
  how many a change of assignment hands over.
 */
module ShardAssign {
  import opened Sequences
  import opened ShardConfig
  import opened Totals
  import opened Rebalance

  // The shards below n.
  ghost function Below(n: nat): (r: set<ShardId>)
    requires n <= N_SHARDS
    ensures |r| == n && forall s: ShardId :: s in r <==> s < n
  {
    if n == 0 then {} else Below(n - 1) + {n - 1}
  }

  ghost const ALL: set<ShardId> := Below(N_SHARDS)

  // ---------- Counting shards ----------

  ghost function OwnedBy(a: Assignment, among: set<ShardId>, gid: int): set<ShardId> {
    set s | s in among && a[s] == gid
  }

  ghost function OwnedByAny(a: Assignment, among: set<ShardId>, gids: seq<int>): set<ShardId> {
    set s | s in among && a[s] in gids
  }

  ghost function CountsOf(gids: seq<int>, a: Assignment, among: set<ShardId>): (c: seq<int>)
    ensures |c| == |gids| && forall i: nat :: i < |c| ==> c[i] == |OwnedBy(a, among, gids[i])|
  {
    seq(|gids|, i requires 0 <= i < |gids| => |OwnedBy(a, among, gids[i])|)
  }

  lemma {:induction false} CountsAddUp(gids: seq<int>, a: Assignment, among: set<ShardId>)
    requires Distinct(gids)
    ensures Total(CountsOf(gids, a, among), Same) == |OwnedByAny(a, among, gids)|
  {
    if gids == [] {
      assert OwnedByAny(a, among, gids) == {};
    } else {
      var rest := gids[1..];
      CountsAddUp(rest, a, among);
      assert CountsOf(gids, a, among)[1..] == CountsOf(rest, a, among);
      assert OwnedByAny(a, among, gids) == OwnedBy(a, among, gids[0]) + OwnedByAny(a, among, rest);
    }
  }

  // ---------- Lists ----------

  // The shards below n of group gid, in order.
  function ShardsOf(a: Assignment, gid: int, n: nat): (l: seq<ShardId>)
    requires n <= N_SHARDS
    ensures forall s: ShardId :: s in l <==> s < n && a[s] == gid
    ensures Distinct(l)
  {
    if n == 0 then [] else ShardsOf(a, gid, n - 1) + (if a[n - 1] == gid then [n - 1] else [])
  }

  function ListsOf(gids: seq<int>, a: Assignment): (lists: Lists)
    ensures |lists| == |gids| && forall i: nat :: i < |gids| ==> lists[i] == ShardsOf(a, gids[i], N_SHARDS)
  {
    seq(|gids|, i requires 0 <= i < |gids| => ShardsOf(a, gids[i], N_SHARDS))
  }

  // The shards below n of no group.
  function Orphans(gids: seq<int>, a: Assignment, n: nat): (l: seq<ShardId>)
    requires n <= N_SHARDS
    ensures forall s: ShardId :: s in l <==> s < n && a[s] !in gids
    ensures Distinct(l)
  {
    if n == 0 then [] else Orphans(gids, a, n - 1) + (if a[n - 1] !in gids then [n - 1] else [])
  }

  lemma ListsDisjoint(gids: seq<int>, a: Assignment)
    requires Distinct(gids)
    ensures Disjoint(ListsOf(gids, a))
  {
    var lists := ListsOf(gids, a);
    forall i: nat, j: nat, k: nat, l: nat | i < |lists| && j < |lists| && k < |lists[i]| && l < |lists[j]| &&
                                            lists[i][k] == lists[j][l]
      ensures i == j && k == l
    {
      assert lists[i][k] in lists[i] && lists[j][l] in lists[j];
    }
  }

  lemma ListCounts(gids: seq<int>, a: Assignment)
    ensures Counts(ListsOf(gids, a)) == CountsOf(gids, a, ALL)
  {
    var lists := ListsOf(gids, a);
    forall i: nat | i < |gids|
      ensures |lists[i]| == |OwnedBy(a, ALL, gids[i])|
    {
      SizeOfSeq(lists[i]);
      assert Elements(lists[i]) == OwnedBy(a, ALL, gids[i]);
    }
  }

  // ---------- From lists to an assignment ----------

  function WriteList(a: Assignment, list: seq<ShardId>, gid: int): (r: Assignment)
    ensures forall s: ShardId :: r[s] == if s in list then gid else a[s]
  {
    if list == [] then a
    else WriteList(a, list[..|list| - 1], gid)[list[|list| - 1] := gid]
  }

  function Assign(gids: seq<int>, lists: Lists, base: Assignment): Assignment
    requires |gids| == |lists|
  {
    if gids == [] then base
    else
      var n := |gids| - 1;
      WriteList(Assign(gids[..n], lists[..n], base), lists[n], gids[n])
  }

  // r gives every list to its group and leaves the other shards as they are.
  ghost predicate Assigns(gids: seq<int>, lists: Lists, base: Assignment, r: Assignment)
    requires |gids| == |lists|
  {
    && (forall i: nat, s :: i < |lists| && s in lists[i] ==> r[s] == gids[i])
    && forall s: ShardId :: (forall i: nat :: i < |lists| ==> s !in lists[i]) ==> r[s] == base[s]
  }

  lemma {:induction false} AssignAssigns(gids: seq<int>, lists: Lists, base: Assignment)
    requires |gids| == |lists| && Disjoint(lists)
    ensures Assigns(gids, lists, base, Assign(gids, lists, base))
  {
    if gids != [] {
      var n := |gids| - 1;
      AssignAssigns(gids[..n], lists[..n], base);
      var before := Assign(gids[..n], lists[..n], base);
      forall i: nat, s | i < n && s in lists[i]
        ensures s !in lists[n]
      {
        ListsShareNothing(lists, i, n, s);
      }
    }
  }

  lemma ListsShareNothing(lists: Lists, i: nat, j: nat, s: ShardId)
    requires Disjoint(lists) && i < |lists| && j < |lists| && i != j && s in lists[i]
    ensures s !in lists[j]
  {
    var a :| 0 <= a < |lists[i]| && lists[i][a] == s;
    forall b: nat | b < |lists[j]|
      ensures lists[j][b] != s
    {
    }
  }

  // Only one assignment does that.
  lemma AssignsUnique(gids: seq<int>, lists: Lists, base: Assignment, r: Assignment, t: Assignment)
    requires |gids| == |lists| && Assigns(gids, lists, base, r) && Assigns(gids, lists, base, t)
    ensures r == t
  {
    forall s: ShardId
      ensures r[s] == t[s]
    {
      if i: nat :| i < |lists| && s in lists[i] {
        assert r[s] == gids[i];
      }
    }
  }

  // Shard s is in one of the lists.
  ghost predicate Listed(lists: Lists, s: ShardId) {
    exists i: nat :: i < |lists| && s in lists[i]
  }

  // The assignment the lists say has the counts they have.
  lemma AssignCounts(gids: seq<int>, lists: Lists, base: Assignment, r: Assignment)
    requires Distinct(gids) && |gids| == |lists| && Disjoint(lists) && Assigns(gids, lists, base, r)
    requires forall s: ShardId :: Listed(lists, s)
    ensures CountsOf(gids, r, ALL) == Counts(lists)
  {
    forall i: nat | i < |gids|
      ensures |OwnedBy(r, ALL, gids[i])| == |lists[i]|
    {
      AssignCount(gids, lists, base, r, i);
    }
  }

  lemma AssignCount(gids: seq<int>, lists: Lists, base: Assignment, r: Assignment, i: nat)
    requires Distinct(gids) && |gids| == |lists| && Disjoint(lists) && Assigns(gids, lists, base, r)
    requires i < |gids| && forall s: ShardId :: Listed(lists, s)
    ensures |OwnedBy(r, ALL, gids[i])| == |lists[i]|
  {
    forall s: ShardId | r[s] == gids[i]
      ensures s in lists[i]
    {
      assert Listed(lists, s);
      var j: nat :| j < |lists| && s in lists[j];
      assert gids[j] == gids[i];
    }
    assert OwnedBy(r, ALL, gids[i]) == Elements(lists[i]);
    assert Distinct(lists[i]);
    SizeOfSeq(lists[i]);
  }
}
