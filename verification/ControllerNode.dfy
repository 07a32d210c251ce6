/**
  A replica of the controller.  Map iteration has no fixed order, so the loops take keys as they
  come; the results do not depend on it.
 */
module ControllerNode {
  import opened Sequences
  import opened ShardConfig
  import opened Rebalance
  import opened ShardAssign
  import opened RebalanceMinimal
  import opened Controller
  import opened ConfigHistory
  import Sorting

  type GroupToShards = map<int, seq<ShardId>>

  // held gives each group its list.
  ghost predicate Mirrors(gids: seq<int>, held: GroupToShards, lists: Lists) {
    && |lists| == |gids| && (forall g :: g in held <==> g in gids)
    && forall i: nat :: i < |gids| ==> gids[i] in held && held[gids[i]] == lists[i]
  }

  predicate IntLess(a: int, b: int) {
    a < b
  }

  // The group ids in order, each with an empty list.
  method EmptyGroups(groups: map<int, seq<string>>) returns (sortedGids: seq<int>, groupToShards: GroupToShards)
    ensures sortedGids == SortedGids(groups.Keys)
    ensures forall g :: g in groupToShards <==> g in sortedGids
    ensures forall g :: g in groupToShards ==> groupToShards[g] == []
  {
    var found := Sorting.Listed(groups.Keys);
    groupToShards := EmptyLists(found);
    ghost var perm;
    sortedGids, perm := Sorting.Sort(IntLess, found);
    SortIncreases(found, sortedGids, perm);
    IncreasingUnique(sortedGids, SortedGids(groups.Keys));
  }

  method EmptyLists(gids: seq<int>) returns (groupToShards: GroupToShards)
    ensures forall g :: g in groupToShards <==> g in gids
    ensures forall g :: g in groupToShards ==> groupToShards[g] == []
  {
    groupToShards := map[];
    for i := 0 to |gids|
      invariant forall g :: g in groupToShards <==> g in gids[..i]
      invariant forall g :: g in groupToShards ==> groupToShards[g] == []
    {
      assert gids[..i + 1] == gids[..i] + [gids[i]];
      groupToShards := groupToShards[gids[i] := []];
    }
    assert gids[..|gids|] == gids;
  }

  lemma SortIncreases(from: seq<int>, to: seq<int>, perm: seq<nat>)
    requires Distinct(from) && Sorting.Rearranges(from, to, perm) && Sorting.Sorted(IntLess, to)
    ensures Increasing(to) && forall g :: g in to <==> g in from
  {
    forall g | g in from
      ensures g in to
    {
      var i :| 0 <= i < |from| && from[i] == g;
      assert to[Sorting.WhereIs(|from|, perm, i)] == g;
    }
  }

  // Each live group's shards.
  lemma OneMoreShard(shards: Assignment, s: ShardId)
    ensures forall g ::
        ShardsOf(shards, g, s + 1) == ShardsOf(shards, g, s) + (if shards[s] == g then [s] else [])
  {
  }

  method ListShards(empty: GroupToShards, shards: Assignment, ghost gids: seq<int>)
    returns (groupToShards: GroupToShards)
    requires (forall g :: g in empty <==> g in gids) && forall g :: g in empty ==> empty[g] == []
    ensures Mirrors(gids, groupToShards, ListsOf(gids, shards))
  {
    groupToShards := empty;
    for s := 0 to N_SHARDS
      invariant groupToShards.Keys == empty.Keys
      invariant forall g :: g in groupToShards ==> groupToShards[g] == ShardsOf(shards, g, s)
    {
      var gid := shards[s];
      OneMoreShard(shards, s);
      if gid in groupToShards {
        groupToShards := groupToShards[gid := groupToShards[gid] + [s]];
      }
    }
  }

  // The last groups with the most and with the fewest shards.
  method FindExtremes(gids: seq<int>, held: GroupToShards, ghost lists: Lists)
    returns (maxGid: int, maxCount: int, minGid: int, minCount: int)
    requires Mirrors(gids, held, lists) && forall i: nat :: i < |lists| ==> |lists[i]| <= N_SHARDS
    ensures gids == [] ==> maxCount == 0 && minCount == N_SHARDS + 1
    ensures gids != [] ==> var c := Counts(lists);
              && maxGid == gids[Fullest(c)] && maxCount == c[Fullest(c)]
              && minGid == gids[Emptiest(c)] && minCount == c[Emptiest(c)]
  {
    maxGid, maxCount, minGid, minCount := -1, 0, -1, N_SHARDS + 1;
    ghost var c := Counts(lists);
    for i := 0 to |gids|
      invariant i == 0 ==> maxCount == 0 && minCount == N_SHARDS + 1
      invariant i > 0 ==> maxGid == gids[Fullest(c[..i])] && maxCount == c[Fullest(c[..i])]
      invariant i > 0 ==> minGid == gids[Emptiest(c[..i])] && minCount == c[Emptiest(c[..i])]
    {
      var count := |held[gids[i]]|;
      assert count == c[i] <= N_SHARDS;
      ExtremesSoFar(c, i);
      if count >= maxCount {
        maxCount, maxGid := count, gids[i];
      }
      if count <= minCount {
        minCount, minGid := count, gids[i];
      }
    }
    assert c[..|gids|] == c;
  }

  lemma ExtremesSoFar(c: seq<int>, i: nat)
    requires i < |c|
    ensures i == 0 ==> Fullest(c[..i + 1]) == Emptiest(c[..i + 1]) == 0
    ensures i > 0 ==> Fullest(c[..i + 1]) == if c[i] >= c[Fullest(c[..i])] then i else Fullest(c[..i])
    ensures i > 0 ==> Emptiest(c[..i + 1]) == if c[i] <= c[Emptiest(c[..i])] then i else Emptiest(c[..i])
  {
    assert c[..i + 1][..i] == c[..i];
  }

  ghost predicate Short(lists: Lists) {
    forall i: nat :: i < |lists| ==> |lists[i]| <= N_SHARDS
  }

  lemma DisjointShort(lists: Lists)
    requires Disjoint(lists)
    ensures Short(lists)
  {
    forall i: nat | i < |lists|
      ensures |lists[i]| <= N_SHARDS
    {
      assert Distinct(lists[i]);
      SizeOfSeq(lists[i]);
      SubsetSize(Elements(lists[i]), ALL);
    }
  }

  method MoveUntilEven(gids: seq<int>, start: GroupToShards, ghost from: Lists) returns (held: GroupToShards)
    requires Distinct(gids) && Mirrors(gids, start, from) && Disjoint(from)
    ensures Mirrors(gids, held, Balance(from))
  {
    held := start;
    ghost var lists := from;
    while true
      invariant Mirrors(gids, held, lists) && Disjoint(lists) && Balance(lists) == Balance(from)
      decreases Weight(lists)
    {
      DisjointShort(lists);
      var maxGid, maxCount, minGid, minCount := FindExtremes(gids, held, lists);
      if maxCount - minCount <= 1 {
        break;
      }
      MoveLightens(lists);
      MoveKeepsDisjoint(lists);
      held := MoveOne(gids, held, lists, maxGid, minGid);
      lists := Moved(lists);
    }
  }

  method MoveOne(ghost gids: seq<int>, held: GroupToShards, ghost lists: Lists, maxGid: int, minGid: int)
    returns (held': GroupToShards)
    requires Distinct(gids) && Mirrors(gids, held, lists) && Uneven(lists)
    requires maxGid == gids[Fullest(Counts(lists))] && minGid == gids[Emptiest(Counts(lists))]
    ensures Mirrors(gids, held', Moved(lists))
  {
    held' := held[minGid := held[minGid] + [held[maxGid][0]]];
    held' := held'[maxGid := held'[maxGid][1..]];
  }

  method AdoptOrphans(gids: seq<int>, start: GroupToShards, ghost from: Lists, orphans: seq<ShardId>)
    returns (held: GroupToShards)
    requires gids != [] && Distinct(gids) && Mirrors(gids, start, from)
    requires Disjoint(from) && Distinct(orphans) && Unlisted(from, orphans)
    ensures Mirrors(gids, held, Adopt(from, orphans))
  {
    held := start;
    var left := orphans;
    ghost var lists := from;
    while left != []
      invariant Mirrors(gids, held, lists) && Disjoint(lists) && Distinct(left) && Unlisted(lists, left)
      invariant Adopt(lists, left) == Adopt(from, orphans)
    {
      DisjointShort(lists);
      var _, _, minGid, _ := FindExtremes(gids, held, lists);
      ghost var j := Emptiest(Counts(lists));
      AddDisjoint(lists, j, left[0]);
      StillUnlisted(lists, j, left);
      held := held[minGid := held[minGid] + [left[0]]];
      lists := lists[j := lists[j] + [left[0]]];
      left := left[1..];
    }
  }

  lemma StillUnlisted(lists: Lists, j: nat, left: seq<ShardId>)
    requires j < |lists| && left != [] && Distinct(left) && Unlisted(lists, left)
    ensures Unlisted(lists[j := lists[j] + [left[0]]], left[1..])
  {
    forall i: nat | i < |left[1..]|
      ensures !Listed(lists[j := lists[j] + [left[0]]], left[1..][i])
    {
      assert left[1..][i] == left[i + 1] && !Listed(lists, left[i + 1]);
    }
  }

  method FindOrphans(shards: Assignment, groupToShards: GroupToShards, ghost gids: seq<int>)
    returns (orphans: seq<ShardId>)
    requires forall g :: g in groupToShards <==> g in gids
    ensures orphans == Orphans(gids, shards, N_SHARDS)
  {
    orphans := [];
    for s := 0 to N_SHARDS
      invariant orphans == Orphans(gids, shards, s)
    {
      var gid := shards[s];
      assert Orphans(gids, shards, s + 1) == Orphans(gids, shards, s) + (if gid !in gids then [s] else []);
      if gid !in groupToShards {
        orphans := orphans + [s];
      }
    }
  }

  // The groups written down so far have their shards, the other shards are as they were.
  ghost predicate Writing(gids: seq<int>, lists: Lists, base: Assignment, r: Assignment, done: seq<int>)
    requires |lists| == |gids|
  {
    && (forall i: nat, s :: i < |gids| && s in lists[i] && gids[i] in done ==> r[s] == gids[i])
    && forall s: ShardId :: (forall i: nat :: i < |gids| && gids[i] in done ==> s !in lists[i]) ==> r[s] == base[s]
  }

  // Writes the lists down, group by group in any order.
  method WriteDown(gids: seq<int>, held: GroupToShards, ghost lists: Lists, base: Assignment) returns (r: Assignment)
    requires Distinct(gids) && Mirrors(gids, held, lists) && Disjoint(lists)
    ensures r == Assign(gids, lists, base)
  {
    r := base;
    var order := Sorting.Listed(held.Keys);
    for n := 0 to |order|
      invariant Writing(gids, lists, base, r, order[..n])
    {
      assert order[n] in order && order[n] in held;
      ghost var k :| 0 <= k < |gids| && gids[k] == order[n];
      ghost var before := r;
      r := WriteShards(r, held[order[n]], order[n]);
      WriteMore(gids, lists, base, before, r, order[..n], k);
      assert order[..n + 1] == order[..n] + [order[n]];
    }
    assert order[..|order|] == order;
    AssignAssigns(gids, lists, base);
    assert forall i: nat :: i < |gids| ==> gids[i] in order;
    AssignsUnique(gids, lists, base, r, Assign(gids, lists, base));
  }

  lemma WriteMore(gids: seq<int>, lists: Lists, base: Assignment, r: Assignment, r': Assignment, done: seq<int>, k: nat)
    requires Distinct(gids) && |lists| == |gids| && Disjoint(lists) && k < |gids| && Writing(gids, lists, base, r, done)
    requires r' == WriteList(r, lists[k], gids[k])
    ensures Writing(gids, lists, base, r', done + [gids[k]])
  {
    assert forall s: ShardId :: r'[s] == if s in lists[k] then gids[k] else r[s];
    assert gids[k] in done + [gids[k]];
    forall i: nat, s | i < |gids| && s in lists[i] && gids[i] in done + [gids[k]]
      ensures r'[s] == gids[i]
    {
      if i != k {
        ListsShareNothing(lists, i, k, s);
      }
    }
    forall s: ShardId | forall i: nat :: i < |gids| && gids[i] in done + [gids[k]] ==> s !in lists[i]
      ensures r'[s] == base[s]
    {
      assert forall i: nat :: i < |gids| && gids[i] in done ==> gids[i] in done + [gids[k]];
    }
  }

  method WriteShards(a: Assignment, list: seq<ShardId>, gid: int) returns (r: Assignment)
    ensures r == WriteList(a, list, gid)
  {
    r := a;
    for i := 0 to |list|
      invariant r == WriteList(a, list[..i], gid)
    {
      assert list[..i + 1][..i] == list[..i];
      r := r[list[i] := gid];
    }
    assert list[..|list|] == list;
  }

  // Spreads the shards over the groups.
  method RebalanceShard(groups: map<int, seq<string>>, shards: Assignment, isJoin: bool, isFirst: bool)
    returns (r: Assignment)
    ensures r == Rebalanced(SortedGids(groups.Keys), shards, isJoin, isFirst)
  {
    var gids, held := EmptyGroups(groups);
    held := ListShards(held, shards, gids);
    ghost var lists := ListsOf(gids, shards);
    SortedDistinct(groups.Keys);
    ListsDisjoint(gids, shards);
    r := shards;
    if isJoin && !isFirst {
      held := MoveUntilEven(gids, held, lists);
      BalanceDisjoint(lists);
      r := WriteDown(gids, held, Balance(lists), shards);
    } else if |groups| > 0 {
      assert gids != [];
      var orphans := FindOrphans(shards, held, gids);
      held := AdoptOrphans(gids, held, lists, orphans);
      AdoptPlaces(lists, orphans);
      r := WriteDown(gids, held, Adopt(lists, orphans), shards);
    } else {
      r := NO_SHARDS;
    }
  }

  class ShardCtrler {
    var configs: seq<Config>
    var latestAppliedRequest: map<int, int>
    var latestAppliedRaftIndex: int

    ghost predicate Valid()
      reads this
    {
      configs != []
    }

    function View(): State
      reads this
    {
      State(configs, latestAppliedRequest)
    }

    constructor ()
      ensures Valid() && View() == NEW_STATE && latestAppliedRaftIndex == 0
    {
      configs := [FIRST_CONFIG];
      latestAppliedRequest := map[];
      latestAppliedRaftIndex := 0;
    }

    // One turn of the loop that takes committed requests.
    method ApplyCommand(index: int, op: Op) returns (reply: Config)
      requires Valid()
      modifies this
      ensures Valid()
      ensures index <= old(latestAppliedRaftIndex) ==>
                View() == old(View()) && latestAppliedRaftIndex == old(latestAppliedRaftIndex)
      ensures index > old(latestAppliedRaftIndex) ==>
                View() == Apply(old(View()), op) && latestAppliedRaftIndex == index
      ensures index > old(latestAppliedRaftIndex) && op.request.Query? ==> reply == Answer(old(View()), op.request.num)
    {
      reply := FIRST_CONFIG;
      if index <= latestAppliedRaftIndex {
        return;
      }
      var duplicated := NoteRequest(op);
      if op.request.Query? {
        var num := op.request.num;
        if num < 0 || num >= |configs| - 1 {
          reply := configs[|configs| - 1];
        } else {
          reply := configs[num];
        }
      } else if !duplicated {
        var config := MakeConfig(configs[|configs| - 1], op.request);
        configs := configs + [config];
      }
      latestAppliedRaftIndex := index;
    }

    method NoteRequest(op: Op) returns (duplicated: bool)
      modifies this`latestAppliedRequest
      ensures duplicated == Duplicated(old(View()), op) && latestAppliedRequest == Noted(old(View()), op)
    {
      if op.clientId !in latestAppliedRequest {
        latestAppliedRequest := latestAppliedRequest[op.clientId := -1];
      }
      duplicated := true;
      if op.requestId > latestAppliedRequest[op.clientId] {
        latestAppliedRequest := latestAppliedRequest[op.clientId := op.requestId];
        duplicated := false;
      }
    }
  }

  method MakeConfig(last: Config, request: Request) returns (config: Config)
    requires !request.Query?
    ensures config == NextConfig(last, request)
  {
    match request {
      case Join(servers) => config := MakeJoin(last, servers);
      case Leave(gids) => config := MakeLeave(last, gids);
      case Move(shard, gid) => config := Config(last.num + 1, last.shards[shard := gid], last.groups);
    }
  }

  method MakeJoin(last: Config, servers: map<int, seq<string>>) returns (config: Config)
    ensures config == NextConfig(last, Join(servers))
  {
    var groups := AddGroups(last.groups, servers);
    assert |last.groups| == 0 <==> last.groups == map[];
    var shards := RebalanceShard(groups, last.shards, true, |last.groups| == 0);
    config := Config(last.num + 1, shards, groups);
  }

  method AddGroups(from: map<int, seq<string>>, servers: map<int, seq<string>>) returns (groups: map<int, seq<string>>)
    ensures groups == from + servers
  {
    groups := from;
    var order := Sorting.Listed(servers.Keys);
    for i := 0 to |order|
      invariant Merges(from, servers, order[..i], groups)
    {
      assert order[i] in order;
      assert order[..i + 1] == order[..i] + [order[i]];
      groups := groups[order[i] := servers[order[i]]];
    }
    assert order[..|order|] == order;
    MergesAll(from, servers, order, groups);
  }

  // The keys in `done` have their values from b, the others from a.
  ghost predicate Merges<K(!new), V>(a: map<K, V>, b: map<K, V>, done: seq<K>, r: map<K, V>) {
    && (forall k :: k in done ==> k in b)
    && (forall k :: k in r <==> k in a || k in done)
    && forall k :: k in r ==> r[k] == if k in done then b[k] else a[k]
  }

  lemma MergesAll<K(!new), V>(a: map<K, V>, b: map<K, V>, done: seq<K>, r: map<K, V>)
    requires Merges(a, b, done, r) && forall k :: k in b ==> k in done
    ensures r == a + b
  {
  }

  method MakeLeave(last: Config, gids: seq<int>) returns (config: Config)
    ensures config == NextConfig(last, Leave(gids))
  {
    var groups := last.groups;
    for i := 0 to |gids|
      invariant groups == last.groups - Elements(gids[..i])
    {
      assert Elements(gids[..i + 1]) == Elements(gids[..i]) + {gids[i]};
      groups := groups - {gids[i]};
    }
    assert gids[..|gids|] == gids;
    var shards := RebalanceShard(groups, last.shards, false, false);
    config := Config(last.num + 1, shards, groups);
  }
}
