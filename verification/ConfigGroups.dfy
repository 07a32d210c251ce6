/**
  Which groups a configuration has, with which servers, and what a Move does: by the requests alone.
 */
module ConfigGroups {
  import opened Sequences
  import opened ShardConfig
  import opened RebalanceMinimal
  import opened Controller
  import opened ConfigHistory

  // The i-th request is above all earlier ones of its client.
  ghost predicate IsNew(ops: seq<Op>, i: nat)
    requires i < |ops|
  {
    ops[i].requestId >= 0 &&
    forall k: nat :: k < i && ops[k].clientId == ops[i].clientId ==> ops[k].requestId < ops[i].requestId
  }

  lemma {:induction false} LatestIsHighest(ops: seq<Op>, clientId: int)
    ensures var m := Latest(Run(ops), clientId);
            && m >= -1
            && (forall k: nat :: k < |ops| && ops[k].clientId == clientId ==> ops[k].requestId <= m)
            && (m == -1 || exists k: nat :: k < |ops| && ops[k].clientId == clientId && ops[k].requestId == m)
    decreases |ops|
  {
    if ops != [] {
      var n := |ops| - 1;
      LatestIsHighest(ops[..n], clientId);
      var m, m' := Latest(Run(ops[..n]), clientId), Latest(Run(ops), clientId);
      assert forall k: nat :: k < n ==> ops[..n][k] == ops[k];
      if m' == m != -1 {
        var k: nat :| k < n && ops[..n][k].clientId == clientId && ops[..n][k].requestId == m;
        assert ops[k].clientId == clientId && ops[k].requestId == m;
      }
    }
  }

  lemma NewExactly(ops: seq<Op>, i: nat)
    requires i < |ops|
    ensures IsNew(ops, i) <==> !Duplicated(Run(ops[..i]), ops[i])
  {
    LatestIsHighest(ops[..i], ops[i].clientId);
    assert forall k: nat :: k < i ==> ops[..i][k] == ops[k];
  }

  ghost function Last(ops: seq<Op>): Config {
    var st := Run(ops);
    st.configs[|st.configs| - 1]
  }

  lemma LastIs(ops: seq<Op>)
    requires ops != []
    ensures var n := |ops| - 1;
            Last(ops) == if IsNew(ops, n) && !ops[n].request.Query? then NextConfig(Last(ops[..n]), ops[n].request)
                         else Last(ops[..n])
  {
    NewExactly(ops, |ops| - 1);
  }

  // ---------- Groups ----------

  // The i-th operation is a Join that took effect and names g.
  ghost predicate JoinedAt(ops: seq<Op>, g: int, i: nat) {
    i < |ops| && IsNew(ops, i) && ops[i].request.Join? && g in ops[i].request.servers
  }

  ghost predicate LeftAt(ops: seq<Op>, g: int, i: nat) {
    i < |ops| && IsNew(ops, i) && ops[i].request.Leave? && g in ops[i].request.gids
  }

  // g joined at i, and has neither joined again nor left since.
  ghost predicate LastJoined(ops: seq<Op>, g: int, i: nat) {
    JoinedAt(ops, g, i) && forall j: nat :: i < j ==> !JoinedAt(ops, g, j) && !LeftAt(ops, g, j)
  }

  ghost predicate Live(ops: seq<Op>, g: int) {
    exists i: nat :: LastJoined(ops, g, i)
  }

  lemma PrefixSame(ops: seq<Op>, n: nat, g: int, i: nat)
    requires i < n <= |ops|
    ensures JoinedAt(ops[..n], g, i) <==> JoinedAt(ops, g, i)
    ensures LeftAt(ops[..n], g, i) <==> LeftAt(ops, g, i)
  {
    assert forall k: nat :: k < n ==> ops[..n][k] == ops[k];
  }

  // One more request: g joins, leaves, or nothing happens to it.
  lemma GroupStep(ops: seq<Op>, g: int)
    requires ops != []
    ensures var n := |ops| - 1;
            var before, after := Last(ops[..n]).groups, Last(ops).groups;
            if JoinedAt(ops, g, n) then g in after && after[g] == ops[n].request.servers[g]
            else if LeftAt(ops, g, n) then g !in after
            else (g in after <==> g in before) && (g in after ==> after[g] == before[g])
  {
    LastIs(ops);
  }

  // The server list is that of the last Join.
  ghost predicate ServedBy(ops: seq<Op>, g: int, servers: seq<string>) {
    exists i: nat :: LastJoined(ops, g, i) && servers == ops[i].request.servers[g]
  }

  lemma StillLastJoined(ops: seq<Op>, g: int, i: nat)
    requires ops != [] && !JoinedAt(ops, g, |ops| - 1) && !LeftAt(ops, g, |ops| - 1)
    ensures LastJoined(ops[..|ops| - 1], g, i) <==> LastJoined(ops, g, i)
    ensures LastJoined(ops, g, i) ==> i < |ops| - 1
  {
    var n := |ops| - 1;
    forall j: nat
      ensures JoinedAt(ops[..n], g, j) <==> JoinedAt(ops, g, j)
      ensures LeftAt(ops[..n], g, j) <==> LeftAt(ops, g, j)
    {
      if j < n {
        PrefixSame(ops, n, g, j);
      }
    }
  }

  /**
    A group is there exactly when some Join that took effect names it and no Leave that took effect
    after that does; its servers are those of the last such Join.
   */
  lemma {:induction false} GroupsExactly(ops: seq<Op>, g: int)
    ensures g in Last(ops).groups <==> Live(ops, g)
    ensures g in Last(ops).groups ==> ServedBy(ops, g, Last(ops).groups[g])
    decreases |ops|
  {
    if ops != [] {
      var n := |ops| - 1;
      GroupStep(ops, g);
      if JoinedAt(ops, g, n) {
        assert LastJoined(ops, g, n);
      } else if LeftAt(ops, g, n) {
        assert forall i: nat :: !LastJoined(ops, g, i);
      } else {
        GroupsExactly(ops[..n], g);
        LiveStays(ops, g);
        if g in Last(ops).groups {
          ServersStay(ops, g, Last(ops).groups[g]);
        }
      }
    }
  }

  lemma LiveStays(ops: seq<Op>, g: int)
    requires ops != [] && !JoinedAt(ops, g, |ops| - 1) && !LeftAt(ops, g, |ops| - 1)
    ensures Live(ops[..|ops| - 1], g) <==> Live(ops, g)
  {
    if Live(ops[..|ops| - 1], g) {
      var i: nat :| LastJoined(ops[..|ops| - 1], g, i);
      StillLastJoined(ops, g, i);
    }
    if Live(ops, g) {
      var i: nat :| LastJoined(ops, g, i);
      StillLastJoined(ops, g, i);
    }
  }

  lemma ServersStay(ops: seq<Op>, g: int, servers: seq<string>)
    requires ops != [] && !JoinedAt(ops, g, |ops| - 1) && !LeftAt(ops, g, |ops| - 1)
    requires ServedBy(ops[..|ops| - 1], g, servers)
    ensures ServedBy(ops, g, servers)
  {
    var n := |ops| - 1;
    var i: nat :| LastJoined(ops[..n], g, i) && servers == ops[..n][i].request.servers[g];
    StillLastJoined(ops, g, i);
    assert ops[i] == ops[..n][i];
  }

  // ---------- Moves and queries ----------

  /** A Move that takes effect gives exactly the named shard to the named group, in a new configuration. */
  lemma MoveExactly(ops: seq<Op>)
    requires ops != [] && ops[|ops| - 1].request.Move?
    ensures var n := |ops| - 1;
            var before, after, move := Last(ops[..n]), Last(ops), ops[n].request;
            if !IsNew(ops, n) then after == before
            else
              && after.num == before.num + 1 && after.groups == before.groups
              && forall s: ShardId :: after.shards[s] == if s == move.shard then move.gid else before.shards[s]
  {
    LastIs(ops);
  }

  /** A request makes a new configuration exactly when it is new and no query; the old ones stay. */
  lemma NewConfigExactly(ops: seq<Op>)
    requires ops != []
    ensures var n := |ops| - 1;
            var before, after := Run(ops[..n]).configs, Run(ops).configs;
            before <= after && |after| == |before| + if IsNew(ops, n) && !ops[n].request.Query? then 1 else 0
  {
    NewExactly(ops, |ops| - 1);
  }

  // ---------- What joins and leaves move ----------

  lemma GidsAreKeys(c: Config)
    ensures Distinct(SortedGids(c.groups.Keys)) && forall g :: g in SortedGids(c.groups.Keys) <==> g in c.groups
    ensures c.groups != map[] <==> SortedGids(c.groups.Keys) != []
  {
    SortedDistinct(c.groups.Keys);
    NoGroups(c);
  }

  /** A Leave takes no shard from a group that stays, and leaves no shard with one that does not. */
  lemma LeaveMovesOrphans(ops: seq<Op>)
    requires ops != [] && ops[|ops| - 1].request.Leave? && IsNew(ops, |ops| - 1)
    ensures var before, after := Last(ops[..|ops| - 1]), Last(ops);
            if after.groups == map[] then after.shards == NO_SHARDS
            else forall s: ShardId ::
                   after.shards[s] in after.groups &&
                   (before.shards[s] in after.groups ==> after.shards[s] == before.shards[s])
  {
    var before, after := Last(ops[..|ops| - 1]), Last(ops);
    LastIs(ops);
    GidsAreKeys(after);
    if after.groups != map[] {
      AdoptOwns(SortedGids(after.groups.Keys), before.shards);
    }
  }

  /** A Join moves no more shards than any way to even them out over the groups there are then. */
  lemma JoinMovesFewest(ops: seq<Op>, other: Assignment)
    requires ops != [] && ops[|ops| - 1].request.Join? && IsNew(ops, |ops| - 1)
    requires Last(ops[..|ops| - 1]).groups != map[] && ConfigOwned(Last(ops[..|ops| - 1]))
    requires Balanced(SortedGids(Last(ops).groups.Keys), other)
    ensures |Handed(Last(ops[..|ops| - 1]).shards, Last(ops).shards)| <=
            |Handed(Last(ops[..|ops| - 1]).shards, other)|
  {
    var before, after := Last(ops[..|ops| - 1]), Last(ops);
    LastIs(ops);
    GidsAreKeys(before);
    GidsAreKeys(after);
    var gids := SortedGids(after.groups.Keys);
    forall s: ShardId
      ensures before.shards[s] in gids
    {
      var g := before.shards[s];
      assert g in SortedGids(before.groups.Keys) && g in before.groups && g in after.groups;
    }
    JoinIsMinimal(gids, before.shards, other);
  }
}
