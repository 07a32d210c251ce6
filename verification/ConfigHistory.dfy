/**
  The history of configurations: what every sequence of requests makes of it.
 */
module ConfigHistory {
  import opened Sequences
  import opened ShardConfig
  import opened RebalanceMinimal
  import opened Controller

  // ---------- The groups in order ----------

  ghost predicate Increasing(gids: seq<int>) {
    forall i: nat, j: nat :: i < j < |gids| ==> gids[i] < gids[j]
  }

  ghost function Least(keys: set<int>): (m: int)
    requires keys != {}
    ensures m in keys && forall x :: x in keys ==> m <= x
    decreases keys
  {
    assert exists x :: x in keys by {
      assert (forall x :: x !in keys) ==> keys == {};
    }
    var x :| x in keys;
    var others := keys - {x};
    if others == {} then
      assert keys == {x}; x
    else
      assert keys == others + {x};
      var m := Least(others);
      if x < m then x else m
  }

  ghost function SortedGids(keys: set<int>): (gids: seq<int>)
    ensures Increasing(gids) && forall g :: g in gids <==> g in keys
    decreases keys
  {
    if keys == {} then []
    else
      var m := Least(keys);
      [m] + SortedGids(keys - {m})
  }

  lemma {:induction false} IncreasingUnique(a: seq<int>, b: seq<int>)
    requires Increasing(a) && Increasing(b) && forall g :: g in a <==> g in b
    ensures a == b
  {
    assert b != [] ==> b[0] in b && b[0] in a;
    if a != [] {
      assert a[0] in a && a[0] in b && b[0] in b && b[0] in a;
      assert a[0] == b[0];
      forall g
        ensures g in a[1..] <==> g in b[1..]
      {
        assert g in a[1..] <==> g in a && g != a[0];
        assert g in b[1..] <==> g in b && g != b[0];
      }
      IncreasingUnique(a[1..], b[1..]);
    }
  }

  // ---------- The state machine ----------

  datatype Request =
    | Join(servers: map<int, seq<string>>)
    | Leave(gids: seq<int>)
    | Move(shard: ShardId, gid: int)
    | Query(num: int)

  datatype Op = Op(clientId: int, requestId: int, request: Request)

  datatype State = State(configs: seq<Config>, latestAppliedRequest: map<int, int>)

  const NEW_STATE := State([FIRST_CONFIG], map[])

  function Latest(st: State, clientId: int): int {
    if clientId in st.latestAppliedRequest then st.latestAppliedRequest[clientId] else -1
  }

  predicate Duplicated(st: State, op: Op) {
    op.requestId <= Latest(st, op.clientId)
  }

  function Noted(st: State, op: Op): map<int, int> {
    st.latestAppliedRequest[op.clientId := if Duplicated(st, op) then Latest(st, op.clientId) else op.requestId]
  }

  ghost function NextConfig(c: Config, request: Request): Config
    requires !request.Query?
  {
    match request
    case Join(servers) =>
      var groups := c.groups + servers;
      Config(c.num + 1, Rebalanced(SortedGids(groups.Keys), c.shards, true, c.groups == map[]), groups)
    case Leave(gids) =>
      var groups := c.groups - Elements(gids);
      Config(c.num + 1, Rebalanced(SortedGids(groups.Keys), c.shards, false, false), groups)
    case Move(shard, gid) => Config(c.num + 1, c.shards[shard := gid], c.groups)
  }

  ghost function Apply(st: State, op: Op): (st': State)
    requires st.configs != []
  {
    State(if Duplicated(st, op) || op.request.Query? then st.configs
          else st.configs + [NextConfig(st.configs[|st.configs| - 1], op.request)],
          Noted(st, op))
  }

  // The answer to a query.
  function Answer(st: State, num: int): Config
    requires st.configs != []
  {
    if num < 0 || num >= |st.configs| - 1 then st.configs[|st.configs| - 1] else st.configs[num]
  }

  ghost function Run(ops: seq<Op>): (st: State)
    ensures st.configs != []
  {
    if ops == [] then NEW_STATE else Apply(Run(ops[..|ops| - 1]), ops[|ops| - 1])
  }

  // ---------- Properties ----------

  ghost predicate Numbered(st: State) {
    st.configs != [] && forall i: nat :: i < |st.configs| ==> st.configs[i].num == i
  }

  /** Configuration i has number i. */
  lemma {:induction false} RunNumbered(ops: seq<Op>)
    ensures Numbered(Run(ops))
    decreases |ops|
  {
    if ops != [] {
      RunNumbered(ops[..|ops| - 1]);
    }
  }

  /** Configurations, once made, never change. */
  lemma {:induction false} AppendOnly(ops: seq<Op>, n: nat)
    requires n <= |ops|
    ensures Run(ops[..n]).configs <= Run(ops).configs
    decreases |ops|
  {
    if n == |ops| {
      assert ops[..n] == ops;
    } else {
      var before := ops[..|ops| - 1];
      AppendOnly(before, n);
      assert before[..n] == ops[..n];
    }
  }

  lemma NumberOfAnswer(st: State, num: int)
    requires Numbered(st)
    ensures Answer(st, num) in st.configs
    ensures Answer(st, num).num == if 0 <= num < |st.configs| then num else |st.configs| - 1
  {
  }

  lemma AnswerStays(earlier: State, now: State, num: nat)
    requires earlier.configs != [] && earlier.configs <= now.configs && num < |earlier.configs|
    ensures Answer(now, num) == Answer(earlier, num) == earlier.configs[num]
  {
  }

  /**
    A query for configuration n is answered with it, now and ever after, once there is one; before that,
    and for a negative number, with the latest one.
   */
  lemma QueryIsStable(ops: seq<Op>, n: nat, num: int)
    requires n <= |ops|
    ensures var earlier, now := Run(ops[..n]), Run(ops);
            && (0 <= num < |earlier.configs| ==> Answer(now, num) == Answer(earlier, num) == earlier.configs[num])
            && Answer(now, num) in now.configs
            && Answer(now, num).num == if 0 <= num < |now.configs| then num else |now.configs| - 1
  {
    var earlier, now := Run(ops[..n]), Run(ops);
    AppendOnly(ops, n);
    RunNumbered(ops);
    NumberOfAnswer(now, num);
    if 0 <= num < |earlier.configs| {
      AnswerStays(earlier, now, num);
    }
  }

  ghost predicate ConfigBalanced(c: Config) {
    0 !in c.groups && Balanced(SortedGids(c.groups.Keys), c.shards)
  }

  // Joins and leaves of real groups, and queries.
  ghost predicate Ordinary(op: Op) {
    !op.request.Move? && (op.request.Join? ==> 0 !in op.request.servers)
  }

  lemma SortedDistinct(keys: set<int>)
    ensures Distinct(SortedGids(keys)) && (SortedGids(keys) == [] <==> keys == {})
  {
    var gids := SortedGids(keys);
    assert gids != [] ==> gids[0] in gids;
    assert keys != {} ==> Least(keys) in gids;
  }

  lemma NextBalanced(c: Config, request: Request)
    requires ConfigBalanced(c) && !request.Query? && !request.Move? && (request.Join? ==> 0 !in request.servers)
    ensures ConfigBalanced(NextConfig(c, request))
  {
    var gids, c' := SortedGids(c.groups.Keys), NextConfig(c, request);
    var gids' := SortedGids(c'.groups.Keys);
    SortedDistinct(c.groups.Keys);
    SortedDistinct(c'.groups.Keys);
    if request.Leave? {
      LeaveBalances(gids, gids', c.shards);
    } else if c.groups == map[] {
      FirstJoinBalances(gids');
    } else {
      assert c.groups.Keys != {} by {
        if k :| k in c.groups {
          assert k in c.groups.Keys;
        }
      }
      JoinBalances(gids, gids', c.shards);
    }
  }

  ghost predicate AllBalanced(st: State) {
    forall i: nat :: i < |st.configs| ==> ConfigBalanced(st.configs[i])
  }

  lemma OneMoreBalanced(st: State, c: Config, latest: map<int, int>)
    requires AllBalanced(st) && ConfigBalanced(c)
    ensures AllBalanced(State(st.configs + [c], latest))
  {
  }

  lemma StepBalanced(st: State, op: Op)
    requires st.configs != [] && AllBalanced(st) && Ordinary(op)
    ensures AllBalanced(Apply(st, op))
  {
    if !Duplicated(st, op) && !op.request.Query? {
      var c := st.configs[|st.configs| - 1];
      NextBalanced(c, op.request);
      OneMoreBalanced(st, NextConfig(c, op.request), Noted(st, op));
    }
  }

  /**
    For joins and leaves in any order, every configuration gives every shard to a live group if
    there is one, and the groups' numbers of shards differ by at most one.
   */
  lemma {:induction false} HistoryBalanced(ops: seq<Op>)
    requires forall i: nat :: i < |ops| ==> Ordinary(ops[i])
    ensures AllBalanced(Run(ops))
    decreases |ops|
  {
    if ops == [] {
      SortedDistinct({});
      assert FIRST_CONFIG.groups.Keys == {};
    } else {
      var n := |ops| - 1;
      HistoryBalanced(ops[..n]);
      assert Ordinary(ops[n]);
      StepBalanced(Run(ops[..n]), ops[n]);
    }
  }

  // ---------- Moves ----------

  // Every shard has a live group if there is one.
  ghost predicate ConfigOwned(c: Config) {
    && 0 !in c.groups
    && if c.groups == map[] then c.shards == NO_SHARDS else AllOwned(SortedGids(c.groups.Keys), c.shards)
  }

  // A Move to a live group, or to nobody while there is none.
  ghost predicate LiveMove(c: Config, gid: int) {
    gid in c.groups || (c.groups == map[] && gid == 0)
  }

  ghost predicate RealGroups(op: Op) {
    op.request.Join? ==> 0 !in op.request.servers
  }

  // The operation, if it takes effect, does not move a shard to a group that is not there.
  ghost predicate MovesWell(st: State, op: Op)
    requires st.configs != []
  {
    op.request.Move? && !Duplicated(st, op) ==> LiveMove(st.configs[|st.configs| - 1], op.request.gid)
  }

  ghost predicate AllMoveWell(ops: seq<Op>) {
    ops == [] || (AllMoveWell(ops[..|ops| - 1]) && MovesWell(Run(ops[..|ops| - 1]), ops[|ops| - 1]))
  }

  lemma NoGroups(c: Config)
    ensures c.groups == map[] <==> SortedGids(c.groups.Keys) == []
  {
    SortedDistinct(c.groups.Keys);
    if k :| k in c.groups {
      assert k in c.groups.Keys;
    }
  }

  /** After a Join the numbers are even again, however uneven Moves have made them. */
  lemma JoinEvensOut(c: Config, servers: map<int, seq<string>>)
    requires ConfigOwned(c) && 0 !in servers
    ensures ConfigBalanced(NextConfig(c, Join(servers)))
  {
    var gids, c' := SortedGids(c.groups.Keys), NextConfig(c, Join(servers));
    var gids' := SortedGids(c'.groups.Keys);
    NoGroups(c);
    SortedDistinct(c'.groups.Keys);
    if c.groups == map[] {
      FirstJoinBalances(gids');
    } else {
      JoinBalances(gids, gids', c.shards);
    }
  }

  lemma LeaveOwned(c: Config, gids: seq<int>)
    requires ConfigOwned(c)
    ensures ConfigOwned(NextConfig(c, Leave(gids)))
  {
    var c' := NextConfig(c, Leave(gids));
    NoGroups(c');
    SortedDistinct(c'.groups.Keys);
    if c'.groups != map[] {
      AdoptOwns(SortedGids(c'.groups.Keys), c.shards);
    }
  }

  lemma MoveOwned(c: Config, shard: ShardId, gid: int)
    requires ConfigOwned(c)
    ensures ConfigOwned(NextConfig(c, Move(shard, gid))) <==> LiveMove(c, gid)
  {
    var c' := NextConfig(c, Move(shard, gid));
    assert c'.shards[shard] == gid;
    if gid == 0 && c.groups == map[] {
      assert c'.shards == c.shards;
    }
  }

  lemma JoinOwned(c: Config, servers: map<int, seq<string>>)
    requires ConfigOwned(c) && 0 !in servers
    ensures ConfigOwned(NextConfig(c, Join(servers)))
  {
    JoinEvensOut(c, servers);
    NoGroups(NextConfig(c, Join(servers)));
  }

  lemma RequestOwned(c: Config, request: Request)
    requires ConfigOwned(c) && !request.Query? && (request.Join? ==> 0 !in request.servers)
    ensures ConfigOwned(NextConfig(c, request)) <==> (request.Move? ==> LiveMove(c, request.gid))
  {
    match request
    case Join(servers) => JoinOwned(c, servers);
    case Leave(gids) => LeaveOwned(c, gids);
    case Move(shard, gid) => MoveOwned(c, shard, gid);
  }

  lemma NextOwned(st: State, op: Op)
    requires st.configs != [] && ConfigOwned(st.configs[|st.configs| - 1]) && RealGroups(op)
    ensures var st' := Apply(st, op); ConfigOwned(st'.configs[|st'.configs| - 1]) <==> MovesWell(st, op)
  {
    LastApplied(st, op);
    if !Duplicated(st, op) && !op.request.Query? {
      RequestOwned(st.configs[|st.configs| - 1], op.request);
    }
  }

  lemma LastApplied(st: State, op: Op)
    requires st.configs != []
    ensures var c, configs := st.configs[|st.configs| - 1], Apply(st, op).configs;
            && configs != []
            && configs[|configs| - 1] ==
               if Duplicated(st, op) || op.request.Query? then c else NextConfig(c, op.request)
  {
  }

  ghost predicate AllConfigsOwned(st: State) {
    forall i: nat :: i < |st.configs| ==> ConfigOwned(st.configs[i])
  }

  lemma StepOwned(st: State, op: Op)
    requires st.configs != [] && RealGroups(op)
    ensures AllConfigsOwned(Apply(st, op)) <==> AllConfigsOwned(st) && MovesWell(st, op)
  {
    var st' := Apply(st, op);
    assert forall i: nat :: i < |st.configs| ==> st'.configs[i] == st.configs[i];
    if AllConfigsOwned(st) {
      NextOwned(st, op);
    } else {
      var i: nat :| i < |st.configs| && !ConfigOwned(st.configs[i]);
      assert !ConfigOwned(st'.configs[i]);
    }
  }

  /**
    Every configuration of the history gives every shard to a live group, if there is one, exactly
    when every Move that took effect was to a group live at the time.
   */
  lemma {:induction false} HistoryOwnedExactly(ops: seq<Op>)
    requires forall i: nat :: i < |ops| ==> RealGroups(ops[i])
    ensures AllConfigsOwned(Run(ops)) <==> AllMoveWell(ops)
    decreases |ops|
  {
    if ops == [] {
      assert ConfigOwned(FIRST_CONFIG);
    } else {
      var n := |ops| - 1;
      HistoryOwnedExactly(ops[..n]);
      assert RealGroups(ops[n]);
      StepOwned(Run(ops[..n]), ops[n]);
    }
  }

  lemma JoinApplied(st: State, op: Op)
    requires st.configs != [] && op.request.Join? && RealGroups(op) && !Duplicated(st, op)
    requires ConfigOwned(st.configs[|st.configs| - 1])
    ensures var st' := Apply(st, op); st'.configs != [] && ConfigBalanced(st'.configs[|st'.configs| - 1])
  {
    JoinEvensOut(st.configs[|st.configs| - 1], op.request.servers);
  }

  /** With Moves to live groups only, the numbers are even after every Join. */
  lemma EvenAfterJoin(ops: seq<Op>, op: Op)
    requires (forall i: nat :: i < |ops| ==> RealGroups(ops[i])) && AllMoveWell(ops)
    requires op.request.Join? && RealGroups(op) && !Duplicated(Run(ops), op)
    ensures var st := Run(ops + [op]); ConfigBalanced(st.configs[|st.configs| - 1])
  {
    assert (ops + [op])[..|ops|] == ops;
    HistoryOwnedExactly(ops);
    JoinApplied(Run(ops), op);
  }
}
