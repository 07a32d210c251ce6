/**
  How a group's state can change: whatever operation is applied, the configuration number only
  grows, and while it stays the same shards only go forward through their statuses.
 */
module ShardProgress {
  import opened ShardConfig
  import opened ShardServer
  import opened ShardProtocol

  // The shard may have gone from a to b without a change of configuration.
  ghost predicate ShardEvolves(a: Shard, b: Shard) {
    match a.status
    case Pulling => b.status != Leaving
    case Waiting => b.status == Waiting || b.status == Working
    case Working => b.status == Working
    case Leaving => b == a
  }

  // The group may have gone from a to b.
  ghost predicate Evolves(a: Group, b: Group) {
    || a.Num() < b.Num()
    || (a.currConfig == b.currConfig && a.prevConfig == b.prevConfig &&
        forall s :: s in b.shards ==> s in a.shards && ShardEvolves(a.shards[s], b.shards[s]))
  }

  lemma EvolvesTransitive(a: Group, b: Group, c: Group)
    requires Evolves(a, b) && Evolves(b, c)
    ensures Evolves(a, c)
  {
    if a.Num() == c.Num() {
      forall s | s in c.shards
        ensures s in a.shards && ShardEvolves(a.shards[s], c.shards[s])
      {
        assert s in b.shards && ShardEvolves(b.shards[s], c.shards[s]);
      }
    }
  }

  lemma ApplyEvolves(gid: int, g: Group, op: Op)
    requires op.UpdateConfig? ==> op.config.num > 0
    ensures Evolves(g, Apply(gid, g, op).group)
  {
  }

  /** UPDATE_CONFIG takes the group to the next configuration, and to no other. */
  lemma UpdateExactly(gid: int, g: Group, config: Config)
    ensures var g' := Apply(gid, g, UpdateConfig(config)).group;
            if config.num == g.Num() + 1 then g'.currConfig == config && g'.prevConfig == g.currConfig else g' == g
  {
  }

  // Once all shards work in a configuration, they do for as long as it lasts.
  ghost predicate Ready(g: Group, n: nat) {
    g.Num() > n || (g.Num() == n && g.AllWorking())
  }

  lemma ReadyStays(a: Group, b: Group, n: nat)
    requires Evolves(a, b) && Ready(a, n)
    ensures Ready(b, n)
  {
  }

  // ---------- Each request at most once in a group ----------

  function ApplyAll(gid: int, g: Group, ops: seq<Op>): Group {
    if ops == [] then g else Apply(gid, ApplyAll(gid, g, ops[..|ops| - 1]), ops[|ops| - 1]).group
  }

  // The i-th operation of the group's log changes the contents of a shard.
  ghost predicate Effective(gid: int, g: Group, ops: seq<Op>, i: nat)
    requires i < |ops|
  {
    Writes(ApplyAll(gid, g, ops[..i]), ops[i])
  }

  lemma LatestGrows(gid: int, g: Group, op: Op, clientId: int)
    ensures Latest(g, clientId) <= Latest(Apply(gid, g, op).group, clientId)
    ensures Writes(g, op) ==> Latest(g, op.clientId) < op.requestId == Latest(Apply(gid, g, op).group, op.clientId)
  {
  }

  lemma {:induction false} LatestOnlyGrows(gid: int, g: Group, ops: seq<Op>, i: nat, clientId: int)
    requires i <= |ops|
    ensures Latest(ApplyAll(gid, g, ops[..i]), clientId) <= Latest(ApplyAll(gid, g, ops), clientId)
    decreases |ops|
  {
    if i == |ops| {
      assert ops[..i] == ops;
    } else {
      var before := ops[..|ops| - 1];
      LatestOnlyGrows(gid, g, before, i, clientId);
      assert before[..i] == ops[..i];
      LatestGrows(gid, ApplyAll(gid, g, before), ops[|ops| - 1], clientId);
    }
  }

  /** In a group's log each client's writes take effect in the order of their requests. */
  lemma WritesInOrder(gid: int, g: Group, ops: seq<Op>, i: nat, j: nat)
    requires i < j < |ops| && Effective(gid, g, ops, i) && Effective(gid, g, ops, j) &&
             ops[i].clientId == ops[j].clientId
    ensures ops[i].requestId < ops[j].requestId
  {
    var client := ops[i].clientId;
    LatestGrows(gid, ApplyAll(gid, g, ops[..i]), ops[i], client);
    assert ops[..i + 1][..i] == ops[..i] && ops[..j][..i + 1] == ops[..i + 1];
    LatestOnlyGrows(gid, g, ops[..j], i + 1, client);
    LatestGrows(gid, ApplyAll(gid, g, ops[..j]), ops[j], client);
  }

  // ---------- What holds in every run ----------

  ghost predicate ViewOk(configs: Configs, v: Group) {
    && v.currConfig == configs(v.Num())
    && (v.Num() > 0 ==> v.prevConfig == configs(v.Num() - 1))
    && (v.Num() == 0 ==> v.shards == map[])
  }

  // g is the state of a group whose replicas may be in these states.
  ghost predicate ViewsOf(configs: Configs, views: set<Group>, g: Group) {
    g in views && forall v :: v in views ==> ViewOk(configs, v) && Evolves(v, g)
  }

  ghost predicate ViewsOk(configs: Configs, w: World) {
    && w.groups.Keys == w.views.Keys == w.proposed.Keys
    && forall gid :: gid in w.groups ==> ViewsOf(configs, w.views[gid], w.groups[gid])
  }

  ghost predicate UpdatesOf(configs: Configs, proposed: set<Op>, g: Group) {
    forall op :: op in proposed && op.UpdateConfig? ==> UpdateOk(configs, g, op.config)
  }

  ghost predicate UpdatesOk(configs: Configs, w: World) {
    forall gid :: gid in w.groups && gid in w.proposed ==> UpdatesOf(configs, w.proposed[gid], w.groups[gid])
  }

  ghost predicate UpdateOk(configs: Configs, g: Group, c: Config) {
    c.num > 0 && c == configs(c.num) && Ready(g, c.num - 1)
  }

  ghost predicate AlwaysOk(configs: Configs, w: World) {
    ViewsOk(configs, w) && UpdatesOk(configs, w)
  }

  lemma ApplyView(configs: Configs, gid: int, g: Group, op: Op)
    requires GoodConfigs(configs) && ViewOk(configs, g)
    requires op.UpdateConfig? ==> UpdateOk(configs, g, op.config)
    ensures ViewOk(configs, Apply(gid, g, op).group)
  {
  }

  lemma CommitViews(configs: Configs, gid: int, views: set<Group>, g: Group, op: Op)
    requires GoodConfigs(configs) && ViewsOf(configs, views, g)
    requires op.UpdateConfig? ==> UpdateOk(configs, g, op.config)
    ensures var g' := Apply(gid, g, op).group; ViewsOf(configs, views + {g'}, g')
  {
    var g' := Apply(gid, g, op).group;
    ApplyView(configs, gid, g, op);
    ApplyEvolves(gid, g, op);
    forall v | v in views
      ensures Evolves(v, g')
    {
      EvolvesTransitive(v, g, g');
    }
  }

  lemma CommitUpdates(configs: Configs, gid: int, proposed: set<Op>, g: Group, op: Op)
    requires UpdatesOf(configs, proposed, g) && op in proposed
    ensures UpdatesOf(configs, proposed, Apply(gid, g, op).group)
  {
    ApplyEvolves(gid, g, op);
    forall o | o in proposed && o.UpdateConfig?
      ensures UpdateOk(configs, Apply(gid, g, op).group, o.config)
    {
      ReadyStays(g, Apply(gid, g, op).group, o.config.num - 1);
    }
  }

  lemma AlwaysStep(configs: Configs, w: World, a: Action)
    requires GoodConfigs(configs) && AlwaysOk(configs, w) && Possible(w, a)
    ensures AlwaysOk(configs, Next(configs, w, a))
  {
    if a.Commit? {
      assert ViewsOf(configs, w.views[a.gid], w.groups[a.gid]) &&
             UpdatesOf(configs, w.proposed[a.gid], w.groups[a.gid]);
      CommitViews(configs, a.gid, w.views[a.gid], w.groups[a.gid], a.op);
      CommitUpdates(configs, a.gid, w.proposed[a.gid], w.groups[a.gid], a.op);
    } else if a.FetchConfig? {
      assert a.gid in w.groups && ViewsOf(configs, w.views[a.gid], w.groups[a.gid]);
      ReadyStays(a.view, w.groups[a.gid], a.view.Num());
    }
  }

  lemma {:induction false} AlwaysInRuns(configs: Configs, gids: set<int>, actions: seq<Action>)
    requires GoodConfigs(configs) && IsRun(configs, gids, actions)
    ensures AlwaysOk(configs, After(configs, gids, actions))
    decreases |actions|
  {
    if actions != [] {
      var before := actions[..|actions| - 1];
      AlwaysInRuns(configs, gids, before);
      AlwaysStep(configs, After(configs, gids, before), actions[|actions| - 1]);
    }
  }

  /**
    Applying a new configuration tests only its number, yet whenever it takes effect every shard of
    the group works: the check when it was proposed, on whatever old state, is enough.
   */
  lemma UpdatesFindAllWorking(configs: Configs, gids: set<int>, actions: seq<Action>, gid: int, op: Op)
    requires GoodConfigs(configs) && IsRun(configs, gids, actions)
    requires var w := After(configs, gids, actions);
             && gid in w.groups && gid in w.proposed && op in w.proposed[gid] && op.UpdateConfig?
             && w.groups[gid].Num() + 1 == op.config.num
    ensures After(configs, gids, actions).groups[gid].AllWorking()
  {
    AlwaysInRuns(configs, gids, actions);
  }
}
