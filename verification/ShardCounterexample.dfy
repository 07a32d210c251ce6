/**
  Without the condition on Leave the guarantees fail: a Leave that is handled again one configuration
  later is stamped with that one, deletes the record of a shard still to be pulled, and in the
  configuration after that the group pulls an empty shard from itself.
 */
module ShardCounterexample {
  import opened ShardConfig
  import opened ShardServer
  import opened ShardProtocol
  import ShardSafety

  // No Leave is handled more than d configurations after the one it was sent in.
  ghost predicate LateByAtMost(d: nat, actions: seq<Action>) {
    forall i: nat :: i < |actions| && actions[i].HandleLeave? ==> actions[i].view.Num() <= actions[i].msg.version + d
  }

  ghost predicate AtMostOneServes(w: World) {
    forall a, b, s :: a in w.groups && b in w.groups && w.groups[a].Serves(s) && w.groups[b].Serves(s) ==> a == b
  }

  // Shard 0 goes to group 2, then to group 1, then back to group 2 for good.
  function ConfigAt(n: nat): Config {
    if n == 0 then FIRST_CONFIG
    else Config(n, [if n == 2 then 1 else 2, 0, 0, 0, 0, 0, 0, 0, 0, 0], map[1 := ["a"], 2 := ["b"]])
  }

  const GIDS: set<int> := {1, 2}

  // A group in configuration n.
  ghost function At(n: nat, shards: map<ShardId, Shard>, latest: map<int, int>): Group {
    Group(shards, ConfigAt(if n == 0 then 0 else n - 1), ConfigAt(n), latest)
  }

  // Both groups' replicas are up to date, and these Leaves have been sent.
  ghost predicate Reaches(actions: seq<Action>, g1: Group, g2: Group, contents: Storage, leaves: set<Message>) {
    && IsRun(ConfigAt, GIDS, actions) && LateByAtMost(1, actions)
    && Shows(After(ConfigAt, GIDS, actions), g1, g2, contents, leaves)
  }

  ghost predicate Shows(w: World, g1: Group, g2: Group, contents: Storage, leaves: set<Message>) {
    && w.groups == map[1 := g1, 2 := g2] && w.contents[0] == contents && (forall m :: m in leaves ==> m in w.leaves)
    && w.views.Keys == GIDS && w.proposed.Keys == GIDS && g1 in w.views[1] && g2 in w.views[2]
  }

  ghost function Of(gid: int, g1: Group, g2: Group): Group {
    if gid == 1 then g1 else g2
  }

  lemma Extend(actions: seq<Action>, a: Action)
    requires IsRun(ConfigAt, GIDS, actions) && Possible(After(ConfigAt, GIDS, actions), a)
    ensures IsRun(ConfigAt, GIDS, actions + [a])
    ensures After(ConfigAt, GIDS, actions + [a]) == Next(ConfigAt, After(ConfigAt, GIDS, actions), a)
  {
    assert (actions + [a])[..|actions|] == actions;
  }

  // A proposed operation is committed, taking the group to g'.
  lemma DoCommit(actions: seq<Action>, g1: Group, g2: Group, contents: Storage, leaves: set<Message>, gid: int, op: Op,
                 g': Group)
    returns (more: seq<Action>)
    requires Reaches(actions, g1, g2, contents, leaves) && gid in GIDS &&
             op in After(ConfigAt, GIDS, actions).proposed[gid]
    requires Apply(gid, Of(gid, g1, g2), op).group == g' && !op.Put? && !op.Append?
    ensures Reaches(more, if gid == 1 then g' else g1, if gid == 2 then g' else g2, contents, leaves)
  {
    Extend(actions, Commit(gid, op));
    more := actions + [Commit(gid, op)];
  }

  // Something is proposed or sent.
  lemma DoOther(actions: seq<Action>, g1: Group, g2: Group, contents: Storage, leaves: set<Message>, a: Action)
    returns (more: seq<Action>)
    requires Reaches(actions, g1, g2, contents, leaves) && !a.Commit? && Possible(After(ConfigAt, GIDS, actions), a)
    requires a.HandleLeave? ==> a.view.Num() <= a.msg.version + 1
    ensures Reaches(more, g1, g2, contents, leaves)
    ensures After(ConfigAt, GIDS, more) == Next(ConfigAt, After(ConfigAt, GIDS, actions), a)
  {
    Extend(actions, a);
    more := actions + [a];
  }

  // What becomes of shard 0, the only one, when the group goes to configuration n.
  ghost function Updated(gid: int, shards: map<ShardId, Shard>, n: nat): map<ShardId, Shard> {
    if ConfigAt(n).shards[0] == gid then
      if n == 1 then map[0 := Shard(map[], Working)]
      else if 0 in shards then shards
      else map[0 := Shard(map[], Pulling)]
    else if n != 1 && 0 in shards then map[0 := shards[0].(status := Leaving)]
    else shards
  }

  lemma UpdateIs(gid: int, n: nat, shards: map<ShardId, Shard>, latest: map<int, int>)
    requires gid in GIDS && forall s :: s in shards ==> s == 0
    ensures Apply(gid, At(n, shards, latest), UpdateConfig(ConfigAt(n + 1))).group ==
            At(n + 1, Updated(gid, shards, n + 1), latest)
  {
    var config := ConfigAt(n + 1);
    assert forall s: ShardId :: s != 0 ==> config.shards[s] == 0;
    assert Update(gid, shards, config) == Updated(gid, shards, n + 1);
  }

  // Group gid goes from configuration n to the next.
  lemma DoUpdate(actions: seq<Action>, g1: Group, g2: Group, contents: Storage, leaves: set<Message>, gid: int,
                 n: nat, shards: map<ShardId, Shard>, latest: map<int, int>)
    returns (more: seq<Action>)
    requires Reaches(actions, g1, g2, contents, leaves) && gid in GIDS && Of(gid, g1, g2) == At(n, shards, latest)
    requires forall s :: s in shards ==> s == 0 && shards[s].status == Working
    ensures var g' := At(n + 1, Updated(gid, shards, n + 1), latest);
            Reaches(more, if gid == 1 then g' else g1, if gid == 2 then g' else g2, contents, leaves)
  {
    var g := At(n, shards, latest);
    UpdateIs(gid, n, shards, latest);
    more := DoOther(actions, g1, g2, contents, leaves, FetchConfig(gid, g));
    more := DoCommit(more, g1, g2, contents, leaves, gid, UpdateConfig(ConfigAt(n + 1)),
                     At(n + 1, Updated(gid, shards, n + 1), latest));
  }

  // Group gid asks the group before it, which is in the same configuration, for shard 0.
  lemma AskForShard(actions: seq<Action>, g1: Group, g2: Group, contents: Storage, leaves: set<Message>, gid: int,
                    to: int, n: nat)
    returns (more: seq<Action>)
    requires Reaches(actions, g1, g2, contents, leaves) && gid in GIDS && to in GIDS
    requires n >= 2 && ConfigAt(n - 1).shards[0] == to
    requires Of(gid, g1, g2) == At(n, map[0 := Shard(map[], Pulling)], map[])
    requires Of(to, g1, g2).Num() == n && 0 in Of(to, g1, g2).shards
    ensures Reaches(more, g1, g2, contents, leaves)
    ensures PullShard(0, n, Of(to, g1, g2).shards[0].storage) in After(ConfigAt, GIDS, more).proposed[gid]
  {
    var g, h := Of(gid, g1, g2), Of(to, g1, g2);
    more := DoOther(actions, g1, g2, contents, leaves, SendPull(gid, g, 0));
    more := DoOther(more, g1, g2, contents, leaves, HandlePull(Ask(gid, g, 0), h));
  }

  lemma DoPull(actions: seq<Action>, g1: Group, g2: Group, contents: Storage, leaves: set<Message>, gid: int, to: int,
               n: nat, storage: Storage)
    returns (more: seq<Action>)
    requires Reaches(actions, g1, g2, contents, leaves) && gid in GIDS && to in GIDS
    requires n >= 2 && ConfigAt(n - 1).shards[0] == to
    requires Of(gid, g1, g2) == At(n, map[0 := Shard(map[], Pulling)], map[])
    requires Of(to, g1, g2).Num() == n && 0 in Of(to, g1, g2).shards && Of(to, g1, g2).shards[0].storage == storage
    ensures var g' := At(n, map[0 := Shard(storage, Waiting)], map[]);
            Reaches(more, if gid == 1 then g' else g1, if gid == 2 then g' else g2, contents, leaves)
  {
    more := AskForShard(actions, g1, g2, contents, leaves, gid, to, n);
    PullIs(gid, n, storage);
    more := DoCommit(more, g1, g2, contents, leaves, gid, PullShard(0, n, storage),
                     At(n, map[0 := Shard(storage, Waiting)], map[]));
  }

  lemma PullIs(gid: int, n: nat, storage: Storage)
    ensures Apply(gid, At(n, map[0 := Shard(map[], Pulling)], map[]), PullShard(0, n, storage)).group ==
            At(n, map[0 := Shard(storage, Waiting)], map[])
  {
    assert map[0 := Shard(map[], Pulling)][0 := Shard(storage, Waiting)] == map[0 := Shard(storage, Waiting)];
  }

  // Group 2 handles a Leave that was sent at some time.
  lemma DoLeave(actions: seq<Action>, g1: Group, g2: Group, contents: Storage, leaves: set<Message>, n: nat,
                shard: Shard)
    returns (more: seq<Action>)
    requires Reaches(actions, g1, g2, contents, leaves) && LEAVE in leaves && g2 == At(n, map[0 := shard], map[]) &&
             n <= 3
    ensures Reaches(more, g1, At(n, map[], map[]), contents, leaves)
  {
    assert map[0 := shard] - {0} == map[];
    more := DoOther(actions, g1, g2, contents, leaves, HandleLeave(LEAVE, g2));
    more := DoCommit(more, g1, g2, contents, leaves, 2, LeaveShard(0, n), At(n, map[], map[]));
  }

  const PUT := Put("", "x", 7, 0)

  const LEAVE := Message(1, 2, 0, 2)

  const WRITTEN: Storage := map["" := "x"]

  // Group 1 serves the write.
  lemma DoWrite(actions: seq<Action>, g2: Group, leaves: set<Message>) returns (more: seq<Action>)
    requires Reaches(actions, At(2, map[0 := Shard(map[], Waiting)], map[]), g2, map[], leaves)
    ensures Reaches(more, At(2, map[0 := Shard(WRITTEN, Waiting)], map[7 := 0]), g2, WRITTEN, leaves)
  {
    var g1 := At(2, map[0 := Shard(map[], Waiting)], map[]);
    more := DoOther(actions, g1, g2, map[], leaves, Request(1, PUT));
    assert Apply(1, g1, PUT).group == At(2, map[0 := Shard(WRITTEN, Waiting)], map[7 := 0]);
    Extend(more, Commit(1, PUT));
    more := more + [Commit(1, PUT)];
  }

  // Shard 0 starts in group 2 and is about to be handed over to group 1.
  lemma BeforeHandOver() returns (actions: seq<Action>)
    ensures Reaches(actions, At(2, map[0 := Shard(map[], Pulling)], map[]),
                    At(2, map[0 := Shard(map[], Leaving)], map[]), map[], {})
  {
    actions := [];
    var working := map[0 := Shard(map[], Working)];
    actions := DoUpdate(actions, At(0, map[], map[]), At(0, map[], map[]), map[], {}, 2, 0, map[], map[]);
    actions := DoUpdate(actions, At(0, map[], map[]), At(1, working, map[]), map[], {}, 1, 0, map[], map[]);
    actions := DoUpdate(actions, At(1, map[], map[]), At(1, working, map[]), map[], {}, 1, 1, map[], map[]);
    actions := DoUpdate(actions, At(2, map[0 := Shard(map[], Pulling)], map[]), At(1, working, map[]), map[], {}, 2, 1,
                        working, map[]);
  }

  // It is handed over, group 2 deletes its copy, and group 1 serves a write.
  lemma HandOver() returns (actions: seq<Action>)
    ensures Reaches(actions, At(2, map[0 := Shard(WRITTEN, Waiting)], map[7 := 0]), At(2, map[], map[]), WRITTEN,
                    {LEAVE})
  {
    actions := BeforeHandOver();
    var g1, leaving := At(2, map[0 := Shard(map[], Waiting)], map[]), Shard(map[], Leaving);
    var g2 := At(2, map[0 := leaving], map[]);
    actions := DoPull(actions, At(2, map[0 := Shard(map[], Pulling)], map[]), g2, map[], {}, 1, 2, 2, map[]);
    actions := DoOther(actions, g1, g2, map[], {}, SendLeave(1, g1, 0));
    assert LEAVE in After(ConfigAt, GIDS, actions).leaves;
    actions := DoLeave(actions, g1, g2, map[], {LEAVE}, 2, leaving);
    actions := DoWrite(actions, At(2, map[], map[]), {LEAVE});
  }

  // The Leave is handled a second time, in configuration 3.
  lemma HandledAgain() returns (actions: seq<Action>)
    ensures Reaches(actions, At(2, map[0 := Shard(WRITTEN, Waiting)], map[7 := 0]), At(3, map[], map[]), WRITTEN,
                    {LEAVE})
  {
    var g1, pulling := At(2, map[0 := Shard(WRITTEN, Waiting)], map[7 := 0]), Shard(map[], Pulling);
    actions := HandOver();
    actions := DoUpdate(actions, g1, At(2, map[], map[]), WRITTEN, {LEAVE}, 2, 2, map[], map[]);
    actions := DoLeave(actions, g1, At(3, map[0 := pulling], map[]), WRITTEN, {LEAVE}, 3, pulling);
  }

  // In configuration 4 group 2 pulls an empty shard from itself.
  lemma PulledFromItself() returns (actions: seq<Action>)
    ensures Reaches(actions, At(2, map[0 := Shard(WRITTEN, Waiting)], map[7 := 0]),
                    At(4, map[0 := Shard(map[], Waiting)], map[]), WRITTEN, {LEAVE})
  {
    var g1, pulling := At(2, map[0 := Shard(WRITTEN, Waiting)], map[7 := 0]), Shard(map[], Pulling);
    actions := HandledAgain();
    actions := DoUpdate(actions, g1, At(3, map[], map[]), WRITTEN, {LEAVE}, 2, 3, map[], map[]);
    actions := DoPull(actions, g1, At(4, map[0 := pulling], map[]), WRITTEN, {LEAVE}, 2, 2, 4, map[]);
  }

  /**
    A run in which two groups serve shard 0 at the same time, one of them without the write that
    took effect, although no Leave is handled more than one configuration late.
   */
  lemma LateLeave() returns (actions: seq<Action>)
    ensures IsRun(ConfigAt, GIDS, actions) && LateByAtMost(1, actions)
    ensures var w := After(ConfigAt, GIDS, actions);
            && 1 in w.groups && 2 in w.groups && w.groups[1].Serves(0) && w.groups[2].Serves(0)
            && w.groups[2].shards[0].storage != w.contents[0]
  {
    actions := PulledFromItself();
    assert "" in WRITTEN;
  }

  /**
    At most one group serves a shard, for all configurations and in every run where Leaves are late by
    at most d, exactly when d is 0.
   */
  lemma ToleranceExactly(d: nat)
    ensures (forall configs: Configs, gids, actions ::
               GoodConfigs(configs) && 0 !in gids && IsRun(configs, gids, actions) && LateByAtMost(d, actions) ==>
                 AtMostOneServes(After(configs, gids, actions))) <==>
            d == 0
  {
    if d == 0 {
      forall configs: Configs, gids, actions |
          GoodConfigs(configs) && 0 !in gids && IsRun(configs, gids, actions) && LateByAtMost(d, actions)
        ensures AtMostOneServes(After(configs, gids, actions))
      {
        InTimeIsExclusive(configs, gids, actions);
      }
    } else {
      var actions := LateLeave();
      assert !AtMostOneServes(After(ConfigAt, GIDS, actions));
      assert LateByAtMost(d, actions);
    }
  }

  lemma InTimeIsExclusive(configs: Configs, gids: set<int>, actions: seq<Action>)
    requires GoodConfigs(configs) && 0 !in gids && IsRun(configs, gids, actions) && LateByAtMost(0, actions)
    ensures AtMostOneServes(After(configs, gids, actions))
  {
    var w := After(configs, gids, actions);
    forall a, b, s | a in w.groups && b in w.groups && w.groups[a].Serves(s) && w.groups[b].Serves(s)
      ensures a == b
    {
      ShardSafety.ExclusiveService(configs, gids, actions, a, b, s);
    }
  }
}
