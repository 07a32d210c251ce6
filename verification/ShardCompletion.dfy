/**
  A hand-over that both groups have reached can be brought to its end, from every state of every run.
 */
module ShardCompletion {
  import opened ShardConfig
  import opened ShardServer
  import opened ShardProtocol
  import opened ShardProgress
  import opened ShardInvariant
  import opened ShardSafety

  // Actions that lead from one world to another, with every Leave handled in time.
  ghost predicate Leads(configs: Configs, gids: set<int>, actions: seq<Action>, w: World) {
    IsRun(configs, gids, actions) && AllInTime(actions) && After(configs, gids, actions) == w
  }

  lemma Continue(configs: Configs, gids: set<int>, actions: seq<Action>, w: World, a: Action)
    requires Leads(configs, gids, actions, w) && Possible(w, a) && InTime(a)
    ensures Leads(configs, gids, actions + [a], Next(configs, w, a))
  {
    assert (actions + [a])[..|actions|] == actions;
  }

  // Both groups, with their replicas up to date.
  ghost predicate Shows(w: World, gid: int, g: Group, from: int, h: Group) {
    && gid in w.groups && w.groups[gid] == g && IsView(w, gid, g) && gid in w.proposed
    && from in w.groups && w.groups[from] == h && IsView(w, from, h) && from in w.proposed
    && gid != from
  }

  // Everything but these two groups is as it was.
  ghost predicate OthersSame(w: World, w': World, gid: int, from: int) {
    && w'.contents == w.contents && w'.groups.Keys == w.groups.Keys
    && forall i :: i in w.groups && i != gid && i != from ==> w'.groups[i] == w.groups[i]
  }

  // Group gid, in configuration n, waits for shard s from group `from`, which is there too and has it.
  ghost predicate HandingOver(g: Group, h: Group, from: int, s: ShardId, status: Status) {
    && Asks(g, s, status) && g.prevConfig.shards[s] == from && h.Num() == g.Num() && s in h.shards
  }

  ghost function With(g: Group, s: ShardId, shard: Shard): Group {
    g.(shards := g.shards[s := shard])
  }

  lemma Fetches(configs: Configs, gids: set<int>, actions: seq<Action>, w: World, gid: int, g: Group, from: int,
                h: Group, s: ShardId)
    returns (more: seq<Action>, w': World)
    requires Leads(configs, gids, actions, w) && Shows(w, gid, g, from, h) && HandingOver(g, h, from, s, Pulling)
    ensures Leads(configs, gids, more, w') && OthersSame(w, w', gid, from)
    ensures Shows(w', gid, With(g, s, Shard(h.shards[s].storage, Waiting)), from, h)
  {
    var m, op := Ask(gid, g, s), PullShard(s, g.Num(), h.shards[s].storage);
    Continue(configs, gids, actions, w, SendPull(gid, g, s));
    var w1 := Next(configs, w, SendPull(gid, g, s));
    more := actions + [SendPull(gid, g, s)];
    Continue(configs, gids, more, w1, HandlePull(m, h));
    var w2 := Next(configs, w1, HandlePull(m, h));
    more := more + [HandlePull(m, h)];
    Continue(configs, gids, more, w2, Commit(gid, op));
    w' := Next(configs, w2, Commit(gid, op));
    more := more + [Commit(gid, op)];
  }

  lemma Releases(configs: Configs, gids: set<int>, actions: seq<Action>, w: World, gid: int, g: Group, from: int,
                 h: Group, s: ShardId)
    returns (more: seq<Action>, w': World)
    requires Leads(configs, gids, actions, w) && Shows(w, gid, g, from, h) && HandingOver(g, h, from, s, Waiting)
    ensures Leads(configs, gids, more, w') && OthersSame(w, w', gid, from)
    ensures Shows(w', gid, g, from, h.(shards := h.shards - {s})) && Ask(gid, g, s) in w'.leaves
  {
    var m, op := Ask(gid, g, s), LeaveShard(s, h.Num());
    Continue(configs, gids, actions, w, SendLeave(gid, g, s));
    var w1 := Next(configs, w, SendLeave(gid, g, s));
    more := actions + [SendLeave(gid, g, s)];
    Continue(configs, gids, more, w1, HandleLeave(m, h));
    var w2 := Next(configs, w1, HandleLeave(m, h));
    more := more + [HandleLeave(m, h)];
    Continue(configs, gids, more, w2, Commit(from, op));
    w' := Next(configs, w2, Commit(from, op));
    more := more + [Commit(from, op)];
  }

  lemma Settles(configs: Configs, gids: set<int>, actions: seq<Action>, w: World, gid: int, g: Group, from: int,
                h: Group, s: ShardId)
    returns (more: seq<Action>, w': World)
    requires Leads(configs, gids, actions, w) && Shows(w, gid, g, from, h)
    requires s in g.shards && g.shards[s].status == Waiting && Ask(gid, g, s) in w.leaves
    ensures Leads(configs, gids, more, w') && OthersSame(w, w', gid, from)
    ensures Shows(w', gid, With(g, s, Shard(g.shards[s].storage, Working)), from, h)
  {
    var m, op := Ask(gid, g, s), TransferDone(s, g.Num());
    Continue(configs, gids, actions, w, LeaveAnswered(m));
    var w1 := Next(configs, w, LeaveAnswered(m));
    more := actions + [LeaveAnswered(m)];
    Continue(configs, gids, more, w1, Commit(gid, op));
    w' := Next(configs, w1, Commit(gid, op));
    more := more + [Commit(gid, op)];
  }

  lemma SamesTwice(w: World, w1: World, w2: World, gid: int, from: int)
    requires OthersSame(w, w1, gid, from) && OthersSame(w1, w2, gid, from)
    ensures OthersSame(w, w2, gid, from)
  {
  }

  // The three stages, one after the other.
  lemma Stages(configs: Configs, gids: set<int>, actions: seq<Action>, w: World, gid: int, g: Group, from: int,
               h: Group, s: ShardId)
    returns (more: seq<Action>, w': World)
    requires Leads(configs, gids, actions, w) && Shows(w, gid, g, from, h) && HandingOver(g, h, from, s, Pulling)
    ensures Leads(configs, gids, more, w') && OthersSame(w, w', gid, from)
    ensures Shows(w', gid, With(g, s, Shard(h.shards[s].storage, Working)), from, h.(shards := h.shards - {s}))
  {
    var storage := h.shards[s].storage;
    var g1, g2, h' := With(g, s, Shard(storage, Waiting)), With(g, s, Shard(storage, Working)),
                      h.(shards := h.shards - {s});
    var w1, w2;
    more, w1 := Fetches(configs, gids, actions, w, gid, g, from, h, s);
    more, w2 := Releases(configs, gids, more, w1, gid, g1, from, h, s);
    more, w' := Settles(configs, gids, more, w2, gid, g1, from, h', s);
    assert With(g1, s, Shard(storage, Working)) == g2;
    SamesTwice(w, w1, w2, gid, from);
    SamesTwice(w, w2, w', gid, from);
  }

  // The previous group, once it is in the configuration, still has what it is asked for.
  lemma StillThere(configs: Configs, w: World, gid: int, s: ShardId)
    requires GoodConfigs(configs) && Inv(configs, w) && gid in w.groups && Asks(w.groups[gid], s, Pulling)
    requires var from := w.groups[gid].prevConfig.shards[s];
             from in w.groups && w.groups[from].Num() == w.groups[gid].Num()
    ensures var from := w.groups[gid].prevConfig.shards[s];
            && Shows(w, gid, w.groups[gid], from, w.groups[from])
            && HandingOver(w.groups[gid], w.groups[from], from, s, Pulling)
  {
    var g := w.groups[gid];
    var from := g.prevConfig.shards[s];
    assert WorldOk(configs, w, s);
    assert ViewsOf(configs, w.views[gid], g) && ViewsOf(configs, w.views[from], w.groups[from]);
    assert SlotOk(configs, w.groups, w.contents[s], gid, s) && SlotOk(configs, w.groups, w.contents[s], from, s);
    assert Kept(configs, w.groups, g.Num() - 1, s) && Installed(configs, w.groups, g.Num() - 1, s);
  }

  /**
    Wherever a run has got to, if a group waits for a shard and the previous group has reached the same
    configuration, the run can go on so that the group has the shard in service with everything written
    to it, the other one no longer has it, and nothing else has changed.
   */
  lemma HandOverCompletes(configs: Configs, gids: set<int>, actions: seq<Action>, gid: int, s: ShardId)
    returns (more: seq<Action>)
    requires GoodConfigs(configs) && 0 !in gids && IsRun(configs, gids, actions) && AllInTime(actions)
    requires var w := After(configs, gids, actions);
             && gid in w.groups && Asks(w.groups[gid], s, Pulling)
             && var from := w.groups[gid].prevConfig.shards[s];
                from in w.groups && w.groups[from].Num() == w.groups[gid].Num()
    ensures IsRun(configs, gids, more) && AllInTime(more)
    ensures var w, w' := After(configs, gids, actions), After(configs, gids, more);
            var from := w.groups[gid].prevConfig.shards[s];
            && OthersSame(w, w', gid, from)
            && gid in w'.groups && w'.groups[gid] == With(w.groups[gid], s, Shard(w.contents[s], Working))
            && from in w'.groups && w'.groups[from] == w.groups[from].(shards := w.groups[from].shards - {s})
  {
    var w := After(configs, gids, actions);
    var g, from := w.groups[gid], w.groups[gid].prevConfig.shards[s];
    RunInvariant(configs, gids, actions);
    StillThere(configs, w, gid, s);
    var w';
    more, w' := Stages(configs, gids, actions, w, gid, g, from, w.groups[from], s);
    ServedContents(configs, gids, more, gid, s);
  }

  /** Transfers of other configurations than the group's, late or early, change nothing. */
  lemma OtherTransfersIgnored(gid: int, g: Group, op: Op)
    requires op.PullShard? || op.LeaveShard? || op.TransferDone?
    ensures op.version != g.Num() ==> Apply(gid, g, op).group == g && !Apply(gid, g, op).panics
  {
  }

  /** A transfer of the group's own configuration is done once: only what waits for it changes. */
  lemma TransfersOnce(gid: int, g: Group, op: Op)
    requires (op.PullShard? || op.TransferDone?) && op.shard in g.shards
    ensures var shard, out := g.shards[op.shard], Apply(gid, g, op);
            && !out.panics && out.group == g.(shards := out.group.shards) && out.group.shards.Keys == g.shards.Keys
            && (forall s :: s in g.shards && s != op.shard ==> out.group.shards[s] == g.shards[s])
            && out.group.shards[op.shard] ==
               (if op.version == g.Num() && op.PullShard? && shard.status == Pulling then Shard(op.storage, Waiting)
                else if op.version == g.Num() && op.TransferDone? && shard.status == Waiting
                then Shard(shard.storage, Working)
                else shard)
  {
  }

  /** A Leave is answered with OK exactly by a group that is not behind, which then is without the shard or past it. */
  lemma LeaveAnswer(gid: int, g: Group, s: ShardId, version: nat)
    ensures var out := Apply(gid, g, LeaveShard(s, version));
            && (out.err == OK <==> g.Num() >= version)
            && (out.err == ErrConfigVersion <==> g.Num() < version)
            && (out.err == OK ==> out.group.Num() > version || s !in out.group.shards)
            && (forall t :: t in g.shards && t != s ==> t in out.group.shards && out.group.shards[t] == g.shards[t])
  {
  }
}
