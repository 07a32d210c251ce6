/**
  At most one group serves a shard, its latest contents are never lost, and no server follows a nil
  pointer: for every run in which whoever handles a Leave has not gone past the sender's configuration.
 */
module ShardSafety {
  import opened ShardConfig
  import opened ShardServer
  import opened ShardProtocol
  import opened ShardProgress
  import opened ShardInvariant

  // ---------- Commits ----------

  // The state of the group after the operation, and of shard s everywhere.
  lemma CommitShard(configs: Configs, w: World, gid: int, op: Op, s: ShardId)
    requires GoodConfigs(configs) && Inv(configs, w) && 0 !in w.groups && gid in w.groups && op in w.proposed[gid]
    ensures var w' := Committed(w, gid, op);
            && HoldsOk(configs, gid, w'.groups[gid], s) && Evolves(w.groups[gid], w'.groups[gid])
            && ShardOk(configs, w'.groups, w'.contents[s], s)
  {
    var w' := Committed(w, gid, op);
    var g, g', contents := w.groups[gid], w'.groups[gid], w.contents[s];
    assert WorldOk(configs, w, s) && ViewsOf(configs, w.views[gid], g) && UpdatesOf(configs, w.proposed[gid], g);
    assert ProposalsOf(configs, w.groups, contents, gid, w.proposed[gid], s) &&
           ProposalOk(configs, w.groups, contents, gid, op, s);
    ApplyEvolves(gid, g, op);
    if Idles(g, g', s) && w'.contents[s] == contents {
      IdleShard(configs, w.groups, contents, gid, g', w'.groups, s);
    } else {
      BusyShard(configs, w, gid, op, s);
    }
  }

  lemma TransferShard(configs: Configs, w: World, gid: int, op: Op, s: ShardId)
    requires GoodConfigs(configs) && gid in w.groups && gid in w.views && gid != 0
    requires ShardOk(configs, w.groups, w.contents[s], s) && ViewOk(configs, w.groups[gid])
    requires ProposalOk(configs, w.groups, w.contents[s], gid, op, s)
    requires op.PullShard? || op.LeaveShard? || op.TransferDone?
    requires var w' := Committed(w, gid, op);
             !Idles(w.groups[gid], w'.groups[gid], s) || w'.contents[s] != w.contents[s]
    ensures var w' := Committed(w, gid, op);
            && HoldsOk(configs, gid, w'.groups[gid], s) && Evolves(w.groups[gid], w'.groups[gid])
            && ShardOk(configs, w'.groups, w'.contents[s], s)
  {
    var w' := Committed(w, gid, op);
    var g', contents := w'.groups[gid], w.contents[s];
    assert SlotOk(configs, w.groups, contents, gid, s);
    match op
    case PullShard(_, _, _) => InstallShard(configs, w.groups, contents, gid, g', w'.groups, s);
    case LeaveShard(_, _) => RemoveShard(configs, w.groups, contents, gid, g', w'.groups, s);
    case TransferDone(_, _) => DoneShard(configs, w.groups, contents, gid, g', w'.groups, s);
  }

  lemma BusyShard(configs: Configs, w: World, gid: int, op: Op, s: ShardId)
    requires GoodConfigs(configs) && gid in w.groups && gid in w.views && gid != 0
    requires ShardOk(configs, w.groups, w.contents[s], s) && ViewOk(configs, w.groups[gid])
    requires ProposalOk(configs, w.groups, w.contents[s], gid, op, s)
    requires op.UpdateConfig? ==> UpdateOk(configs, w.groups[gid], op.config)
    requires var w' := Committed(w, gid, op);
             !Idles(w.groups[gid], w'.groups[gid], s) || w'.contents[s] != w.contents[s]
    ensures var w' := Committed(w, gid, op);
            && HoldsOk(configs, gid, w'.groups[gid], s) && Evolves(w.groups[gid], w'.groups[gid])
            && ShardOk(configs, w'.groups, w'.contents[s], s)
  {
    var w' := Committed(w, gid, op);
    var g', contents := w'.groups[gid], w.contents[s];
    assert SlotOk(configs, w.groups, contents, gid, s);
    if op.UpdateConfig? {
      AdvanceShard(configs, w.groups, contents, gid, g', w'.groups, s);
    } else if op.PullShard? || op.LeaveShard? || op.TransferDone? {
      TransferShard(configs, w, gid, op, s);
    } else {
      WriteShard(configs, w.groups, contents, gid, g', w'.groups, w'.contents[s], s);
    }
  }

  // A write leaves no proposal waiting for the contents before it.
  lemma ProposalAfter(configs: Configs, w: World, gid: int, op: Op, s: ShardId, other: int, o: Op)
    requires gid in w.groups && gid in w.views && ShardOk(configs, w.groups, w.contents[s], s)
    requires ProposalOk(configs, w.groups, w.contents[s], other, o, s)
    requires Moves(configs, w.groups, gid, Apply(gid, w.groups[gid], op).group, s)
    ensures var w' := Committed(w, gid, op); ProposalOk(configs, w'.groups, w'.contents[s], other, o, s)
  {
    var g' := Apply(gid, w.groups[gid], op).group;
    ProposalStays(configs, w.groups, w.contents[s], gid, g', other, o, s);
    if Writes(w.groups[gid], op) && KeyToShard(op.key) == s && o.PullShard? && o.shard == s {
      if Passed(configs, w.groups, o.version, s) {
        NobodyWaits(configs, w.groups, w.contents[s], gid, o.version, s);
        InstalledStays(configs, w.groups, gid, g', o.version, s);
      }
    }
  }

  lemma CommitWorld(configs: Configs, w: World, gid: int, op: Op, s: ShardId)
    requires GoodConfigs(configs) && Inv(configs, w) && 0 !in w.groups && gid in w.groups && op in w.proposed[gid]
    ensures WorldOk(configs, Committed(w, gid, op), s)
  {
    var w' := Committed(w, gid, op);
    assert WorldOk(configs, w, s) && SlotOk(configs, w.groups, w.contents[s], gid, s);
    CommitShard(configs, w, gid, op, s);
    forall i | i in w'.views
      ensures ViewsHold(configs, i, w'.views[i], s)
    {
      assert ViewsHold(configs, i, w.views[i], s);
    }
    forall i | i in w'.proposed
      ensures ProposalsOf(configs, w'.groups, w'.contents[s], i, w'.proposed[i], s)
    {
      assert ProposalsOf(configs, w.groups, w.contents[s], i, w.proposed[i], s);
      forall o | o in w.proposed[i]
        ensures ProposalOk(configs, w'.groups, w'.contents[s], i, o, s)
      {
        ProposalAfter(configs, w, gid, op, s, i, o);
      }
    }
  }

  lemma CommitMessages(configs: Configs, w: World, gid: int, op: Op)
    requires GoodConfigs(configs) && Inv(configs, w) && 0 !in w.groups && gid in w.groups && op in w.proposed[gid]
    ensures MessagesOk(configs, Committed(w, gid, op))
  {
    var w' := Committed(w, gid, op);
    forall m | m in w.leaves
      ensures Installed(configs, w'.groups, m.version, m.shard)
    {
      CommitShard(configs, w, gid, op, m.shard);
      assert WorldOk(configs, w, m.shard) && SlotOk(configs, w.groups, w.contents[m.shard], gid, m.shard);
      InstalledStays(configs, w.groups, gid, w'.groups[gid], m.version, m.shard);
    }
  }

  // ---------- The other steps ----------

  // The old group answers a Pull with the latest contents, unless the new group has had them.
  lemma PullAnswered(configs: Configs, w: World, m: Message, view: Group)
    requires Inv(configs, w) && m in w.pulls && m.to in w.groups && view in w.views[m.to]
    requires view.Num() == m.version && m.shard in view.shards
    ensures ProposalOk(configs, w.groups, w.contents[m.shard], m.from,
                       PullShard(m.shard, m.version, view.shards[m.shard].storage), m.shard)
  {
    var s, g := m.shard, w.groups[m.to];
    assert WorldOk(configs, w, s) && ViewsOf(configs, w.views[m.to], g) && ViewsHold(configs, m.to, w.views[m.to], s);
    assert SlotOk(configs, w.groups, w.contents[s], m.to, s);
    assert Kept(configs, w.groups, m.version - 1, s);
  }

  // A replica with a transfer under way addresses the right group.
  lemma AskAddressed(configs: Configs, w: World, gid: int, view: Group, s: ShardId, status: Status)
    requires Inv(configs, w) && gid in w.groups && view in w.views[gid]
    requires Asks(view, s, status) && (status == Pulling || status == Waiting)
    ensures Addressed(configs, Ask(gid, view, s))
    ensures status == Waiting ==> Installed(configs, w.groups, view.Num(), s)
  {
    assert WorldOk(configs, w, s) && ViewsOf(configs, w.views[gid], w.groups[gid]) &&
           ViewsHold(configs, gid, w.views[gid], s);
    assert SlotOk(configs, w.groups, w.contents[s], gid, s);
  }

  // What an action other than a commit proposes.
  lemma ProposeOk(configs: Configs, w: World, gid: int, op: Op)
    requires Inv(configs, w) && gid in w.proposed
    requires op.UpdateConfig? ==> UpdateOk(configs, w.groups[gid], op.config)
    requires op.PullShard? || op.LeaveShard? || op.TransferDone? ==>
               ProposalOk(configs, w.groups, w.contents[op.shard], gid, op, op.shard)
    ensures Inv(configs, Propose(w, gid, op))
  {
    var w' := Propose(w, gid, op);
    assert UpdatesOf(configs, w.proposed[gid], w.groups[gid]);
    forall s: ShardId
      ensures WorldOk(configs, w', s)
    {
      assert WorldOk(configs, w, s) && ProposalsOf(configs, w.groups, w.contents[s], gid, w.proposed[gid], s);
    }
  }

  lemma SendOk(configs: Configs, w: World, w': World, m: Message)
    requires Inv(configs, w) && Addressed(configs, m)
    requires || w' == w.(pulls := w.pulls + {m})
             || (w' == w.(leaves := w.leaves + {m}) && Installed(configs, w.groups, m.version, m.shard))
    ensures Inv(configs, w')
  {
    forall s: ShardId
      ensures WorldOk(configs, w', s)
    {
      assert WorldOk(configs, w, s);
    }
  }

  lemma SendStep(configs: Configs, w: World, a: Action)
    requires GoodConfigs(configs) && Inv(configs, w) && Possible(w, a) && (a.SendPull? || a.SendLeave?)
    ensures Inv(configs, Next(configs, w, a))
  {
    AskAddressed(configs, w, a.gid, a.view, a.shard, if a.SendPull? then Pulling else Waiting);
    SendOk(configs, w, Next(configs, w, a), Ask(a.gid, a.view, a.shard));
  }

  // A Leave handled in time asks for a deletion that is due, or that its group is already past.
  lemma LeaveHandled(configs: Configs, w: World, m: Message, view: Group)
    requires Inv(configs, w) && m in w.leaves && m.to in w.groups && view.Num() <= m.version
    ensures ProposalOk(configs, w.groups, w.contents[m.shard], m.to, LeaveShard(m.shard, view.Num()), m.shard)
  {
    assert WorldOk(configs, w, m.shard);
    if view.Num() < m.version {
      var limit := Limit(w.groups, w.groups.Keys);
      InstalledPassed(configs, w.groups, w.contents[m.shard], m.version, m.shard, limit);
      assert GonePast(configs, w.groups, m.version - 1, m.shard);
    }
  }

  lemma HandleStep(configs: Configs, w: World, a: Action)
    requires GoodConfigs(configs) && Inv(configs, w) && Possible(w, a) && InTime(a)
    requires a.HandlePull? || a.HandleLeave? || a.LeaveAnswered?
    ensures Inv(configs, Next(configs, w, a))
  {
    var m := a.msg;
    if a.HandlePull? {
      PullAnswered(configs, w, m, a.view);
      ProposeOk(configs, w, m.from, PullShard(m.shard, m.version, a.view.shards[m.shard].storage));
    } else if a.HandleLeave? {
      LeaveHandled(configs, w, m, a.view);
      ProposeOk(configs, w, m.to, LeaveShard(m.shard, a.view.Num()));
    } else {
      ProposeOk(configs, w, m.from, TransferDone(m.shard, m.version));
    }
  }

  lemma ProposeStep(configs: Configs, w: World, a: Action)
    requires GoodConfigs(configs) && Inv(configs, w) && Possible(w, a) && (a.Request? || a.FetchConfig?)
    ensures Inv(configs, Next(configs, w, a))
  {
    if a.Request? {
      ProposeOk(configs, w, a.gid, a.op);
    } else {
      FetchOk(configs, w, a.gid, a.view);
    }
  }

  lemma FetchOk(configs: Configs, w: World, gid: int, view: Group)
    requires GoodConfigs(configs) && Inv(configs, w) && IsView(w, gid, view) && view.AllWorking()
    ensures Inv(configs, Propose(w, gid, UpdateConfig(configs(view.Num() + 1))))
  {
    assert gid in w.groups && ViewsOf(configs, w.views[gid], w.groups[gid]);
    ReadyStays(view, w.groups[gid], view.Num());
    ProposeOk(configs, w, gid, UpdateConfig(configs(view.Num() + 1)));
  }

  lemma Step(configs: Configs, w: World, a: Action)
    requires GoodConfigs(configs) && Inv(configs, w) && 0 !in w.groups && Possible(w, a) && InTime(a)
    ensures Inv(configs, Next(configs, w, a)) && Next(configs, w, a).groups.Keys == w.groups.Keys
  {
    if a.Commit? {
      AlwaysStep(configs, w, a);
      CommitMessages(configs, w, a.gid, a.op);
      forall s: ShardId
        ensures WorldOk(configs, Next(configs, w, a), s)
      {
        CommitWorld(configs, w, a.gid, a.op, s);
      }
    } else if a.SendPull? || a.SendLeave? {
      SendStep(configs, w, a);
    } else if a.HandlePull? || a.HandleLeave? || a.LeaveAnswered? {
      HandleStep(configs, w, a);
    } else {
      ProposeStep(configs, w, a);
    }
  }

  lemma Beginning(configs: Configs, gids: set<int>)
    requires GoodConfigs(configs) && 0 !in gids
    ensures Inv(configs, Init(gids))
  {
    var w := Init(gids);
    forall s: ShardId
      ensures WorldOk(configs, w, s)
    {
      forall n: nat | 1 <= n
        ensures Kept(configs, w.groups, n, s)
      {
      }
    }
  }

  lemma {:induction false} RunInvariant(configs: Configs, gids: set<int>, actions: seq<Action>)
    requires GoodConfigs(configs) && 0 !in gids && IsRun(configs, gids, actions) && AllInTime(actions)
    ensures Inv(configs, After(configs, gids, actions)) && After(configs, gids, actions).groups.Keys == gids
    decreases |actions|
  {
    if actions == [] {
      Beginning(configs, gids);
    } else {
      var before := actions[..|actions| - 1];
      RunInvariant(configs, gids, before);
      Step(configs, After(configs, gids, before), actions[|actions| - 1]);
    }
  }

  // ---------- The theorems ----------

  /** At most one group serves a shard, whatever configurations the groups have reached. */
  lemma ExclusiveService(configs: Configs, gids: set<int>, actions: seq<Action>, a: int, b: int, s: ShardId)
    requires GoodConfigs(configs) && 0 !in gids && IsRun(configs, gids, actions) && AllInTime(actions)
    requires var w := After(configs, gids, actions);
             a in w.groups && b in w.groups && w.groups[a].Serves(s) && w.groups[b].Serves(s)
    ensures a == b
  {
    RunInvariant(configs, gids, actions);
    var w := After(configs, gids, actions);
    assert WorldOk(configs, w, s);
    OnlyOneServes(configs, w.groups, w.contents[s], a, b, s);
  }

  /** The group that serves a shard has every write to it, however late or often old transfers arrive. */
  lemma ServedContents(configs: Configs, gids: set<int>, actions: seq<Action>, gid: int, s: ShardId)
    requires GoodConfigs(configs) && 0 !in gids && IsRun(configs, gids, actions) && AllInTime(actions)
    requires var w := After(configs, gids, actions); gid in w.groups && w.groups[gid].Serves(s)
    ensures var w := After(configs, gids, actions); w.groups[gid].shards[s].storage == w.contents[s]
  {
    RunInvariant(configs, gids, actions);
    var w := After(configs, gids, actions);
    assert WorldOk(configs, w, s) && SlotOk(configs, w.groups, w.contents[s], gid, s);
  }

  /** A read is refused by all but the serving group, and that answers with the latest write. */
  lemma ReadsSeeLatestWrites(configs: Configs, gids: set<int>, actions: seq<Action>, gid: int, op: Op)
    requires GoodConfigs(configs) && 0 !in gids && IsRun(configs, gids, actions) && AllInTime(actions)
    requires gid in After(configs, gids, actions).groups && op.Get?
    ensures var w := After(configs, gids, actions);
            var out, contents := Apply(gid, w.groups[gid], op), w.contents[KeyToShard(op.key)];
            && (out.err == ErrWrongGroup <==> !w.groups[gid].Serves(KeyToShard(op.key)))
            && (out.err == OK ==> op.key in contents && out.value == contents[op.key])
            && (out.err == ErrNoKey ==> op.key !in contents)
  {
    if After(configs, gids, actions).groups[gid].Serves(KeyToShard(op.key)) {
      ServedContents(configs, gids, actions, gid, KeyToShard(op.key));
    }
  }

  // From a configuration whose group has had the shard to the group that has it now.
  lemma {:induction false} Holder(configs: Configs, groups: Groups, contents: Storage, s: ShardId, n: nat, limit: nat)
    returns (gid: int)
    requires ShardOk(configs, groups, contents, s) && 1 <= n && Installed(configs, groups, n, s)
    requires forall i :: i in groups ==> groups[i].Num() <= limit
    ensures gid in groups && s in groups[gid].shards && groups[gid].shards[s].status != Pulling
    ensures groups[gid].shards[s].storage == contents
    decreases limit - n
  {
    gid := Owner(configs, n, s);
    assert Kept(configs, groups, n, s) && SlotOk(configs, groups, contents, gid, s);
    if Installed(configs, groups, n + 1, s) {
      gid := Holder(configs, groups, contents, s, n + 1, limit);
    }
  }

  /**
    As soon as a shard's first group has started, some group holds all that was written to the
    shard, and before that nothing was.
   */
  lemma Conservation(configs: Configs, gids: set<int>, actions: seq<Action>, s: ShardId) returns (gid: int)
    requires GoodConfigs(configs) && 0 !in gids && IsRun(configs, gids, actions) && AllInTime(actions)
    ensures var w := After(configs, gids, actions);
            if Started(configs, w.groups, s) then
              gid in w.groups && s in w.groups[gid].shards && w.groups[gid].shards[s].status != Pulling &&
              w.groups[gid].shards[s].storage == w.contents[s]
            else w.contents[s] == map[]
  {
    RunInvariant(configs, gids, actions);
    var w := After(configs, gids, actions);
    assert WorldOk(configs, w, s);
    gid := Owner(configs, 1, s);
    if Started(configs, w.groups, s) {
      var limit := Limit(w.groups, w.groups.Keys);
      assert SlotOk(configs, w.groups, w.contents[s], gid, s);
      gid := Holder(configs, w.groups, w.contents[s], s, 1, limit);
    }
  }

  /** A group deletes a shard only when the next group's log has installed it. */
  lemma DeletedOnceInstalled(configs: Configs, gids: set<int>, actions: seq<Action>, gid: int, op: Op)
    requires GoodConfigs(configs) && 0 !in gids && IsRun(configs, gids, actions) && AllInTime(actions)
    requires var w := After(configs, gids, actions);
             && Possible(w, Commit(gid, op)) && op.LeaveShard?
             && op.shard in w.groups[gid].shards && op.shard !in Apply(gid, w.groups[gid], op).group.shards
    ensures var w := After(configs, gids, actions);
            && Owner(configs, w.groups[gid].Num(), op.shard) != gid
            && Installed(configs, w.groups, w.groups[gid].Num(), op.shard)
  {
    RunInvariant(configs, gids, actions);
    var w := After(configs, gids, actions);
    assert WorldOk(configs, w, op.shard);
    assert ProposalsOf(configs, w.groups, w.contents[op.shard], gid, w.proposed[gid], op.shard);
  }

  /** No committed operation makes a server follow a nil pointer. */
  lemma NeverPanics(configs: Configs, gids: set<int>, actions: seq<Action>, gid: int, op: Op)
    requires GoodConfigs(configs) && 0 !in gids && IsRun(configs, gids, actions) && AllInTime(actions)
    requires Possible(After(configs, gids, actions), Commit(gid, op))
    ensures !Apply(gid, After(configs, gids, actions).groups[gid], op).panics
  {
    RunInvariant(configs, gids, actions);
    var w := After(configs, gids, actions);
    if op.PullShard? || op.TransferDone? {
      assert WorldOk(configs, w, op.shard);
      assert SlotOk(configs, w.groups, w.contents[op.shard], gid, op.shard);
      assert ProposalsOf(configs, w.groups, w.contents[op.shard], gid, w.proposed[gid], op.shard);
    }
  }

  /**
    As long as the replica is in the configuration a transfer was started in, the goroutine that looks
    after the transfer finds the shard there.
   */
  lemma TransfersFindShard(configs: Configs, gids: set<int>, actions: seq<Action>, gid: int, start: Group, view: Group,
                           s: ShardId)
    requires GoodConfigs(configs) && 0 !in gids && IsRun(configs, gids, actions) && AllInTime(actions)
    requires var w := After(configs, gids, actions); IsView(w, gid, start) && IsView(w, gid, view)
    requires Asks(start, s, Pulling) || Asks(start, s, Waiting)
    requires view.Num() == start.Num()
    ensures s in view.shards && view.shards[s].status != Leaving
  {
    RunInvariant(configs, gids, actions);
    var w := After(configs, gids, actions);
    assert WorldOk(configs, w, s) && ViewsHold(configs, gid, w.views[gid], s);
    assert HoldsOk(configs, gid, start, s) && HoldsOk(configs, gid, view, s);
  }
}
