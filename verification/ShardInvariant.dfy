/**
  What the groups, the proposals and the messages keep to, shard by shard, as long as nobody handles a
  Leave after going past the sender's configuration.
 */
module ShardInvariant {
  import opened ShardConfig
  import opened ShardServer
  import opened ShardProtocol
  import opened ShardProgress

  type Groups = map<int, Group>

  // The group has the shards its configuration gives it, and beyond those only ones it is to hand over.
  ghost predicate HoldsOk(configs: Configs, gid: int, v: Group, s: ShardId) {
    var n := v.Num();
    && (n >= 1 && Owner(configs, n, s) == gid ==> s in v.shards)
    && (s in v.shards ==>
          && n >= 1
          && var status := v.shards[s].status;
             if Owner(configs, n, s) == gid then
               status != Leaving && (status != Working ==> n >= 2 && Owner(configs, n - 1, s) != gid)
             else status == Leaving && n >= 2 && Owner(configs, n - 1, s) == gid)
  }

  // The group of configuration n has had the shard's contents in that configuration.
  ghost predicate Installed(configs: Configs, groups: Groups, n: nat, s: ShardId) {
    var gid := Owner(configs, n, s);
    gid in groups && (groups[gid].Num() > n || (groups[gid].Num() == n && groups[gid].Serves(s)))
  }

  // The groups of all earlier configurations have gone past them.
  ghost predicate Passed(configs: Configs, groups: Groups, n: nat, s: ShardId) {
    forall k: nat :: 1 <= k < n ==> GonePast(configs, groups, k, s)
  }

  ghost predicate GonePast(configs: Configs, groups: Groups, k: nat, s: ShardId) {
    Owner(configs, k, s) in groups && groups[Owner(configs, k, s)].Num() > k
  }

  ghost predicate SlotOk(configs: Configs, groups: Groups, contents: Storage, gid: int, s: ShardId)
    requires gid in groups
  {
    var g := groups[gid];
    && HoldsOk(configs, gid, g, s)
    && (s in g.shards && g.shards[s].status != Pulling ==>
          && Passed(configs, groups, g.Num(), s)
          && (|| g.shards[s].storage == contents
              || (g.shards[s].status == Leaving && Installed(configs, groups, g.Num(), s))))
  }

  // A group past its configuration still has the shard unless the next one has it.
  ghost predicate Kept(configs: Configs, groups: Groups, n: nat, s: ShardId) {
    Installed(configs, groups, n, s) ==>
      var g := groups[Owner(configs, n, s)];
      || g.Num() == n
      || Installed(configs, groups, n + 1, s)
      || (g.Num() == n + 1 && s in g.shards && g.shards[s].status == Leaving)
  }

  ghost predicate Started(configs: Configs, groups: Groups, s: ShardId) {
    Owner(configs, 1, s) in groups && groups[Owner(configs, 1, s)].Num() >= 1
  }

  ghost predicate ShardOk(configs: Configs, groups: Groups, contents: Storage, s: ShardId) {
    && (forall gid :: gid in groups ==> SlotOk(configs, groups, contents, gid, s))
    && (forall n: nat :: 1 <= n ==> Kept(configs, groups, n, s))
    && (Started(configs, groups, s) || contents == map[])
  }

  ghost predicate ProposalOk(configs: Configs, groups: Groups, contents: Storage, gid: int, op: Op, s: ShardId) {
    && (op.PullShard? && op.shard == s ==>
          && op.version >= 2 && Owner(configs, op.version, s) == gid
          && (Installed(configs, groups, op.version, s) ||
              (Passed(configs, groups, op.version, s) && op.storage == contents)))
    && (op.LeaveShard? && op.shard == s ==>
          || (gid in groups && op.version < groups[gid].Num())
          || (Owner(configs, op.version, s) != gid && Installed(configs, groups, op.version, s)))
    && (op.TransferDone? && op.shard == s ==> op.version >= 1 && Owner(configs, op.version, s) == gid)
  }

  // The sender is the shard's group in its configuration, the receiver in the one before.
  ghost predicate Addressed(configs: Configs, m: Message) {
    && m.version >= 2 && m.from != m.to
    && Owner(configs, m.version, m.shard) == m.from && Owner(configs, m.version - 1, m.shard) == m.to
  }

  ghost predicate MessagesOk(configs: Configs, w: World) {
    && (forall m :: m in w.pulls ==> Addressed(configs, m))
    && forall m :: m in w.leaves ==> Addressed(configs, m) && Installed(configs, w.groups, m.version, m.shard)
  }

  ghost predicate ViewsHold(configs: Configs, gid: int, views: set<Group>, s: ShardId) {
    forall v :: v in views ==> HoldsOk(configs, gid, v, s)
  }

  ghost predicate ProposalsOf(configs: Configs, groups: Groups, contents: Storage, gid: int, proposed: set<Op>,
                              s: ShardId) {
    forall op :: op in proposed ==> ProposalOk(configs, groups, contents, gid, op, s)
  }

  ghost predicate WorldOk(configs: Configs, w: World, s: ShardId) {
    && ShardOk(configs, w.groups, w.contents[s], s)
    && (forall gid :: gid in w.views ==> ViewsHold(configs, gid, w.views[gid], s))
    && (forall gid :: gid in w.proposed ==> ProposalsOf(configs, w.groups, w.contents[s], gid, w.proposed[gid], s))
  }

  ghost predicate Inv(configs: Configs, w: World) {
    && AlwaysOk(configs, w) && MessagesOk(configs, w)
    && forall s: ShardId :: WorldOk(configs, w, s)
  }

  // ---------- Consequences ----------

  // While a group serves the shard, nobody waits for its contents or has them waiting.
  lemma NobodyWaits(configs: Configs, groups: Groups, contents: Storage, gid: int, n: nat, s: ShardId)
    requires ShardOk(configs, groups, contents, s) && gid in groups && groups[gid].Serves(s)
    requires n >= 1 && Passed(configs, groups, n, s)
    ensures Installed(configs, groups, n, s)
  {
    var g := groups[gid];
    assert SlotOk(configs, groups, contents, gid, s);
    assert g.Num() > n ==> GonePast(configs, groups, n, s);
    assert g.Num() < n ==> GonePast(configs, groups, g.Num(), s);
  }

  // Only one group serves the shard.
  lemma OnlyOneServes(configs: Configs, groups: Groups, contents: Storage, a: int, b: int, s: ShardId)
    requires ShardOk(configs, groups, contents, s)
    requires a in groups && b in groups && groups[a].Serves(s) && groups[b].Serves(s)
    ensures a == b
  {
    assert SlotOk(configs, groups, contents, a, s) && SlotOk(configs, groups, contents, b, s);
    var m, n := groups[a].Num(), groups[b].Num();
    assert m < n ==> GonePast(configs, groups, m, s);
    assert n < m ==> GonePast(configs, groups, n, s);
  }

  lemma {:induction false} Limit(groups: Groups, gids: set<int>) returns (limit: nat)
    requires gids <= groups.Keys
    ensures forall i :: i in gids ==> groups[i].Num() <= limit
    decreases gids
  {
    limit := 0;
    if gid :| gid in gids {
      var l := Limit(groups, gids - {gid});
      limit := if groups[gid].Num() > l then groups[gid].Num() else l;
      assert forall i :: i in gids ==> i == gid || i in gids - {gid};
    }
  }

  // When a configuration's group has had the shard, the groups before it have gone on.
  lemma {:induction false} InstalledPassed(configs: Configs, groups: Groups, contents: Storage, n: nat, s: ShardId,
                                           limit: nat)
    requires ShardOk(configs, groups, contents, s) && 1 <= n && Installed(configs, groups, n, s)
    requires forall i :: i in groups ==> groups[i].Num() <= limit
    ensures Passed(configs, groups, n, s)
    decreases limit - n
  {
    assert Kept(configs, groups, n, s) && SlotOk(configs, groups, contents, Owner(configs, n, s), s);
    if Installed(configs, groups, n + 1, s) {
      InstalledPassed(configs, groups, contents, n + 1, s, limit);
    }
    assert Passed(configs, groups, n + 1, s) || Passed(configs, groups, n, s);
    forall k: nat | 1 <= k < n
      ensures GonePast(configs, groups, k, s)
    {
    }
  }

  // ---------- One group changes ----------

  // Group gid goes from one state to the next, and still holds what it should of s.
  ghost predicate Moves(configs: Configs, groups: Groups, gid: int, g': Group, s: ShardId) {
    && gid in groups && Evolves(groups[gid], g')
    && HoldsOk(configs, gid, groups[gid], s) && HoldsOk(configs, gid, g', s)
  }

  lemma InstalledStays(configs: Configs, groups: Groups, gid: int, g': Group, n: nat, s: ShardId)
    requires Moves(configs, groups, gid, g', s) && Installed(configs, groups, n, s)
    ensures Installed(configs, groups[gid := g'], n, s)
  {
  }

  lemma PassedStays(configs: Configs, groups: Groups, gid: int, g': Group, n: nat, s: ShardId)
    requires Moves(configs, groups, gid, g', s) && Passed(configs, groups, n, s)
    ensures Passed(configs, groups[gid := g'], n, s)
  {
    var groups' := groups[gid := g'];
    forall k: nat | 1 <= k < n
      ensures GonePast(configs, groups', k, s)
    {
      assert GonePast(configs, groups, k, s);
    }
  }

  // The other groups' slots.
  lemma OthersStay(configs: Configs, groups: Groups, contents: Storage, gid: int, g': Group, other: int, s: ShardId)
    requires Moves(configs, groups, gid, g', s) && other in groups && other != gid
    requires SlotOk(configs, groups, contents, other, s)
    ensures SlotOk(configs, groups[gid := g'], contents, other, s)
  {
    var g := groups[other];
    if s in g.shards && g.shards[s].status != Pulling {
      PassedStays(configs, groups, gid, g', g.Num(), s);
      if Installed(configs, groups, g.Num(), s) {
        InstalledStays(configs, groups, gid, g', g.Num(), s);
      }
    }
  }

  lemma ProposalStays(configs: Configs, groups: Groups, contents: Storage, gid: int, g': Group, other: int, op: Op,
                      s: ShardId)
    requires Moves(configs, groups, gid, g', s) && ProposalOk(configs, groups, contents, other, op, s)
    ensures ProposalOk(configs, groups[gid := g'], contents, other, op, s)
  {
    if op.PullShard? || op.LeaveShard? {
      if Installed(configs, groups, op.version, s) {
        InstalledStays(configs, groups, gid, g', op.version, s);
      }
      if Passed(configs, groups, op.version, s) {
        PassedStays(configs, groups, gid, g', op.version, s);
      }
    }
  }

  // The other configurations' groups that are past them.
  lemma KeptStays(configs: Configs, groups: Groups, gid: int, g': Group, n: nat, s: ShardId)
    requires Moves(configs, groups, gid, g', s) && Kept(configs, groups, n, s)
    requires Owner(configs, n, s) != gid
    ensures Kept(configs, groups[gid := g'], n, s)
  {
    if Installed(configs, groups, n + 1, s) {
      InstalledStays(configs, groups, gid, g', n + 1, s);
    }
  }

  // It is enough to look at the group that changes.
  lemma GroupMoves(configs: Configs, groups: Groups, contents: Storage, gid: int, g': Group, groups': Groups,
                   s: ShardId)
    requires ShardOk(configs, groups, contents, s) && Moves(configs, groups, gid, g', s) && groups' == groups[gid := g']
    requires SlotOk(configs, groups', contents, gid, s)
    requires forall n: nat :: 1 <= n && Owner(configs, n, s) == gid ==> Kept(configs, groups', n, s)
    ensures ShardOk(configs, groups', contents, s)
  {
    forall i | i in groups'
      ensures SlotOk(configs, groups', contents, i, s)
    {
      if i != gid {
        assert SlotOk(configs, groups, contents, i, s);
        OthersStay(configs, groups, contents, gid, g', i, s);
      }
    }
    forall n: nat | 1 <= n
      ensures Kept(configs, groups', n, s)
    {
      if Owner(configs, n, s) != gid {
        assert Kept(configs, groups, n, s);
        KeptStays(configs, groups, gid, g', n, s);
      }
    }
  }

  // Nothing changes about the shard.
  ghost predicate Idles(g: Group, g': Group, s: ShardId) {
    && g'.currConfig == g.currConfig && (s in g'.shards <==> s in g.shards)
    && (s in g.shards ==> g'.shards[s] == g.shards[s])
  }

  lemma IdleShard(configs: Configs, groups: Groups, contents: Storage, gid: int, g': Group, groups': Groups, s: ShardId)
    requires ShardOk(configs, groups, contents, s) && gid in groups && groups' == groups[gid := g']
    requires Idles(groups[gid], g', s) && Evolves(groups[gid], g')
    ensures HoldsOk(configs, gid, g', s) && ShardOk(configs, groups', contents, s)
  {
    var g := groups[gid];
    assert SlotOk(configs, groups, contents, gid, s);
    if s in g.shards && g.shards[s].status != Pulling {
      PassedStays(configs, groups, gid, g', g.Num(), s);
    }
    forall n: nat | 1 <= n && Owner(configs, n, s) == gid
      ensures Kept(configs, groups', n, s)
    {
      assert Kept(configs, groups, n, s);
    }
    GroupMoves(configs, groups, contents, gid, g', groups', s);
  }

  // ---------- A transfer ends ----------

  lemma DoneShard(configs: Configs, groups: Groups, contents: Storage, gid: int, g': Group, groups': Groups, s: ShardId)
    requires ShardOk(configs, groups, contents, s) && gid in groups && groups' == groups[gid := g']
    requires var g := groups[gid];
             && s in g.shards && g.shards[s].status == Waiting
             && g' == g.(shards := g.shards[s := g.shards[s].(status := Working)])
    ensures Evolves(groups[gid], g') && HoldsOk(configs, gid, g', s) && ShardOk(configs, groups', contents, s)
  {
    var g := groups[gid];
    assert SlotOk(configs, groups, contents, gid, s);
    PassedStays(configs, groups, gid, g', g.Num(), s);
    forall n: nat | 1 <= n && Owner(configs, n, s) == gid
      ensures Kept(configs, groups', n, s)
    {
      assert Kept(configs, groups, n, s);
    }
    GroupMoves(configs, groups, contents, gid, g', groups', s);
  }

  // ---------- The old copy is deleted ----------

  lemma RemoveShard(configs: Configs, groups: Groups, contents: Storage, gid: int, g': Group, groups': Groups,
                    s: ShardId)
    requires ShardOk(configs, groups, contents, s) && gid in groups && groups' == groups[gid := g']
    requires var g := groups[gid];
             && Owner(configs, g.Num(), s) != gid && Installed(configs, groups, g.Num(), s)
             && g' == g.(shards := g.shards - {s})
    ensures Evolves(groups[gid], g') && HoldsOk(configs, gid, g', s) && ShardOk(configs, groups', contents, s)
  {
    var g := groups[gid];
    assert SlotOk(configs, groups, contents, gid, s);
    forall n: nat | 1 <= n && Owner(configs, n, s) == gid
      ensures Kept(configs, groups', n, s)
    {
      assert Kept(configs, groups, n, s);
    }
    GroupMoves(configs, groups, contents, gid, g', groups', s);
  }

  // What the deletion would break if it came too early.
  lemma EarlyRemoval(configs: Configs, groups: Groups, contents: Storage, gid: int, groups': Groups, s: ShardId)
    requires ShardOk(configs, groups, contents, s) && gid in groups && s in groups[gid].shards
    requires groups' == groups[gid := groups[gid].(shards := groups[gid].shards - {s})]
    requires Owner(configs, groups[gid].Num(), s) == gid || !Installed(configs, groups, groups[gid].Num(), s)
    ensures !ShardOk(configs, groups', contents, s)
  {
    var n := groups[gid].Num();
    assert SlotOk(configs, groups, contents, gid, s);
    if Owner(configs, n, s) == gid {
      assert !SlotOk(configs, groups', contents, gid, s);
    } else {
      assert !Kept(configs, groups', n - 1, s);
    }
  }

  /**
    Committing LEAVE_SHARD is safe exactly when it does nothing, or the group no longer owns the
    shard and the one that does has installed it.
   */
  lemma RemovalSafeExactly(configs: Configs, groups: Groups, contents: Storage, gid: int, s: ShardId, version: nat)
    requires ShardOk(configs, groups, contents, s) && gid in groups
    ensures ShardOk(configs, groups[gid := Apply(gid, groups[gid], LeaveShard(s, version)).group], contents, s) <==>
            || version != groups[gid].Num() || s !in groups[gid].shards
            || (Owner(configs, version, s) != gid && Installed(configs, groups, version, s))
  {
    var g, g' := groups[gid], Apply(gid, groups[gid], LeaveShard(s, version)).group;
    var groups' := groups[gid := g'];
    if version != g.Num() || s !in g.shards {
      ApplyEvolves(gid, g, LeaveShard(s, version));
      IdleShard(configs, groups, contents, gid, g', groups', s);
    } else if Owner(configs, version, s) != gid && Installed(configs, groups, version, s) {
      RemoveShard(configs, groups, contents, gid, g', groups', s);
    } else {
      EarlyRemoval(configs, groups, contents, gid, groups', s);
    }
  }

  // ---------- The contents arrive ----------

  lemma InstallShard(configs: Configs, groups: Groups, contents: Storage, gid: int, g': Group, groups': Groups,
                     s: ShardId)
    requires ShardOk(configs, groups, contents, s) && gid in groups && groups' == groups[gid := g']
    requires var g := groups[gid];
             && s in g.shards && g.shards[s].status == Pulling && Passed(configs, groups, g.Num(), s)
             && g' == g.(shards := g.shards[s := Shard(contents, Waiting)])
    ensures Evolves(groups[gid], g') && HoldsOk(configs, gid, g', s) && ShardOk(configs, groups', contents, s)
  {
    var g := groups[gid];
    assert SlotOk(configs, groups, contents, gid, s);
    PassedStays(configs, groups, gid, g', g.Num(), s);
    forall n: nat | 1 <= n && Owner(configs, n, s) == gid
      ensures Kept(configs, groups', n, s)
    {
      assert Kept(configs, groups, n, s);
    }
    GroupMoves(configs, groups, contents, gid, g', groups', s);
  }

  // ---------- The next configuration ----------

  ghost predicate Advances(configs: Configs, gid: int, g: Group, g': Group) {
    && g.AllWorking()
    && g' == g.(prevConfig := g.currConfig, currConfig := configs(g.Num() + 1),
                shards := Update(gid, g.shards, configs(g.Num() + 1)))
  }

  lemma AdvanceHolds(configs: Configs, gid: int, g: Group, g': Group, s: ShardId)
    requires GoodConfigs(configs) && gid != 0 && ViewOk(configs, g) && HoldsOk(configs, gid, g, s) &&
             Advances(configs, gid, g, g')
    ensures Evolves(g, g') && HoldsOk(configs, gid, g', s)
  {
  }

  lemma AdvanceSlot(configs: Configs, groups: Groups, contents: Storage, gid: int, g': Group, groups': Groups,
                    s: ShardId)
    requires GoodConfigs(configs) && gid != 0 && gid in groups && ViewOk(configs, groups[gid])
    requires ShardOk(configs, groups, contents, s) && groups' == groups[gid := g'] &&
             Advances(configs, gid, groups[gid], g')
    ensures SlotOk(configs, groups', contents, gid, s)
  {
    var g := groups[gid];
    assert SlotOk(configs, groups, contents, gid, s);
    AdvanceHolds(configs, gid, g, g', s);
    if s in g'.shards && g'.shards[s].status != Pulling {
      assert g.Num() >= 1 ==> s in g.shards;
      if g.Num() >= 1 {
        PassedStays(configs, groups, gid, g', g.Num(), s);
        assert GonePast(configs, groups', g.Num(), s);
      }
    }
  }

  lemma AdvanceKept(configs: Configs, groups: Groups, contents: Storage, gid: int, g': Group, groups': Groups,
                    s: ShardId, n: nat)
    requires GoodConfigs(configs) && gid != 0 && gid in groups && ViewOk(configs, groups[gid])
    requires ShardOk(configs, groups, contents, s) && groups' == groups[gid := g'] &&
             Advances(configs, gid, groups[gid], g')
    requires 1 <= n && Owner(configs, n, s) == gid
    ensures Kept(configs, groups', n, s)
  {
    var g := groups[gid];
    assert SlotOk(configs, groups, contents, gid, s) && Kept(configs, groups, n, s);
    AdvanceHolds(configs, gid, g, g', s);
    if n < g.Num() {
      InstalledStays(configs, groups, gid, g', n + 1, s);
    }
  }

  lemma AdvanceShard(configs: Configs, groups: Groups, contents: Storage, gid: int, g': Group, groups': Groups,
                     s: ShardId)
    requires GoodConfigs(configs) && gid != 0 && gid in groups && ViewOk(configs, groups[gid])
    requires ShardOk(configs, groups, contents, s) && groups' == groups[gid := g'] &&
             Advances(configs, gid, groups[gid], g')
    ensures Evolves(groups[gid], g') && HoldsOk(configs, gid, g', s) && ShardOk(configs, groups', contents, s)
  {
    assert SlotOk(configs, groups, contents, gid, s);
    AdvanceHolds(configs, gid, groups[gid], g', s);
    AdvanceSlot(configs, groups, contents, gid, g', groups', s);
    forall n: nat | 1 <= n && Owner(configs, n, s) == gid
      ensures Kept(configs, groups', n, s)
    {
      AdvanceKept(configs, groups, contents, gid, g', groups', s, n);
    }
    GroupMoves(configs, groups, contents, gid, g', groups', s);
  }

  // ---------- A write ----------

  // Whoever else has the shard's latest contents waiting would be in its way.
  lemma WriteShard(configs: Configs, groups: Groups, contents: Storage, gid: int, g': Group, groups': Groups,
                   contents': Storage, s: ShardId)
    requires ShardOk(configs, groups, contents, s) && gid in groups && groups' == groups[gid := g']
    requires var g := groups[gid];
             && g.Serves(s) && g'.prevConfig == g.prevConfig && g'.currConfig == g.currConfig
             && g'.shards == g.shards[s := g.shards[s].(storage := contents')]
    ensures Evolves(groups[gid], g') && HoldsOk(configs, gid, g', s) && ShardOk(configs, groups', contents', s)
  {
    var g := groups[gid];
    assert SlotOk(configs, groups, contents, gid, s);
    PassedStays(configs, groups, gid, g', g.Num(), s);
    forall i | i in groups'
      ensures SlotOk(configs, groups', contents', i, s)
    {
      if i != gid {
        WriteOther(configs, groups, contents, gid, g', groups', contents', s, i);
      }
    }
    forall n: nat | 1 <= n
      ensures Kept(configs, groups', n, s)
    {
      assert Kept(configs, groups, n, s);
    }
    assert g.Num() > 1 ==> GonePast(configs, groups, 1, s);
  }

  lemma WriteOther(configs: Configs, groups: Groups, contents: Storage, gid: int, g': Group, groups': Groups,
                   contents': Storage, s: ShardId, i: int)
    requires ShardOk(configs, groups, contents, s) && gid in groups && groups' == groups[gid := g'] && i in groups &&
             i != gid
    requires Moves(configs, groups, gid, g', s) && groups[gid].Serves(s)
    ensures SlotOk(configs, groups', contents', i, s)
  {
    var g := groups[i];
    assert SlotOk(configs, groups, contents, i, s);
    if s in g.shards && g.shards[s].status != Pulling {
      PassedStays(configs, groups, gid, g', g.Num(), s);
      NobodyWaits(configs, groups, contents, gid, g.Num(), s);
      InstalledStays(configs, groups, gid, g', g.Num(), s);
      if g.shards[s].status != Leaving {
        OnlyOneServes(configs, groups, contents, gid, i, s);
      }
    }
  }
}
