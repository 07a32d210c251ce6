/**
  The key/value servers on top of Raft: each works off what its Raft server hands it, takes snapshots
  and restarts from them.
 */
module RaftService {
  import opened RaftServer
  import opened RaftCluster
  import opened RaftInvariant
  import opened RaftSafety
  import Kv = KvServer
  import Agreement = KvAgreement

  // What has been handed over and not yet worked off, the key/value server, and its last snapshot.
  datatype Service = Service(inbox: seq<ApplyMsg>, kv: Kv.Server, saved: Kv.Image)

  datatype System = System(actions: seq<Action>, services: seq<Service>)

  datatype Step =
    | Raft(action: Action)
    | Process(i: nat)
    | Snapshot(i: nat)

  // What a command means.
  type Decoder = string -> Kv.Op

  ghost predicate IsSystem(n: nat, x: System) {
    IsRun(n, x.actions) && |x.services| == |After(n, x.actions).servers| == n
  }

  ghost predicate CanStep(n: nat, x: System, step: Step)
    requires IsSystem(n, x)
  {
    var c := After(n, x.actions);
    match step
    case Raft(a) => !a.TakeSnapshot? && Enabled(c, a) && Safe(c, a)
    case Process(i) => i < n && x.services[i].inbox != []
    case Snapshot(i) => i < n && WellFormed(c.servers[i])
  }

  // The entries after lastApplied up to the commit index, in order.
  ghost function Batch(s: Server, i: nat): seq<ApplyMsg>
    requires s.lastApplied <= s.commitIndex < |s.log|
  {
    seq(s.commitIndex - s.lastApplied,
        k requires 0 <= k < s.commitIndex - s.lastApplied =>
          ApplyMsg(i, s.lastApplied + 1 + k, s.log[s.lastApplied + 1 + k].command))
  }

  ghost function AfterAction(s: Server, v: Service, a: Action): Service
    requires a.Apply? ==> s.lastApplied <= s.commitIndex < |s.log|
  {
    match a
    case Apply(i) => v.(inbox := v.inbox + Batch(s, i))
    case CrashRestart(_) => Service([], Kv.Install(Kv.NEW_SERVER, v.saved), v.saved)
    case _ => v
  }

  ghost function Worked(decode: Decoder, v: Service): Service
    requires v.inbox != []
  {
    var m := v.inbox[0];
    v.(inbox := v.inbox[1..], kv := Kv.Deliver(v.kv, Kv.Command(m.index, decode(m.command))))
  }

  // Raft takes the snapshot, or leaves everything as it is.
  ghost function Snapshotted(s: Server, v: Service): Service {
    var index := v.kv.latestAppliedRaftIndex;
    if OnSnapshot(s, index) == s then v else v.(saved := Kv.Serialize(v.kv))
  }

  ghost function NextSystem(decode: Decoder, n: nat, x: System, step: Step): System
    requires IsSystem(n, x) && CanStep(n, x, step)
  {
    var c := After(n, x.actions);
    match step
    case Raft(a) =>
      var i := Actor(a);
      System(x.actions + [a], x.services[i := AfterAction(c.servers[i], x.services[i], a)])
    case Process(i) => x.(services := x.services[i := Worked(decode, x.services[i])])
    case Snapshot(i) =>
      System(x.actions + [TakeSnapshot(i, x.services[i].kv.latestAppliedRaftIndex)],
             x.services[i := Snapshotted(c.servers[i], x.services[i])])
  }

  ghost function Begin(n: nat): System {
    System([], seq(n, _ => Service([], Kv.NEW_SERVER, Kv.NoImage)))
  }

  ghost predicate IsSystemRun(decode: Decoder, n: nat, steps: seq<Step>)
    decreases |steps|, 0
  {
    || steps == []
    || (IsSystemRun(decode, n, steps[..|steps| - 1]) &&
        var x := SystemAfter(decode, n, steps[..|steps| - 1]);
        IsSystem(n, x) && CanStep(n, x, steps[|steps| - 1]))
  }

  ghost function SystemAfter(decode: Decoder, n: nat, steps: seq<Step>): System
    requires IsSystemRun(decode, n, steps)
    decreases |steps|, 1
  {
    if steps == [] then Begin(n)
    else NextSystem(decode, n, SystemAfter(decode, n, steps[..|steps| - 1]), steps[|steps| - 1])
  }

  // ---------- What every run keeps ----------

  // What the entries of a log ask of the key/value server.
  ghost function Ops(decode: Decoder, log: seq<Entry>): (ops: seq<Kv.Op>)
    requires |log| >= 1
    ensures |ops| == |log| - 1 && forall k: nat :: k < |ops| ==> ops[k] == decode(log[k + 1].command)
  {
    seq(|log| - 1, k requires 0 <= k < |log| - 1 => decode(log[k + 1].command))
  }

  // The next messages are the log's next entries, without a gap.
  ghost predicate InOrder(i: nat, log: seq<Entry>, from: nat, inbox: seq<ApplyMsg>) {
    && from + |inbox| < |log|
    && forall k: nat :: k < |inbox| ==> inbox[k] == ApplyMsg(i, from + 1 + k, log[from + 1 + k].command)
  }

  ghost predicate ServiceOk(decode: Decoder, i: nat, s: Server, v: Service) {
    && |s.log| >= 1
    && Kv.InStep(Ops(decode, s.log), v.kv)
    && v.kv.latestAppliedRaftIndex + |v.inbox| == s.lastApplied
    && InOrder(i, s.log, v.kv.latestAppliedRaftIndex, v.inbox)
    && Kv.TakenFrom(Ops(decode, s.log), v.saved)
    && s.base == (if v.saved.Image? then v.saved.latestAppliedRaftIndex else 0) <= s.lastApplied
  }

  ghost predicate SystemOk(decode: Decoder, n: nat, x: System) {
    && IsSystem(n, x)
    && forall i: nat :: i < n ==> ServiceOk(decode, i, After(n, x.actions).servers[i], x.services[i])
  }

  // The logs are the same up to k.
  ghost predicate SameUpTo(a: seq<Entry>, b: seq<Entry>, k: nat) {
    k < |a| && k < |b| && a[..k + 1] == b[..k + 1]
  }

  lemma SameOps(decode: Decoder, a: seq<Entry>, b: seq<Entry>, k: nat)
    requires SameUpTo(a, b, k)
    ensures Ops(decode, a)[..k] == Ops(decode, b)[..k]
  {
    var p, q := Ops(decode, a), Ops(decode, b);
    forall j: nat | j < k
      ensures p[j] == q[j]
    {
      assert a[..k + 1][j + 1] == b[..k + 1][j + 1];
    }
  }

  // A service only depends on the applied part of its log.
  lemma LogMayGrow(decode: Decoder, i: nat, s: Server, s': Server, v: Service)
    requires ServiceOk(decode, i, s, v) && SameUpTo(s.log, s'.log, s.lastApplied)
    requires s'.lastApplied == s.lastApplied && s'.base == s.base
    ensures ServiceOk(decode, i, s', v)
  {
    SameOps(decode, s.log, s'.log, s.lastApplied);
    var p, q, k := Ops(decode, s.log), Ops(decode, s'.log), s.lastApplied;
    assert forall m: nat :: m <= k ==> p[..m] == p[..k][..m] && q[..m] == q[..k][..m];
    forall m: nat | m < |v.inbox|
      ensures v.inbox[m].command == s'.log[v.kv.latestAppliedRaftIndex + 1 + m].command
    {
      var j := v.kv.latestAppliedRaftIndex + 1 + m;
      assert s.log[..k + 1][j] == s'.log[..k + 1][j];
    }
  }

  // ---------- Raft's actions ----------

  ghost predicate Touches(a: Action) {
    a.Apply? || a.CrashRestart? || a.TakeSnapshot?
  }

  // What is applied stays applied, and its entries stay where they are.
  lemma AppliedStays(n: nat, actions: seq<Action>, a: Action)
    requires IsRun(n, actions) && Enabled(After(n, actions), a) && Safe(After(n, actions), a) && !Touches(a)
    ensures var c := After(n, actions);
            var s, s' := c.servers[Actor(a)], Next(c, a);
            s'.lastApplied == s.lastApplied && s'.base == s.base && SameUpTo(s.log, s'.log, s.lastApplied)
  {
    var c := After(n, actions);
    var s := c.servers[Actor(a)];
    RunInvariant(n, actions);
    assert ServerOk(n, Past(n, actions), Actor(a), s);
    if a.DeliverAppend? {
      AppendCommitsWhatItCarries(n, actions, a.i, a.args);
      AppendStays(s, a.args);
    } else {
      OthersStay(c, a);
    }
  }

  lemma AppendShape(s: Server, args: AppendArgs)
    requires WellFormed(s)
    ensures var r := OnAppendEntries(s, args);
            r.server.lastApplied == s.lastApplied && r.server.base == s.base && (!r.success ==> r.server.log == s.log)
  {
  }

  lemma AppendStays(s: Server, args: AppendArgs)
    requires WellFormed(s) && s.lastApplied <= s.commitIndex < |s.log|
    requires var r := OnAppendEntries(s, args); r.success ==> CommitsWithin(s, r.server, args)
    ensures var s' := OnAppendEntries(s, args).server;
            s'.lastApplied == s.lastApplied && s'.base == s.base && SameUpTo(s.log, s'.log, s.lastApplied)
  {
    AppendShape(s, args);
    if OnAppendEntries(s, args).success {
      SameUpToLess(s.log, OnAppendEntries(s, args).server.log, s.commitIndex, s.lastApplied);
    }
  }

  lemma SameUpToLess(a: seq<Entry>, b: seq<Entry>, k: nat, j: nat)
    requires SameUpTo(a, b, k) && j <= k
    ensures SameUpTo(a, b, j)
  {
    assert a[..j + 1] == a[..k + 1][..j + 1] && b[..j + 1] == b[..k + 1][..j + 1];
  }

  lemma OthersStay(c: Cluster, a: Action)
    requires Enabled(c, a) && Safe(c, a) && !Touches(a) && !a.DeliverAppend?
    requires c.servers[Actor(a)].lastApplied < |c.servers[Actor(a)].log|
    ensures var s, s' := c.servers[Actor(a)], Next(c, a);
            s'.lastApplied == s.lastApplied && s'.base == s.base && SameUpTo(s.log, s'.log, s.lastApplied)
  {
  }

  lemma ApplyOk(decode: Decoder, i: nat, s: Server, v: Service)
    requires ServiceOk(decode, i, s, v) && s.lastApplied <= s.commitIndex < |s.log|
    ensures ServiceOk(decode, i, s.(lastApplied := s.commitIndex), v.(inbox := v.inbox + Batch(s, i)))
  {
  }

  lemma RestartOk(decode: Decoder, i: nat, s: Server, v: Service)
    requires ServiceOk(decode, i, s, v) && s.disk == RaftServer.Saved(s.term, s.votedFor, s.base, s.log)
    ensures ServiceOk(decode, i, Restart(s), AfterAction(s, v, CrashRestart(i)))
  {
    assert Ops(decode, s.log)[..0] == [];
  }

  lemma ProcessOk(decode: Decoder, i: nat, s: Server, v: Service)
    requires ServiceOk(decode, i, s, v) && v.inbox != []
    ensures ServiceOk(decode, i, s, Worked(decode, v))
  {
    var m := v.inbox[0];
    Kv.DeliverInStep(Ops(decode, s.log), v.kv, Kv.Command(m.index, decode(m.command)));
  }

  lemma SnapshotOk(decode: Decoder, i: nat, s: Server, v: Service)
    requires ServiceOk(decode, i, s, v)
    ensures ServiceOk(decode, i, OnSnapshot(s, v.kv.latestAppliedRaftIndex), Snapshotted(s, v))
  {
    Kv.SnapshotsCome(Ops(decode, s.log), v.kv, v.kv, 0);
  }

  // ---------- Runs ----------

  lemma TouchedOk(decode: Decoder, n: nat, x: System, a: Action)
    requires SystemOk(decode, n, x) && CanStep(n, x, Raft(a)) && Touches(a)
    ensures var c, i := After(n, x.actions), Actor(a);
            i < n && ServiceOk(decode, i, Next(c, a), AfterAction(c.servers[i], x.services[i], a))
  {
    var c, i := After(n, x.actions), Actor(a);
    var s, v := c.servers[i], x.services[i];
    assert ServiceOk(decode, i, s, v);
    if a.Apply? {
      ApplyOk(decode, i, s, v);
    } else {
      DiskIsCurrent(n, x.actions, i);
      RestartOk(decode, i, s, v);
    }
  }

  lemma UntouchedOk(decode: Decoder, n: nat, x: System, a: Action)
    requires SystemOk(decode, n, x) && CanStep(n, x, Raft(a)) && !Touches(a)
    ensures var c, i := After(n, x.actions), Actor(a);
            i < n && ServiceOk(decode, i, Next(c, a), x.services[i])
  {
    var c, i := After(n, x.actions), Actor(a);
    assert ServiceOk(decode, i, c.servers[i], x.services[i]);
    AppliedStays(n, x.actions, a);
    LogMayGrow(decode, i, c.servers[i], Next(c, a), x.services[i]);
  }

  lemma OneMore(n: nat, actions: seq<Action>, a: Action)
    requires IsRun(n, actions) && Enabled(After(n, actions), a) && Safe(After(n, actions), a)
    ensures IsRun(n, actions + [a]) && After(n, actions + [a]) == Do(After(n, actions), a)
  {
    assert (actions + [a])[..|actions|] == actions;
  }

  // One server and its service have moved together.
  lemma Moved(decode: Decoder, n: nat, x: System, a: Action, v: Service)
    requires SystemOk(decode, n, x) && Enabled(After(n, x.actions), a) && Safe(After(n, x.actions), a)
    requires Actor(a) < n && ServiceOk(decode, Actor(a), Next(After(n, x.actions), a), v)
    ensures SystemOk(decode, n, System(x.actions + [a], x.services[Actor(a) := v]))
  {
    OneMore(n, x.actions, a);
    var c, c', i := After(n, x.actions), After(n, x.actions + [a]), Actor(a);
    forall j: nat | j < n
      ensures ServiceOk(decode, j, c'.servers[j], x.services[i := v][j])
    {
      assert j != i ==> ServiceOk(decode, j, c.servers[j], x.services[j]);
    }
  }

  lemma RaftStepKeeps(decode: Decoder, n: nat, x: System, a: Action)
    requires SystemOk(decode, n, x) && CanStep(n, x, Raft(a))
    ensures SystemOk(decode, n, NextSystem(decode, n, x, Raft(a)))
  {
    var c, i := After(n, x.actions), Actor(a);
    if Touches(a) {
      TouchedOk(decode, n, x, a);
    } else {
      UntouchedOk(decode, n, x, a);
    }
    Moved(decode, n, x, a, AfterAction(c.servers[i], x.services[i], a));
  }

  lemma SnapshotStepKeeps(decode: Decoder, n: nat, x: System, i: nat)
    requires SystemOk(decode, n, x) && CanStep(n, x, Snapshot(i))
    ensures SystemOk(decode, n, NextSystem(decode, n, x, Snapshot(i)))
  {
    var s, v := After(n, x.actions).servers[i], x.services[i];
    SnapshotOk(decode, i, s, v);
    Moved(decode, n, x, TakeSnapshot(i, v.kv.latestAppliedRaftIndex), Snapshotted(s, v));
  }

  lemma StepKeeps(decode: Decoder, n: nat, x: System, step: Step)
    requires SystemOk(decode, n, x) && CanStep(n, x, step)
    ensures SystemOk(decode, n, NextSystem(decode, n, x, step))
  {
    match step
    case Raft(a) => RaftStepKeeps(decode, n, x, a);
    case Process(i) => ProcessOk(decode, i, After(n, x.actions).servers[i], x.services[i]);
    case Snapshot(i) => SnapshotStepKeeps(decode, n, x, i);
  }

  /**
    Whatever Raft and the services do, every service's state is what its server's log up to the last
    index it has applied means, and what it gets next continues from there without a gap.
   */
  lemma {:induction false} ServicesInStep(decode: Decoder, n: nat, steps: seq<Step>)
    requires IsSystemRun(decode, n, steps)
    ensures SystemOk(decode, n, SystemAfter(decode, n, steps))
    decreases |steps|
  {
    if steps == [] {
      forall i: nat | i < n
        ensures ServiceOk(decode, i, Init(n).servers[i], Begin(n).services[i])
      {
        assert Ops(decode, [GENESIS])[..0] == [];
      }
    } else {
      ServicesInStep(decode, n, steps[..|steps| - 1]);
      StepKeeps(decode, n, SystemAfter(decode, n, steps[..|steps| - 1]), steps[|steps| - 1]);
    }
  }

  lemma StepGrows(decode: Decoder, n: nat, x: System, step: Step)
    requires IsSystem(n, x) && CanStep(n, x, step)
    ensures x.actions <= NextSystem(decode, n, x, step).actions
  {
  }

  lemma Longer(a: seq<Action>, b: seq<Action>, c: seq<Action>)
    requires a <= b <= c
    ensures a <= c
  {
  }

  // The actions of Raft up to an earlier moment are the first of those up to now.
  lemma {:induction false} ActionsGrow(decode: Decoder, n: nat, steps: seq<Step>, m: nat)
    requires IsSystemRun(decode, n, steps) && m <= |steps|
    ensures IsSystemRun(decode, n, steps[..m])
    ensures SystemAfter(decode, n, steps[..m]).actions <= SystemAfter(decode, n, steps).actions
    decreases |steps|
  {
    if m == |steps| {
      assert steps[..m] == steps;
    } else {
      var before, last := steps[..|steps| - 1], steps[|steps| - 1];
      ActionsGrow(decode, n, before, m);
      assert before[..m] == steps[..m];
      var x := SystemAfter(decode, n, before);
      StepGrows(decode, n, x, last);
      Longer(SystemAfter(decode, n, steps[..m]).actions, x.actions, NextSystem(decode, n, x, last).actions);
    }
  }

  lemma AppliedIsCommitted(n: nat, actions: seq<Action>, i: nat)
    requires IsRun(n, actions) && i < |After(n, actions).servers|
    ensures var s := After(n, actions).servers[i];
            s.lastApplied <= s.commitIndex < |s.log| && s.log[0] == GENESIS
  {
    RunInvariant(n, actions);
    assert ServerOk(n, Past(n, actions), i, After(n, actions).servers[i]);
  }

  // Two logs of a run agree on what both have applied.
  lemma AppliedAgree(n: nat, actions: seq<Action>, m1: nat, m2: nat, i: nat, j: nat, k: nat)
    requires IsRun(n, actions) && m1 <= |actions| && m2 <= |actions|
    requires IsRun(n, actions[..m1]) && IsRun(n, actions[..m2])
    requires i < |After(n, actions[..m1]).servers| && j < |After(n, actions[..m2]).servers|
    requires k <= After(n, actions[..m1]).servers[i].lastApplied && k <= After(n, actions[..m2]).servers[j].lastApplied
    ensures SameUpTo(After(n, actions[..m1]).servers[i].log, After(n, actions[..m2]).servers[j].log, k)
  {
    var s, t := After(n, actions[..m1]).servers[i], After(n, actions[..m2]).servers[j];
    AppliedIsCommitted(n, actions[..m1], i);
    AppliedIsCommitted(n, actions[..m2], j);
    forall l: nat | l <= k
      ensures s.log[l] == t.log[l]
    {
      if l > 0 {
        CommittedEntriesAgree(n, actions, m1, m2, i, j, l);
      }
    }
  }

  /**
    Key/value servers on top of Raft that have applied equally much, now or at different times, have
    the same storage and the same table of requests, through crashes, restarts and snapshots.
   */
  lemma ServicesAgree(decode: Decoder, n: nat, steps: seq<Step>, m1: nat, m2: nat, i: nat, j: nat)
    requires IsSystemRun(decode, n, steps) && m1 <= |steps| && m2 <= |steps| && i < n && j < n
    ensures IsSystemRun(decode, n, steps[..m1]) && IsSystemRun(decode, n, steps[..m2])
    ensures var x, y := SystemAfter(decode, n, steps[..m1]), SystemAfter(decode, n, steps[..m2]);
            && i < |x.services| && j < |y.services|
            && var s, t := x.services[i].kv, y.services[j].kv;
               s.latestAppliedRaftIndex == t.latestAppliedRaftIndex ==> s == t
  {
    ActionsGrow(decode, n, steps, m1);
    ActionsGrow(decode, n, steps, m2);
    ServicesInStep(decode, n, steps[..m1]);
    ServicesInStep(decode, n, steps[..m2]);
    ServicesInStep(decode, n, steps);
    var x, y := SystemAfter(decode, n, steps[..m1]), SystemAfter(decode, n, steps[..m2]);
    if x.services[i].kv.latestAppliedRaftIndex == y.services[j].kv.latestAppliedRaftIndex {
      SameServices(decode, n, x, y, SystemAfter(decode, n, steps).actions, i, j);
    }
  }

  lemma SameServices(decode: Decoder, n: nat, x: System, y: System, actions: seq<Action>, i: nat, j: nat)
    requires SystemOk(decode, n, x) && SystemOk(decode, n, y) && i < n && j < n
    requires IsRun(n, actions) && x.actions <= actions && y.actions <= actions
    requires x.services[i].kv.latestAppliedRaftIndex == y.services[j].kv.latestAppliedRaftIndex
    ensures x.services[i].kv == y.services[j].kv
  {
    var s, t := After(n, x.actions).servers[i], After(n, y.actions).servers[j];
    var k := x.services[i].kv.latestAppliedRaftIndex;
    assert ServiceOk(decode, i, s, x.services[i]) && ServiceOk(decode, j, t, y.services[j]);
    assert actions[..|x.actions|] == x.actions && actions[..|y.actions|] == y.actions;
    AppliedAgree(n, actions, |x.actions|, |y.actions|, i, j, k);
    SameOps(decode, s.log, t.log, k);
  }

  /**
    For every key, the reads and effective writes that Raft's log has asked of a server so far are, with
    their answers, what the sequential model allows, and the server stores what the model ends with.
   */
  lemma ServicesFollowModel(decode: Decoder, n: nat, steps: seq<Step>, i: nat, key: string)
    requires IsSystemRun(decode, n, steps) && i < n
    ensures var x := SystemAfter(decode, n, steps);
            && IsSystem(n, x) && |After(n, x.actions).servers[i].log| >= 1
            && var ops, kv := Ops(decode, After(n, x.actions).servers[i].log), x.services[i].kv;
            && kv.latestAppliedRaftIndex <= |ops|
            && Agreement.ModelState(Agreement.ServedBy(ops[..kv.latestAppliedRaftIndex]), key) ==
               (true, Agreement.ValueOf(kv.state.storage, key))
  {
    ServicesInStep(decode, n, steps);
    var x := SystemAfter(decode, n, steps);
    assert ServiceOk(decode, i, After(n, x.actions).servers[i], x.services[i]);
    var ops := Ops(decode, After(n, x.actions).servers[i].log);
    Agreement.LogFollowsModel(ops[..x.services[i].kv.latestAppliedRaftIndex], key);
  }
}
