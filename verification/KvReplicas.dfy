/**
  Several key/value servers on one growing log, which hand each other snapshots taken at any time and
  restart from the last one they kept.
 */
module KvReplicas {
  import opened KvServer

  datatype Replicas = Replicas(
    log: seq<Op>,
    servers: seq<Server>,
    // What each server would restart from.
    kept: seq<Image>,
    // Every snapshot ever taken.
    images: set<Image>)

  datatype Action =
    | Commit(op: Op)
    | Hand(i: nat, index: nat)
    | TakeSnapshot(i: nat)
    | Keep(i: nat, image: Image)
    | HandSnapshot(i: nat, snapshotIndex: nat, image: Image)
    | Restart(i: nat)

  ghost function Init(n: nat): Replicas {
    Replicas([], seq(n, _ => NEW_SERVER), seq(n, _ => NoImage), {})
  }

  ghost predicate Shaped(r: Replicas, n: nat) {
    |r.servers| == |r.kept| == n
  }

  // The log hands a server its commands one after another, possibly from an earlier one on.
  ghost predicate Possible(r: Replicas, a: Action)
    requires |r.servers| == |r.kept|
  {
    match a
    case Commit(_) => true
    case Hand(i, index) =>
      i < |r.servers| && 0 < index <= |r.log| && index <= r.servers[i].latestAppliedRaftIndex + 1
    case TakeSnapshot(i) => i < |r.servers|
    case Keep(i, image) => i < |r.servers| && image in r.images
    case HandSnapshot(i, _, image) => i < |r.servers| && image in r.images
    case Restart(i) => i < |r.servers|
  }

  ghost function Next(r: Replicas, a: Action): (r': Replicas)
    requires |r.servers| == |r.kept| && Possible(r, a)
    ensures Shaped(r', |r.servers|)
  {
    match a
    case Commit(op) => r.(log := r.log + [op])
    case Hand(i, index) => r.(servers := r.servers[i := Deliver(r.servers[i], Command(index, r.log[index - 1]))])
    case TakeSnapshot(i) =>
      var image := Serialize(r.servers[i]);
      r.(kept := r.kept[i := image], images := r.images + {image})
    case Keep(i, image) => r.(kept := r.kept[i := image])
    case HandSnapshot(i, snapshotIndex, image) =>
      r.(servers := r.servers[i := Deliver(r.servers[i], Snapshot(snapshotIndex, image))])
    case Restart(i) => r.(servers := r.servers[i := Install(NEW_SERVER, r.kept[i])])
  }

  ghost predicate IsRun(n: nat, actions: seq<Action>)
    decreases |actions|, 0
  {
    || actions == []
    || (IsRun(n, actions[..|actions| - 1]) && Possible(After(n, actions[..|actions| - 1]), actions[|actions| - 1]))
  }

  ghost function After(n: nat, actions: seq<Action>): (r: Replicas)
    requires IsRun(n, actions)
    ensures Shaped(r, n)
    decreases |actions|, 1
  {
    if actions == [] then Init(n)
    else Next(After(n, actions[..|actions| - 1]), actions[|actions| - 1])
  }

  // ---------- Agreement ----------

  ghost predicate AllInStep(r: Replicas) {
    && (forall i: nat :: i < |r.servers| ==> InStep(r.log, r.servers[i]))
    && (forall i: nat :: i < |r.kept| ==> TakenFrom(r.log, r.kept[i]))
    && (forall image :: image in r.images ==> TakenFrom(r.log, image))
  }

  lemma StillTaken(log: seq<Op>, op: Op, image: Image)
    requires TakenFrom(log, image)
    ensures TakenFrom(log + [op], image)
  {
    if image.Image? {
      assert (log + [op])[..image.latestAppliedRaftIndex] == log[..image.latestAppliedRaftIndex];
    }
  }

  lemma StillInStep(log: seq<Op>, op: Op, s: Server)
    requires InStep(log, s)
    ensures InStep(log + [op], s)
  {
    assert (log + [op])[..s.latestAppliedRaftIndex] == log[..s.latestAppliedRaftIndex];
  }

  lemma CommitKeeps(r: Replicas, op: Op)
    requires AllInStep(r)
    ensures AllInStep(r.(log := r.log + [op]))
  {
    forall i: nat | i < |r.servers| ensures InStep(r.log + [op], r.servers[i]) {
      StillInStep(r.log, op, r.servers[i]);
    }
    forall i: nat | i < |r.kept| ensures TakenFrom(r.log + [op], r.kept[i]) {
      StillTaken(r.log, op, r.kept[i]);
    }
    forall image | image in r.images ensures TakenFrom(r.log + [op], image) {
      StillTaken(r.log, op, image);
    }
  }

  lemma StepKeeps(r: Replicas, a: Action)
    requires |r.servers| == |r.kept| && Possible(r, a) && AllInStep(r)
    ensures AllInStep(Next(r, a))
  {
    match a
    case Commit(op) => CommitKeeps(r, op);
    case Hand(i, index) => DeliverInStep(r.log, r.servers[i], Command(index, r.log[index - 1]));
    case TakeSnapshot(i) => SnapshotsCome(r.log, r.servers[i], NEW_SERVER, 0);
    case Keep(i, image) =>
    case HandSnapshot(i, snapshotIndex, image) => DeliverInStep(r.log, r.servers[i], Snapshot(snapshotIndex, image));
    case Restart(i) =>
  }

  /** Whatever is handed over, kept and restarted from, every server's state is a prefix of the log. */
  lemma {:induction false} ReplicasInStep(n: nat, actions: seq<Action>)
    requires IsRun(n, actions)
    ensures AllInStep(After(n, actions))
    decreases |actions|
  {
    if actions != [] {
      ReplicasInStep(n, actions[..|actions| - 1]);
      StepKeeps(After(n, actions[..|actions| - 1]), actions[|actions| - 1]);
    }
  }

  lemma {:induction false} LogNeverChanges(n: nat, actions: seq<Action>, k: nat)
    requires IsRun(n, actions) && k <= |actions|
    ensures IsRun(n, actions[..k]) && After(n, actions[..k]).log <= After(n, actions).log
    decreases |actions|
  {
    if k == |actions| {
      assert actions[..k] == actions;
    } else {
      LogNeverChanges(n, actions[..|actions| - 1], k);
      assert actions[..|actions| - 1][..k] == actions[..k];
    }
  }

  /**
    Servers that have applied as much as each other, now or at different times, are the same, by
    whatever commands, snapshots and restarts they got there.
   */
  lemma AgreeForever(n: nat, actions: seq<Action>, k: nat, i: nat, j: nat)
    requires IsRun(n, actions) && k <= |actions| && i < n && j < n
    ensures IsRun(n, actions[..k])
    ensures var s, t := After(n, actions[..k]).servers[i], After(n, actions).servers[j];
            s.latestAppliedRaftIndex == t.latestAppliedRaftIndex ==> s == t
  {
    LogNeverChanges(n, actions, k);
    ReplicasInStep(n, actions[..k]);
    ReplicasInStep(n, actions);
    var earlier, now := After(n, actions[..k]), After(n, actions);
    var s, t := earlier.servers[i], now.servers[j];
    assert InStep(earlier.log, s) && InStep(now.log, t);
    if s.latestAppliedRaftIndex == t.latestAppliedRaftIndex {
      assert earlier.log[..s.latestAppliedRaftIndex] == now.log[..t.latestAppliedRaftIndex];
    }
  }

  // ---------- Never back ----------

  // What server i is handed by these actions.
  ghost function HandedTo(n: nat, actions: seq<Action>, k: nat, i: nat): seq<ApplyMsg>
    requires IsRun(n, actions) && k <= |actions|
    decreases |actions|
  {
    if k == |actions| then []
    else
      var before, a := actions[..|actions| - 1], actions[|actions| - 1];
      HandedTo(n, before, k, i) +
        match a
        case Hand(j, index) => if i == j then [Command(index, After(n, before).log[index - 1])] else []
        case HandSnapshot(j, snapshotIndex, image) => if i == j then [Snapshot(snapshotIndex, image)] else []
        case _ => []
  }

  // Server i is not restarted from action k on, and is handed snapshots with the index they were taken at.
  ghost predicate Undisturbed(actions: seq<Action>, k: nat, i: nat) {
    forall m: nat :: k <= m < |actions| ==>
      && actions[m] != Restart(i)
      && (actions[m].HandSnapshot? && actions[m].i == i ==>
            actions[m].image.Image? && actions[m].image.latestAppliedRaftIndex == actions[m].snapshotIndex)
  }

  /**
    Between restarts a server has applied exactly up to the highest index it was handed or had applied
    before: it never falls back, and leaves out nothing it is handed.
   */
  lemma {:induction false} NeverBack(n: nat, actions: seq<Action>, k: nat, i: nat)
    requires IsRun(n, actions) && k <= |actions| && i < n && Undisturbed(actions, k, i)
    ensures IsRun(n, actions[..k])
    ensures IsHighest(After(n, actions[..k]).servers[i].latestAppliedRaftIndex, HandedTo(n, actions, k, i),
                      After(n, actions).servers[i].latestAppliedRaftIndex)
    decreases |actions|
  {
    if k == |actions| {
      assert actions[..k] == actions;
    } else {
      var before, a := actions[..|actions| - 1], actions[|actions| - 1];
      NeverBack(n, before, k, i);
      assert before[..k] == actions[..k];
      var from := After(n, actions[..k]).servers[i].latestAppliedRaftIndex;
      StepReaches(n, before, a, k, i, from);
    }
  }

  lemma StepReaches(n: nat, before: seq<Action>, a: Action, k: nat, i: nat, from: nat)
    requires IsRun(n, before + [a]) && IsRun(n, before) && k <= |before| && i < n && Possible(After(n, before), a)
    requires a != Restart(i)
    requires a.HandSnapshot? && a.i == i ==> a.image.Image? && a.image.latestAppliedRaftIndex == a.snapshotIndex
    requires IsHighest(from, HandedTo(n, before, k, i), After(n, before).servers[i].latestAppliedRaftIndex)
    ensures IsHighest(from, HandedTo(n, before + [a], k, i), After(n, before + [a]).servers[i].latestAppliedRaftIndex)
  {
    var all, handed := before + [a], HandedTo(n, before, k, i);
    assert all[..|before|] == before;
    var s, s' := After(n, before).servers[i], After(n, all).servers[i];
    if (a.Hand? || a.HandSnapshot?) && a.i == i {
      var msg := if a.Hand? then Command(a.index, After(n, before).log[a.index - 1])
                 else Snapshot(a.snapshotIndex, a.image);
      assert HandedTo(n, all, k, i) == handed + [msg] && s' == Deliver(s, msg);
      DeliverReaches(s, msg);
      assert (handed + [msg])[..|handed|] == handed;
      OneMoreHighest(from, handed + [msg], s.latestAppliedRaftIndex, s'.latestAppliedRaftIndex);
    } else {
      assert HandedTo(n, all, k, i) == handed + [] == handed && s' == s;
    }
  }
}
