/**
  What the unguarded steps of the code can do, and that Raft's promises need all three guards.

  An election: the server's role is read, the lock is released, and the term is raised without
  looking again.  If the server has become leader in between, it leads a term that nobody elected
  it for.

  A restart after Snapshot: the image on disk has been replaced by nothing, so the server comes
  back without its term, its vote and its log.

  A heartbeat reply: it is counted without another look at term and role, so by a later leadership.
 */
module RaftHazards {
  import opened RaftServer
  import opened RaftCluster
  import opened RaftInvariant
  import opened RaftSteps
  import opened RaftHandlers
  import opened RaftRuns
  import opened RaftLateElections
  import RaftStaleReply
  import opened RaftAppends
  import opened RaftSafety

  // A leader that starts an election leads a term it was not elected for.
  lemma Usurps(n: nat, c: Cluster, h: History, i: nat)
    requires |c.servers| == n && i < n && TermsOk(n, h) && BallotsOk(n, c, h) && c.servers[i].role == Leader
    ensures !ServerOk(n, Voted(h, i, c.servers[i].term + 1, i, c.servers[i].log), i, DoElection(c.servers[i], i))
  {
    NewTerm(n, c, h, i);
  }

  lemma UsurperBreaks(n: nat, c: Cluster, h: History, i: nat)
    requires Inv(n, c, h) && i < n && c.servers[i].role == Leader
    ensures !Inv(n, Put(c, i, DoElection(c.servers[i], i), {}, {}),
                 Voted(h, i, c.servers[i].term + 1, i, c.servers[i].log))
  {
    Usurps(n, c, h, i);
    OneServerOk(n, Put(c, i, DoElection(c.servers[i], i), {}, {}),
                Voted(h, i, c.servers[i].term + 1, i, c.servers[i].log), i,
                DoElection(c.servers[i], i));
  }

  lemma OneServerOk(n: nat, c: Cluster, h: History, i: nat, s: Server)
    requires |c.servers| == n && i < n && c.servers[i] == s
    ensures Inv(n, c, h) ==> ServerOk(n, h, i, s)
  {
  }

  /**
    Starting an election keeps the invariant, and with it every leader rightly elected, exactly
    when the server is not leader at that moment.
   */
  lemma CampaignExactly(n: nat, c: Cluster, h: History, i: nat)
    requires Inv(n, c, h) && i < n
    ensures Inv(n, Put(c, i, DoElection(c.servers[i], i), {}, {}),
                Voted(h, i, c.servers[i].term + 1, i, c.servers[i].log)) <==>
            c.servers[i].role != Leader
  {
    if c.servers[i].role != Leader {
      CampaignKeeps(n, c, h, i);
    } else {
      UsurperBreaks(n, c, h, i);
    }
  }

  // ---------- Restarting without an image ----------

  // Server i has agreed with some leader on its log.
  ghost predicate HasAgreed(h: History, i: nat) {
    exists t: nat :: (i, t) in h.acks
  }

  // A server with entries has agreed with a leader, and an unreadable image means that it has entries.
  ghost predicate TookPart(h: History, i: nat, s: Server) {
    && (|s.log| > 1 ==> HasAgreed(h, i))
    && (s.disk.Wiped? ==> |s.log| > 1)
  }

  lemma AgreesNow(h: History, i: nat, t: nat, k: nat)
    ensures HasAgreed(Agreed(h, i, t, k), i)
  {
    assert (i, t) in Agreed(h, i, t, k).acks;
  }

  lemma StillAgreed(c: Cluster, h: History, a: Action, i: nat)
    requires Enabled(c, a) && Safe(c, a) && HasAgreed(h, i)
    ensures HasAgreed(Record(c, h, a), i)
  {
    var t: nat :| (i, t) in h.acks;
    assert (i, t) in Record(c, h, a).acks;
  }

  // The actions that touch neither the entries nor wipe the disk.
  ghost predicate LeavesLog(a: Action) {
    !a.ClientStart? && !a.DeliverAppend? && !a.TakeSnapshot? && !a.CrashRestart?
  }

  lemma LogUntouched(c: Cluster, a: Action)
    requires Enabled(c, a) && Safe(c, a) && LeavesLog(a)
    ensures var s, s' := c.servers[Actor(a)], Next(c, a); s'.log == s.log && (s'.disk == s.disk || s'.disk.Saved?)
  {
  }

  lemma AppendTakesPart(c: Cluster, h: History, a: Action)
    requires Enabled(c, a) && Safe(c, a) && a.DeliverAppend? && TookPart(h, a.i, c.servers[a.i])
    ensures TookPart(Record(c, h, a), a.i, Next(c, a))
  {
    var s := c.servers[a.i];
    if OnAppendEntries(s, a.args).success {
      AgreesNow(h, a.i, a.args.term, a.args.prevIndex + |a.args.entries|);
      AcceptedShape(s, YieldToLeader(SeeTerm(s, a.args.term), a.args.term), a.args);
    }
  }

  lemma CommandTakesPart(n: nat, c: Cluster, h: History, a: Action)
    requires Enabled(c, a) && Safe(c, a) && a.ClientStart? && ServerOk(n, h, a.i, c.servers[a.i]) &&
             TookPart(h, a.i, c.servers[a.i])
    ensures TookPart(Record(c, h, a), a.i, Next(c, a))
  {
    var s := c.servers[a.i];
    if Serving(s) {
      AgreesNow(Extended(h, s.term, Next(c, a).log), a.i, s.term, |s.log|);
    }
  }

  lemma DiskTakesPart(n: nat, c: Cluster, h: History, a: Action)
    requires Enabled(c, a) && Safe(c, a) && (a.TakeSnapshot? || a.CrashRestart?)
    requires ServerOk(n, h, a.i, c.servers[a.i]) && TookPart(h, a.i, c.servers[a.i])
    ensures TookPart(Record(c, h, a), a.i, Next(c, a))
  {
  }

  lemma ActorTakesPart(n: nat, c: Cluster, h: History, a: Action)
    requires Enabled(c, a) && Safe(c, a)
    requires ServerOk(n, h, Actor(a), c.servers[Actor(a)]) && TookPart(h, Actor(a), c.servers[Actor(a)])
    ensures TookPart(Record(c, h, a), Actor(a), Next(c, a))
  {
    if a.DeliverAppend? {
      AppendTakesPart(c, h, a);
    } else if a.ClientStart? {
      CommandTakesPart(n, c, h, a);
    } else if a.TakeSnapshot? || a.CrashRestart? {
      DiskTakesPart(n, c, h, a);
    } else {
      LogUntouched(c, a);
      if HasAgreed(h, Actor(a)) {
        StillAgreed(c, h, a, Actor(a));
      }
    }
  }

  lemma {:induction false} AllTookPart(n: nat, actions: seq<Action>, i: nat)
    requires IsRun(n, actions) && i < n
    ensures i < |After(n, actions).servers| && TookPart(Past(n, actions), i, After(n, actions).servers[i])
    decreases |actions|
  {
    RunInvariant(n, actions);
    if actions != [] {
      var earlier, a := actions[..|actions| - 1], actions[|actions| - 1];
      AllTookPart(n, earlier, i);
      RunInvariant(n, earlier);
      OneMoreAction(n, After(n, earlier), Past(n, earlier), a, i);
    }
  }

  lemma OneMoreAction(n: nat, c: Cluster, h: History, a: Action, i: nat)
    requires Inv(n, c, h) && Enabled(c, a) && Safe(c, a) && i < n && TookPart(h, i, c.servers[i])
    ensures i < |Do(c, a).servers| && TookPart(Record(c, h, a), i, Do(c, a).servers[i])
  {
    if Actor(a) == i {
      assert ServerOk(n, h, i, c.servers[i]);
      ActorTakesPart(n, c, h, a);
    } else if HasAgreed(h, i) {
      StillAgreed(c, h, a, i);
    }
  }

  // A server that has agreed with a leader cannot come back in term 0.
  lemma ForgetsAgreement(n: nat, c: Cluster, h: History, i: nat)
    requires |c.servers| == n && i < n && TermsOk(n, h) && AcksOk(n, c, h) && HasAgreed(h, i)
    ensures !AcksOk(n, Put(c, i, Fresh(), {}, {}), h)
  {
    var t: nat :| (i, t) in h.acks;
    assert AckKeptByServer(n, c, h, i, t) && ReignOk(n, h, t);
    assert !AckKeptByServer(n, Put(c, i, Fresh(), {}, {}), h, i, t);
  }

  /** A restart keeps the invariant exactly when there is an image to restart from. */
  lemma RestartExactly(n: nat, c: Cluster, h: History, i: nat)
    requires Inv(n, c, h) && i < n && TookPart(h, i, c.servers[i])
    ensures Inv(n, Put(c, i, Restart(c.servers[i]), {}, {}), h) <==> c.servers[i].disk.Saved?
  {
    if c.servers[i].disk.Saved? {
      RestartKeeps(n, c, h, i);
    } else {
      ForgetsAgreement(n, c, h, i);
    }
  }

  // ---------- What goes wrong ----------

  // Server 1 once it has a snapshot.
  ghost function Compacted(): Server {
    Holder(1, 1).(base := 1, disk := Wiped)
  }

  // Server 1, which elected server 0 and holds its entry, takes a snapshot and restarts from nothing.
  lemma Compacts(w: Leeway) returns (x: Scene)
    ensures Staged(x, w, [Chief(1, 1), Compacted(), START])
  {
    assert OnSnapshot(Holder(1, 1), 1) == Compacted();
    x := Applies(w);
    x := Act(x, TakeSnapshot(1, 1), Compacted(), {});
  }

  lemma Forgets(w: Leeway) returns (x: Scene)
    requires w.lostImages
    ensures Staged(x, w, [Chief(1, 1), START, START])
  {
    assert Restart(Compacted()) == START;
    x := Compacts(w);
    x := Act(x, CrashRestart(1), START, {});
  }

  /**
    Two leaders of term 1, and a committed entry in only one log: server 1 votes for server 0, holds
    the entry, takes a snapshot, restarts without an image, and votes for server 2.
   */
  lemma ForgottenVote(w: Leeway) returns (actions: seq<Action>)
    requires w.lostImages
    ensures IsRunWith(w, 3, actions)
    ensures var c := AfterWith(w, 3, actions);
            && |c.servers| == 3
            && c.servers[0].role == Leader && c.servers[2].role == Leader && c.servers[0].term == c.servers[2].term
            && c.servers[0].commitIndex == 1
            && |c.servers[0].log| == 2 && |c.servers[1].log| == |c.servers[2].log| == 1
  {
    var x := Forgets(w);
    x := Stands(x, 2, 1);
    actions := x.actions;
  }

  // ---------- The guards are needed ----------

  // A leader of the same term as s or a later one holds what s has committed.
  ghost predicate HoldsCommitted(l: Server, s: Server) {
    l.role == Leader && s.term <= l.term ==> forall k: nat :: 1 <= k <= s.commitIndex ==> HoldsEntry(l, s, k)
  }

  ghost predicate HoldsEntry(l: Server, s: Server, k: nat) {
    k < |s.log| && k < |l.log| && l.log[k] == s.log[k]
  }

  ghost predicate LeadersComplete(c: Cluster) {
    forall i: nat, j: nat :: i < |c.servers| && j < |c.servers| ==> HoldsCommitted(c.servers[j], c.servers[i])
  }

  lemma OneLeader(n: nat, actions: seq<Action>)
    requires IsRun(n, actions)
    ensures OneLeaderPerTerm(After(n, actions))
  {
    var c := After(n, actions);
    assert actions[..|actions|] == actions;
    forall i: nat, j: nat | i < |c.servers| && j < |c.servers| && LeadSameTerm(c.servers[i], c.servers[j])
      ensures i == j
    {
      ElectionSafety(n, actions, |actions|, |actions|, i, j);
    }
  }

  lemma CompleteLeaders(n: nat, actions: seq<Action>)
    requires IsRun(n, actions)
    ensures LeadersComplete(After(n, actions))
  {
    var c := After(n, actions);
    assert actions[..|actions|] == actions;
    forall i: nat, j: nat, k: nat | i < |c.servers| && j < |c.servers| && c.servers[j].role == Leader &&
                                    c.servers[i].term <= c.servers[j].term && 1 <= k <= c.servers[i].commitIndex
      ensures HoldsEntry(c.servers[j], c.servers[i], k)
    {
      LeadersHoldCommitted(n, actions, |actions|, i, j, k);
    }
  }

  ghost predicate KeepsPromises(c: Cluster) {
    OneLeaderPerTerm(c) && LeadersComplete(c)
  }

  /**
    In every run with leeway w no term has two leaders and leaders hold what was committed, exactly
    when w is no leeway: each of the three guards is needed, and the one on heartbeat replies to the index.
   */
  lemma LeewayExactly(w: Leeway)
    ensures (forall n, actions :: IsRunWith(w, n, actions) ==> KeepsPromises(AfterWith(w, n, actions))) <==>
            w == NO_LEEWAY
  {
    if w == NO_LEEWAY {
      forall n, actions | IsRunWith(w, n, actions)
        ensures KeepsPromises(AfterWith(w, n, actions))
      {
        SameRuns(n, actions);
        OneLeader(n, actions);
        CompleteLeaders(n, actions);
      }
    } else if w.lateElections {
      var actions := TwoLeaders(w, 3);
      Broken(AfterWith(w, 3, actions), 0, 1);
    } else if w.lostImages {
      var actions := ForgottenVote(w);
      Broken(AfterWith(w, 3, actions), 0, 2);
    } else {
      var actions := RaftStaleReply.StaleReplyLosesCommit(w);
      BrokenByIncomplete(AfterWith(w, 5, actions), 0, 2, 2);
    }
  }

  /**
    Leaders hold what was committed, in every run where a serving leader counts replies to earlier
    leaderships up to d indices past its last entry of an earlier term, exactly when d is 0.
   */
  lemma StaleExactly(d: nat)
    ensures (forall n, actions :: IsRunWith(Leeway(false, false, d), n, actions) ==>
               LeadersComplete(AfterWith(Leeway(false, false, d), n, actions))) <==>
            d == 0
  {
    var w := Leeway(false, false, d);
    if d == 0 {
      forall n, actions | IsRunWith(w, n, actions)
        ensures LeadersComplete(AfterWith(w, n, actions))
      {
        SameRuns(n, actions);
        CompleteLeaders(n, actions);
      }
    } else {
      var actions := RaftStaleReply.StaleReplyLosesCommit(w);
      var c := AfterWith(w, 5, actions);
      assert !HoldsEntry(c.servers[2], c.servers[0], 2);
      assert !HoldsCommitted(c.servers[2], c.servers[0]);
    }
  }

  lemma BrokenByIncomplete(c: Cluster, i: nat, j: nat, k: nat)
    requires i < |c.servers| && j < |c.servers| && c.servers[j].role == Leader && c.servers[i].term <= c.servers[j].term
    requires 1 <= k <= c.servers[i].commitIndex && !HoldsEntry(c.servers[j], c.servers[i], k)
    ensures !KeepsPromises(c)
  {
    assert !HoldsCommitted(c.servers[j], c.servers[i]);
  }
}
