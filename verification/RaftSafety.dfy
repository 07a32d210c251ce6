/**
  The safety of Raft over whole runs: no run stops at a fatal index check, no term has two leaders,
  logs match, later leaders hold what was committed, and no two servers ever hand different
  commands to the service at one index.
 */
module RaftSafety {
  import opened RaftServer
  import opened RaftCluster
  import opened RaftInvariant
  import opened RaftCompleteness
  import opened RaftSteps
  import opened RaftVoting
  import opened RaftReplication
  import opened RaftHandlers
  import opened RaftAppends

  // ---------- Every enabled action is safe ----------

  lemma AppendIsSafe(n: nat, c: Cluster, h: History, i: nat, args: AppendArgs)
    requires |c.servers| == n && i < n && WellFormed(c.servers[i]) && c.servers[i].log[0] == GENESIS
    requires AppendOk(n, c, h, args) && h.terms[args.term].log[0] == GENESIS
    ensures !OnAppendEntries(c.servers[i], args).fatal
  {
  }

  lemma ReplyIsSafe(n: nat, c: Cluster, h: History, i: nat, peer: nat, args: AppendArgs, term: nat, success: bool,
                    nextRetry: nat)
    requires |c.servers| == n && i < n && args.leader == i && ServerOk(n, h, i, c.servers[i])
    requires MessageOk(n, c, h, AppendReply(peer, args, term, success, nextRetry))
    ensures var s := c.servers[i];
            && (IsCurrentReply(s, args) ==> peer < |s.nextIndex| && peer < |s.matchIndex|)
            && (Retries(s, args, term, success, nextRetry) ==> CanSendFrom(s, nextRetry))
            && (IsCurrentReply(s, args) && term <= s.term && !success ==> nextRetry != 0)
  {
    if IsCurrentReply(c.servers[i], args) {
      CurrentReply(n, c, h, i, peer, args, term, success, nextRetry);
    }
  }

  lemma EnabledIsSafe(n: nat, c: Cluster, h: History, a: Action)
    requires Inv(n, c, h) && Enabled(c, a)
    ensures Safe(c, a)
  {
    var i := Actor(a);
    assert ServerOk(n, h, i, c.servers[i]);
    match a
    case DeliverAppend(_, args) =>
      assert MessageOk(n, c, h, Append(i, args));
      assert ReignOk(n, h, args.term);
      AppendIsSafe(n, c, h, i, args);
    case DeliverAppendReply(peer, args, term, success, nextRetry) =>
      assert MessageOk(n, c, h, AppendReply(peer, args, term, success, nextRetry));
      ReplyIsSafe(n, c, h, i, peer, args, term, success, nextRetry);
    case _ =>
  }

  // ---------- Every action keeps the invariant ----------

  lemma SendsKeep(n: nat, c: Cluster, h: History, a: Action)
    requires Inv(n, c, h) && Enabled(c, a) && Safe(c, a)
    requires a.SendVoteRequests? || a.SendAppend? || a.SendHeartbeat?
    ensures Inv(n, Do(c, a), Record(c, h, a))
  {
    var i := a.i;
    match a
    case SendVoteRequests(_) =>
      SendVoteRequestsKeeps(n, c, h, i);
    case SendAppend(_, peer) =>
      SendAppendKeeps(n, c, h, i, peer);
    case SendHeartbeat(_, peer) =>
      SendHeartbeatKeeps(n, c, h, i, peer);
  }

  lemma VotesKeep(n: nat, c: Cluster, h: History, a: Action)
    requires Inv(n, c, h) && Enabled(c, a) && Safe(c, a)
    requires a.Campaign? || a.DeliverVoteRequest? || a.DeliverVoteReply?
    ensures Inv(n, Do(c, a), Record(c, h, a))
  {
    match a
    case Campaign(i) =>
      CampaignKeeps(n, c, h, i);
    case DeliverVoteRequest(i, vote) =>
      VoteRequestKeeps(n, c, h, i, vote);
    case DeliverVoteReply(vote, voter, term, granted) =>
      VoteReplyKeeps(n, c, h, vote.candidate, vote, voter, term, granted);
  }

  lemma ClientKeeps(n: nat, c: Cluster, h: History, a: Action)
    requires Inv(n, c, h) && Enabled(c, a) && Safe(c, a) && a.ClientStart?
    ensures Inv(n, Do(c, a), Record(c, h, a))
  {
    ClientStartKeeps(n, c, h, a.i, a.command);
  }

  lemma RequestKeeps(n: nat, c: Cluster, h: History, a: Action)
    requires Inv(n, c, h) && Enabled(c, a) && Safe(c, a) && a.DeliverAppend?
    ensures Inv(n, Do(c, a), Record(c, h, a))
  {
    AppendKeeps(n, c, h, a.i, a.args);
  }

  lemma ReplyKeeps(n: nat, c: Cluster, h: History, a: Action)
    requires Inv(n, c, h) && Enabled(c, a) && Safe(c, a) && a.DeliverAppendReply?
    ensures Inv(n, Do(c, a), Record(c, h, a))
  {
    var i, s := a.args.leader, c.servers[a.args.leader];
    var sent := Resent(s, a.peer, a.args, a.term, a.success, a.nextRetry);
    assert Do(c, a) == Put(c, i, Next(c, a), sent, {});
    AppendReplyKeeps(n, c, h, i, a.peer, a.args, a.term, a.success, a.nextRetry);
  }

  lemma HeartbeatKeeps(n: nat, c: Cluster, h: History, a: Action)
    requires Inv(n, c, h) && Enabled(c, a) && Safe(c, a) && a.DeliverHeartbeatReply?
    ensures Inv(n, Do(c, a), Record(c, h, a))
  {
    HeartbeatReplyKeeps(n, c, h, a.args.leader, a.peer, a.args, a.term, a.success, a.nextRetry);
  }

  lemma LocalsKeep(n: nat, c: Cluster, h: History, a: Action)
    requires Inv(n, c, h) && Enabled(c, a) && Safe(c, a)
    requires a.Timeout? || a.BeginLeadership? || a.Commit? || a.Apply? || a.TakeSnapshot? || a.CrashRestart?
    ensures Inv(n, Do(c, a), Record(c, h, a))
  {
    var i := a.i;
    match a
    case Timeout(_) =>
      TimeoutKeeps(n, c, h, i);
    case BeginLeadership(_) =>
      BeginLeadershipKeeps(n, c, h, i);
    case Commit(_) =>
      CommitKeeps(n, c, h, i);
    case Apply(_) =>
      ApplyKeeps(n, c, h, i, Handed(c, a));
    case TakeSnapshot(_, index) =>
      SnapshotKeeps(n, c, h, i, index);
    case CrashRestart(_) =>
      RestartKeeps(n, c, h, i);
  }

  lemma ActionKeeps(n: nat, c: Cluster, h: History, a: Action)
    requires Inv(n, c, h) && Enabled(c, a) && Safe(c, a)
    ensures Inv(n, Do(c, a), Record(c, h, a))
  {
    if a.SendVoteRequests? || a.SendAppend? || a.SendHeartbeat? {
      SendsKeep(n, c, h, a);
    } else if a.Campaign? || a.DeliverVoteRequest? || a.DeliverVoteReply? {
      VotesKeep(n, c, h, a);
    } else if a.DeliverAppend? {
      RequestKeeps(n, c, h, a);
    } else if a.DeliverAppendReply? {
      ReplyKeeps(n, c, h, a);
    } else if a.DeliverHeartbeatReply? {
      HeartbeatKeeps(n, c, h, a);
    } else if a.ClientStart? {
      ClientKeeps(n, c, h, a);
    } else {
      LocalsKeep(n, c, h, a);
    }
  }

  lemma {:induction false} RunInvariant(n: nat, actions: seq<Action>)
    requires IsRun(n, actions)
    ensures Inv(n, After(n, actions), Past(n, actions))
  {
    if actions != [] {
      var earlier := actions[..|actions| - 1];
      RunInvariant(n, earlier);
      ActionKeeps(n, After(n, earlier), Past(n, earlier), actions[|actions| - 1]);
    }
  }

  /** No run can be continued into a log.Fatalf or an index out of range. */
  lemma NeverFatal(n: nat, actions: seq<Action>, a: Action)
    requires IsRun(n, actions) && Enabled(After(n, actions), a)
    ensures Safe(After(n, actions), a)
  {
    RunInvariant(n, actions);
    EnabledIsSafe(n, After(n, actions), Past(n, actions), a);
  }

  // ---------- The past only grows along a run ----------

  lemma GrowsTrans(h1: History, h2: History, h3: History)
    requires Grows(h1, h2) && Grows(h2, h3)
    ensures Grows(h1, h3)
  {
    forall t | t in h1.terms
      ensures t in h3.terms && ReignGrows(h1.terms[t], h3.terms[t])
    {
      assert ReignGrows(h1.terms[t], h2.terms[t]) && ReignGrows(h2.terms[t], h3.terms[t]);
      PrefixTrans(h1.terms[t].log, h2.terms[t].log, h3.terms[t].log);
    }
  }

  // Whoever wins an election is the first to win it.
  lemma WinnerIsFirst(n: nat, h: History, i: nat, s: Server, voter: nat, term: nat, granted: bool)
    requires TermsOk(n, h) && ServerOk(n, h, i, s) && s.role != Leader
    requires s.poll.Polling? && voter !in s.poll.answered && voter != i && voter < n
    requires granted ==> (s.poll.term, voter) in h.ballots && h.ballots[(s.poll.term, voter)].candidate == i
    requires OnVoteReply(s, n, voter, term, granted).role == Leader
    ensures OnVoteReply(s, n, voter, term, granted).term !in h.terms
  {
    VoteReplyShape(s, n, voter, term, granted);
    var s1 := s.(poll := Counted(s.poll, voter, granted));
    CountVote(n, h, i, s, voter, granted);
    Majority(n, h, i, s1);
    FirstElected(n, h, i, s1);
  }

  lemma SameGrows(h: History)
    ensures Grows(h, h)
  {
  }

  lemma VotedGrows(h: History, voter: nat, term: nat, candidate: nat, log: seq<Entry>)
    ensures Grows(h, Voted(h, voter, term, candidate, log))
  {
  }

  lemma ElectedGrows(n: nat, h: History, i: nat, s: Server)
    requires s.term !in h.terms
    ensures Grows(h, Elected(h, n, s, i))
  {
  }

  lemma VoteReplyGrows(n: nat, c: Cluster, h: History, a: Action)
    requires |c.servers| == n && TermsOk(n, h) && Enabled(c, a) && Safe(c, a) && a.DeliverVoteReply?
    requires ServerOk(n, h, Actor(a), c.servers[Actor(a)])
    requires MessageOk(n, c, h, VoteReply(a.vote, a.voter, a.term, a.granted))
    ensures Grows(h, Record(c, h, a))
  {
    var s, s' := c.servers[Actor(a)], Next(c, a);
    SameGrows(h);
    if s'.role == Leader && s.role != Leader {
      WinnerIsFirst(n, h, Actor(a), s, a.voter, a.term, a.granted);
      ElectedGrows(n, h, Actor(a), s');
    }
  }

  lemma ClientStartGrows(n: nat, c: Cluster, h: History, a: Action)
    requires |c.servers| == n && AcksWithin(h) && Enabled(c, a) && Safe(c, a) && a.ClientStart?
    requires ServerOk(n, h, a.i, c.servers[a.i])
    ensures Grows(h, Record(c, h, a))
  {
    var s := c.servers[a.i];
    SameGrows(h);
    if Serving(s) {
      StartShape(s, a.i, a.command);
      CommandGrows(n, h, a.i, s, Next(c, a), Entry(s.term, a.command));
    }
  }

  lemma OtherGrows(n: nat, c: Cluster, h: History, a: Action)
    requires |c.servers| == n && Enabled(c, a) && Safe(c, a) && !a.DeliverVoteReply? && !a.ClientStart?
    ensures Grows(h, Record(c, h, a))
  {
    var s, s' := c.servers[Actor(a)], Next(c, a);
    SameGrows(h);
    if a.Campaign? {
      VotedGrows(h, a.i, s'.term, a.i, s.log);
    } else if a.DeliverVoteRequest? {
      VotedGrows(h, a.i, s'.term, a.vote.candidate, s.log);
    } else if a.DeliverAppend? {
      EntriesGrow(h, a.i, a.args);
    }
  }

  lemma RecordGrows(n: nat, c: Cluster, h: History, a: Action)
    requires Inv(n, c, h) && Enabled(c, a) && Safe(c, a)
    ensures Grows(h, Record(c, h, a))
  {
    assert ServerOk(n, h, Actor(a), c.servers[Actor(a)]);
    if a.DeliverVoteReply? {
      assert MessageOk(n, c, h, VoteReply(a.vote, a.voter, a.term, a.granted));
      VoteReplyGrows(n, c, h, a);
    } else if a.ClientStart? {
      HistoryAcks(n, h);
      ClientStartGrows(n, c, h, a);
    } else {
      OtherGrows(n, c, h, a);
    }
  }

  lemma {:induction false} PastGrows(n: nat, actions: seq<Action>, m: nat)
    requires IsRun(n, actions) && m <= |actions|
    ensures IsRun(n, actions[..m]) && Grows(Past(n, actions[..m]), Past(n, actions))
    decreases |actions|
  {
    if m == |actions| {
      assert actions[..m] == actions;
    } else {
      var earlier, a := actions[..|actions| - 1], actions[|actions| - 1];
      PastGrows(n, earlier, m);
      assert earlier[..m] == actions[..m];
      RunInvariant(n, earlier);
      RecordGrows(n, After(n, earlier), Past(n, earlier), a);
      GrowsTrans(Past(n, actions[..m]), Past(n, earlier), Past(n, actions));
    }
  }

  // ---------- The theorems ----------

  lemma LeaderIsRecorded(n: nat, actions: seq<Action>, m: nat, i: nat)
    requires IsRun(n, actions) && m <= |actions| && IsRun(n, actions[..m])
    requires i < |After(n, actions[..m]).servers| && After(n, actions[..m]).servers[i].role == Leader
    ensures var T := After(n, actions[..m]).servers[i].term;
            T in Past(n, actions).terms && Past(n, actions).terms[T].leader == i
  {
    RunInvariant(n, actions[..m]);
    assert ServerOk(n, Past(n, actions[..m]), i, After(n, actions[..m]).servers[i]);
    PastGrows(n, actions, m);
  }

  /** Election Safety: at any two moments of a run, two leaders of one term are the same server. */
  lemma ElectionSafety(n: nat, actions: seq<Action>, m1: nat, m2: nat, i: nat, j: nat)
    requires IsRun(n, actions) && m1 <= |actions| && m2 <= |actions|
    requires IsRun(n, actions[..m1]) && IsRun(n, actions[..m2])
    requires i < |After(n, actions[..m1]).servers| && j < |After(n, actions[..m2]).servers|
    requires After(n, actions[..m1]).servers[i].role == Leader
    requires After(n, actions[..m2]).servers[j].role == Leader
    requires After(n, actions[..m1]).servers[i].term == After(n, actions[..m2]).servers[j].term
    ensures i == j
  {
    LeaderIsRecorded(n, actions, m1, i);
    LeaderIsRecorded(n, actions, m2, j);
  }

  /** Log Matching: two logs with the same term at an index are identical up to it. */
  lemma LogMatching(n: nat, actions: seq<Action>, i: nat, j: nat, k: nat)
    requires IsRun(n, actions)
    requires var c := After(n, actions);
             && i < |c.servers| && j < |c.servers|
             && k < |c.servers[i].log| && k < |c.servers[j].log|
             && c.servers[i].log[k].term == c.servers[j].log[k].term
    ensures var c := After(n, actions);
            c.servers[i].log[..k + 1] == c.servers[j].log[..k + 1]
  {
    RunInvariant(n, actions);
    var c, h := After(n, actions), Past(n, actions);
    assert ServerOk(n, h, i, c.servers[i]) && ServerOk(n, h, j, c.servers[j]);
    LogsMatch(h, c.servers[i].log, c.servers[j].log, k);
  }

  // What server i had committed after m actions is still justified at the end.
  lemma CommitLasts(n: nat, actions: seq<Action>, m: nat, i: nat)
    requires IsRun(n, actions) && m <= |actions| && IsRun(n, actions[..m])
    requires i < |After(n, actions[..m]).servers|
    ensures var s := After(n, actions[..m]).servers[i];
            s.commitIndex < |s.log| && CommitOk(n, Past(n, actions), s.log, s.commitIndex, s.term)
  {
    RunInvariant(n, actions[..m]);
    var s := After(n, actions[..m]).servers[i];
    assert ServerOk(n, Past(n, actions[..m]), i, s);
    PastGrows(n, actions, m);
    GrowCommitOk(n, Past(n, actions[..m]), Past(n, actions), s.log, s.log, s.commitIndex, s.term);
  }

  /**
    Leader Completeness: an entry that any server had committed at an earlier moment is in the log
    of every leader of that server's term or a later one.
   */
  lemma LeadersHoldCommitted(n: nat, actions: seq<Action>, m: nat, i: nat, leader: nat, k: nat)
    requires IsRun(n, actions) && m <= |actions| && IsRun(n, actions[..m])
    requires i < |After(n, actions[..m]).servers| && leader < |After(n, actions).servers|
    requires var s, l := After(n, actions[..m]).servers[i], After(n, actions).servers[leader];
             l.role == Leader && s.term <= l.term && 1 <= k <= s.commitIndex
    ensures var s, l := After(n, actions[..m]).servers[i], After(n, actions).servers[leader];
            k < |s.log| && k < |l.log| && l.log[k] == s.log[k]
  {
    var s, l := After(n, actions[..m]).servers[i], After(n, actions).servers[leader];
    var h := Past(n, actions);
    CommitLasts(n, actions, m, i);
    RunInvariant(n, actions);
    HeldBy(n, h, s.log, s.commitIndex, s.term, leader, l, k);
  }

  lemma HeldBy(n: nat, h: History, log: seq<Entry>, commit: nat, term: nat, i: nat, l: Server, k: nat)
    requires HistoryOk(n, h) && ServerOk(n, h, i, l) && l.role == Leader && term <= l.term
    requires 1 <= k <= commit < |log| && CommitOk(n, h, log, commit, term)
    ensures k < |l.log| && l.log[k] == log[k]
  {
    var t, j :| CommitWitness(n, h, log, commit, term, t, j);
    CommittedIn(n, h, t, j, l.term);
    assert log[..commit + 1][k] == h.terms[t].log[k] == h.terms[t].log[..j + 1][k];
  }

  /** Two servers never, at any two moments, have different entries committed at one index. */
  lemma CommittedEntriesAgree(n: nat, actions: seq<Action>, m1: nat, m2: nat, i: nat, j: nat, k: nat)
    requires IsRun(n, actions) && m1 <= |actions| && m2 <= |actions|
    requires IsRun(n, actions[..m1]) && IsRun(n, actions[..m2])
    requires i < |After(n, actions[..m1]).servers| && j < |After(n, actions[..m2]).servers|
    requires 1 <= k <= After(n, actions[..m1]).servers[i].commitIndex
    requires k <= After(n, actions[..m2]).servers[j].commitIndex
    ensures var s1, s2 := After(n, actions[..m1]).servers[i], After(n, actions[..m2]).servers[j];
            k < |s1.log| && k < |s2.log| && s1.log[k] == s2.log[k]
  {
    var s1, s2 := After(n, actions[..m1]).servers[i], After(n, actions[..m2]).servers[j];
    var h := Past(n, actions);
    RunInvariant(n, actions);
    CommitLasts(n, actions, m1, i);
    CommitLasts(n, actions, m2, j);
    var t1, k1 :| CommitWitness(n, h, s1.log, s1.commitIndex, s1.term, t1, k1);
    var t2, k2 :| CommitWitness(n, h, s2.log, s2.commitIndex, s2.term, t2, k2);
    CommitsAgree(n, h, t1, k1, t2, k2, k);
    assert s1.log[..s1.commitIndex + 1][k] == h.terms[t1].log[k];
    assert s2.log[..s2.commitIndex + 1][k] == h.terms[t2].log[k];
  }

  /** State Machine Safety: one index, one command, whoever delivers it and whenever. */
  lemma StateMachineSafety(n: nat, actions: seq<Action>, a: ApplyMsg, b: ApplyMsg)
    requires IsRun(n, actions)
    requires a in After(n, actions).delivered && b in After(n, actions).delivered && a.index == b.index
    ensures a.command == b.command
  {
    RunInvariant(n, actions);
    var h := Past(n, actions);
    assert DeliveredOk(n, h, a) && DeliveredOk(n, h, b);
    var t1, k1 :| Committed(n, h, t1, k1) && a.index <= k1 && h.terms[t1].log[a.index].command == a.command;
    var t2, k2 :| Committed(n, h, t2, k2) && b.index <= k2 && h.terms[t2].log[b.index].command == b.command;
    CommitsAgree(n, h, t1, k1, t2, k2, a.index);
  }

  // `log` holds the entries of the request where the request says they are.
  ghost predicate Carries(log: seq<Entry>, args: AppendArgs) {
    && args.prevIndex + |args.entries| < |log|
    && log[args.prevIndex].term == args.prevTerm
    && log[args.prevIndex + 1..args.prevIndex + 1 + |args.entries|] == args.entries
  }

  // s' keeps what s had committed, and commits further only within the request.
  ghost predicate CommitsWithin(s: Server, s': Server, args: AppendArgs) {
    && s.commitIndex < |s.log| && s.commitIndex <= s'.commitIndex < |s'.log|
    && s'.log[..s.commitIndex + 1] == s.log[..s.commitIndex + 1]
    && (s'.commitIndex == s.commitIndex || s'.commitIndex <= args.prevIndex + |args.entries|)
  }

  /**
    Every AppendEntries on the network, first attempt or retry, carries a leaderCommit within the
    entries it speaks about; so a follower that accepts it and clamps to its own last index commits
    nothing beyond the stretch it now shares with the sender.
   */
  lemma AppendCommitsWhatItCarries(n: nat, actions: seq<Action>, to: nat, args: AppendArgs)
    requires IsRun(n, actions) && Append(to, args) in After(n, actions).net && to != args.leader
    ensures args.leaderCommit <= args.prevIndex + |args.entries|
    ensures to < |After(n, actions).servers| && WellFormed(After(n, actions).servers[to])
    ensures var s := After(n, actions).servers[to];
            var r := OnAppendEntries(s, args);
            r.success ==> Carries(r.server.log, args) && CommitsWithin(s, r.server, args)
  {
    RunInvariant(n, actions);
    var c, h := After(n, actions), Past(n, actions);
    assert MessageOk(n, c, h, Append(to, args));
    assert ServerOk(n, h, to, c.servers[to]);
    MeetLeader(n, c, h, to, args.term);
    var s2 := YieldToLeader(SeeTerm(c.servers[to], args.term), args.term);
    assert ServerOk(n, h, to, Put(c, to, s2, {}, {}).servers[to]);
    AcceptedAppend(n, h, to, c.servers[to], s2, args);
  }

  lemma AcceptedAppend(n: nat, h: History, i: nat, s: Server, s2: Server, args: AppendArgs)
    requires HistoryOk(n, h) && Stretch(h, args) && i != h.terms[args.term].leader && WellFormed(s)
    requires s2 == YieldToLeader(SeeTerm(s, args.term), args.term) && ServerOk(n, h, i, s2)
    requires args.leaderCommit <= args.prevIndex + |args.entries|
    ensures var r := OnAppendEntries(s, args);
            r.success ==> Carries(r.server.log, args) && CommitsWithin(s, r.server, args)
  {
    AcceptedShape(s, s2, args);
    if OnAppendEntries(s, args).success {
      AcceptedLog(n, h, i, s2, args);
      ClampStays(s, s2, args);
    }
  }

  lemma AcceptedShape(s: Server, s2: Server, args: AppendArgs)
    requires WellFormed(s) && s2 == YieldToLeader(SeeTerm(s, args.term), args.term)
    ensures s2.log == s.log && s2.commitIndex == s.commitIndex
    ensures var r := OnAppendEntries(s, args);
            r.success ==>
              && s2.term == args.term && Matches(s2.log, args)
              && r.server == FollowCommit(TakeEntries(s2, args), args.leaderCommit)
  {
  }

  lemma AcceptedLog(n: nat, h: History, i: nat, s: Server, args: AppendArgs)
    requires HistoryOk(n, h) && Stretch(h, args) && i != h.terms[args.term].leader
    requires ServerOk(n, h, i, s) && s.term == args.term && Matches(s.log, args)
    ensures var log := TakeEntries(s, args).log;
            && Carries(log, args)
            && s.commitIndex < |log| && log[..s.commitIndex + 1] == s.log[..s.commitIndex + 1]
  {
    assert ReignOk(n, h, args.term);
    FollowerTakes(n, h, i, s, args);
    CommittedPartStays(n, h, i, s, args);
    TakenStretch(n, h, i, s, args);
  }

  lemma ClampStays(s: Server, s2: Server, args: AppendArgs)
    requires s.commitIndex < |s.log| && s2.log == s.log && s2.commitIndex == s.commitIndex && Matches(s2.log, args)
    requires args.leaderCommit <= args.prevIndex + |args.entries|
    requires var log := TakeEntries(s2, args).log;
             s.commitIndex < |log| && log[..s.commitIndex + 1] == s.log[..s.commitIndex + 1]
    ensures CommitsWithin(s, FollowCommit(TakeEntries(s2, args), args.leaderCommit), args)
  {
  }

  lemma TakenStretch(n: nat, h: History, i: nat, s: Server, args: AppendArgs)
    requires Matches(s.log, args) && Stretch(h, args)
    requires TakesEntries(n, h, i, s, TakeEntries(s, args), args)
    ensures Carries(TakeEntries(s, args).log, args)
  {
    var leaderLog := h.terms[args.term].log;
    var end := args.prevIndex + |args.entries| + 1;
    var log := TakeEntries(s, args).log;
    assert leaderLog[..end] <= log;
    assert log[args.prevIndex + 1..end] == leaderLog[..end][args.prevIndex + 1..end] ==
           leaderLog[args.prevIndex + 1..end];
  }

  lemma CommittedPartStays(n: nat, h: History, i: nat, s: Server, args: AppendArgs)
    requires HistoryOk(n, h) && ServerOk(n, h, i, s) && Matches(s.log, args)
    requires TakesEntries(n, h, i, s, TakeEntries(s, args), args)
    ensures var log := TakeEntries(s, args).log;
            s.commitIndex < |log| && log[..s.commitIndex + 1] == s.log[..s.commitIndex + 1]
  {
    CommittedInLeader(n, h, s.log, s.commitIndex, s.term);
    MergeKeeps(s.log, h.terms[args.term].log, args.prevIndex + |args.entries| + 1, s.log[..s.commitIndex + 1]);
  }

  /** Between actions a readable image on disk is the server's current term, vote and log. */
  lemma DiskIsCurrent(n: nat, actions: seq<Action>, i: nat)
    requires IsRun(n, actions) && i < |After(n, actions).servers|
    ensures var s := After(n, actions).servers[i];
            s.disk.Saved? ==> s.disk == Saved(s.term, s.votedFor, s.base, s.log)
  {
    RunInvariant(n, actions);
    assert ServerOk(n, Past(n, actions), i, After(n, actions).servers[i]);
  }
}
