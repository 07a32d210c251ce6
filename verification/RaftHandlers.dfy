/**
  Every action that a reachable cluster allows is safe to execute and keeps the invariant.
 */
module RaftHandlers {
  import opened RaftServer
  import opened RaftCluster
  import opened RaftInvariant
  import opened RaftCompleteness
  import opened RaftSteps
  import opened RaftVoting
  import opened RaftReplication

  lemma PutTwice(c: Cluster, i: nat, s1: Server, s2: Server, sent: set<Message>, handed: set<ApplyMsg>)
    requires i < |c.servers|
    ensures Put(Put(c, i, s1, {}, {}), i, s2, sent, handed) == Put(c, i, s2, sent, handed)
    ensures Put(c, i, s2, {}, {}).servers == c.servers[i := s2]
  {
  }

  lemma PutSame(c: Cluster, i: nat, sent: set<Message>, handed: set<ApplyMsg>)
    requires i < |c.servers|
    ensures Put(c, i, c.servers[i], {}, {}) == c
    ensures Put(c, i, c.servers[i], sent, handed).servers == c.servers
  {
    assert c.servers[i := c.servers[i]] == c.servers;
  }

  // A commit index stays justified in a later term, and so does every smaller one.
  lemma CommitLater(n: nat, h: History, log: seq<Entry>, commit: nat, term: nat, commit': nat, term': nat)
    requires CommitOk(n, h, log, commit, term) && commit' <= commit && term <= term'
    ensures CommitOk(n, h, log, commit', term')
  {
    if commit' > 0 {
      var t, k :| CommitWitness(n, h, log, commit, term, t, k);
      PrefixTrans(log[..commit' + 1], log[..commit + 1], h.terms[t].log);
      assert CommitWitness(n, h, log, commit', term', t, k);
    }
  }

  // ---------- Terms and roles ----------

  lemma StepDownOk(n: nat, h: History, i: nat, s: Server, term: nat)
    requires ServerOk(n, h, i, s) && s.term < term && (term, i) !in h.ballots
    ensures ServerOk(n, h, i, StepDown(s, term))
  {
    var s' := StepDown(s, term);
    CommitLater(n, h, s.log, s.commitIndex, s.term, s.commitIndex, term);
  }

  lemma SeeTermStep(n: nat, c: Cluster, h: History, i: nat, term: nat)
    requires Inv(n, c, h) && i < n
    ensures Inv(n, Put(c, i, SeeTerm(c.servers[i], term), {}, {}), h)
  {
    var s := c.servers[i];
    if term > s.term {
      assert (term, i) !in h.ballots by {
        assert (term, i) in h.ballots ==> BallotOk(n, c, h, term, i);
      }
      StepDownOk(n, h, i, s, term);
      QuietStep(n, c, h, i, StepDown(s, term), {}, {});
    } else {
      PutSame(c, i, {}, {});
    }
  }

  // Only the role changes, and not to leader.
  lemma RoleStep(n: nat, c: Cluster, h: History, i: nat, role: Role)
    requires Inv(n, c, h) && i < n && c.servers[i].role != Leader && role != Leader
    ensures Inv(n, Put(c, i, c.servers[i].(role := role), {}, {}), h)
  {
    var s := c.servers[i];
    assert ServerOk(n, h, i, s);
    QuietStep(n, c, h, i, s.(role := role), {}, {});
  }

  lemma TimeoutKeeps(n: nat, c: Cluster, h: History, i: nat)
    requires Inv(n, c, h) && i < n
    ensures Inv(n, Put(c, i, OnTimeout(c.servers[i]), {}, {}), h)
  {
    if c.servers[i].role == Follower {
      RoleStep(n, c, h, i, Candidate);
    } else {
      PutSame(c, i, {}, {});
    }
  }

  lemma CampaignKeeps(n: nat, c: Cluster, h: History, i: nat)
    requires Inv(n, c, h) && i < n && c.servers[i].role != Leader
    ensures Inv(n, Put(c, i, DoElection(c.servers[i], i), {}, {}),
                Voted(h, i, c.servers[i].term + 1, i, c.servers[i].log))
  {
    CampaignShape(c.servers[i], i);
    NewTermAndVote(n, c, h, i, c.servers[i].term + 1, c.servers[i].log, NextTerm(c.servers[i]));
  }

  lemma NewTermAndVote(n: nat, c: Cluster, h: History, i: nat, T: nat, log: seq<Entry>, s: Server)
    requires Inv(n, c, h) && i < n && c.servers[i].role != Leader
    requires s == NextTerm(c.servers[i]) && s.term == T == c.servers[i].term + 1 && s.log == log && s.role != Leader
    ensures Inv(n, Put(c, i, OwnVote(s, i), {}, {}), Voted(h, i, T, i, log))
  {
    NewTermStep(n, c, h, i);
    StandStep(n, c, h, i, s);
  }

  ghost function NextTerm(s: Server): Server {
    Persist(s.(term := s.term + 1, votedFor := NOBODY))
  }

  ghost function OwnVote(s: Server, i: nat): Server {
    Persist(s.(votedFor := i, poll := Polling(s.term, {}, 1)))
  }

  lemma CampaignShape(s: Server, i: nat)
    ensures var s1 := NextTerm(s);
            && s1.term == s.term + 1 && s1.role == s.role && s1.log == s.log && DoElection(s, i) == OwnVote(s1, i)
  {
  }

  lemma StandStep(n: nat, c: Cluster, h: History, i: nat, s: Server)
    requires |c.servers| == n && i < n && Inv(n, Put(c, i, s, {}, {}), h)
    requires s.term >= 1 && (s.term, i) !in h.ballots && s.role != Leader
    requires !(s.term in h.terms && h.terms[s.term].leader == i)
    ensures Inv(n, Put(c, i, OwnVote(s, i), {}, {}), Voted(h, i, s.term, i, s.log))
  {
    PutTwice(c, i, s, OwnVote(s, i), {}, {});
    SelfVote(n, Put(c, i, s, {}, {}), h, i);
  }

  lemma NewTermStep(n: nat, c: Cluster, h: History, i: nat)
    requires Inv(n, c, h) && i < n && c.servers[i].role != Leader
    ensures |c.servers| == n && Inv(n, Put(c, i, NextTerm(c.servers[i]), {}, {}), h)
    ensures var T := c.servers[i].term + 1;
            (T, i) !in h.ballots && !(T in h.terms && h.terms[T].leader == i)
  {
    assert ServerOk(n, h, i, c.servers[i]);
    NewTerm(n, c, h, i);
    NewTermOk(n, h, i, c.servers[i]);
    QuietStep(n, c, h, i, NextTerm(c.servers[i]), {}, {});
  }

  lemma NewTermOk(n: nat, h: History, i: nat, s: Server)
    requires ServerOk(n, h, i, s) && s.role != Leader && (s.term + 1, i) !in h.ballots
    ensures ServerOk(n, h, i, NextTerm(s)) && Quiet(s, NextTerm(s))
  {
    CommitLater(n, h, s.log, s.commitIndex, s.term, s.commitIndex, s.term + 1);
  }

  lemma SelfVote(n: nat, c: Cluster, h: History, i: nat)
    requires Inv(n, c, h) && i < n
    requires var s := c.servers[i];
             && s.term >= 1 && (s.term, i) !in h.ballots && s.role != Leader
             && !(s.term in h.terms && h.terms[s.term].leader == i)
    ensures var s := c.servers[i];
            Inv(n, Put(c, i, OwnVote(s, i), {}, {}), Voted(h, i, s.term, i, s.log))
  {
    var s := c.servers[i];
    assert ServerOk(n, h, i, s);
    VoteStep(n, c, h, i, i, OwnVote(s, i));
  }

  // A server has neither voted nor been elected in a term it has not reached.
  lemma NewTerm(n: nat, c: Cluster, h: History, i: nat)
    requires |c.servers| == n && i < n && TermsOk(n, h) && BallotsOk(n, c, h)
    ensures var T := c.servers[i].term + 1;
            (T, i) !in h.ballots && !(T in h.terms && h.terms[T].leader == i)
  {
    var T := c.servers[i].term + 1;
    if T in h.terms {
      assert ReignOk(n, h, T);
      var v :| v in h.terms[T].quorum;
      assert VotedInto(h.terms[T], h.ballots[(T, v)]);
      assert BallotOk(n, c, h, T, v);
    }
  }

  // A server that changes nothing sends a message.
  lemma SendStep(n: nat, c: Cluster, h: History, i: nat, m: Message)
    requires Inv(n, c, h) && i < n && MessageOk(n, c, h, m)
    ensures Inv(n, Put(c, i, c.servers[i], {m}, {}), h)
  {
    PutSame(c, i, {m}, {});
    SendNet(n, c, h, i, m);
  }

  lemma SendNet(n: nat, c: Cluster, h: History, i: nat, m: Message)
    requires |c.servers| == n && i < n && NetOk(n, c, h) && MessageOk(n, c, h, m)
    ensures NetOk(n, Put(c, i, c.servers[i], {m}, {}), h)
  {
    var c' := Put(c, i, c.servers[i], {m}, {});
    PutSame(c, i, {m}, {});
    forall m' | m' in c'.net
      ensures MessageOk(n, c', h, m')
    {
      assert MessageOk(n, c, h, m');
    }
  }

  lemma SendVoteRequestsKeeps(n: nat, c: Cluster, h: History, i: nat)
    requires Inv(n, c, h) && i < n && c.servers[i].poll.Polling? && |c.servers[i].log| >= 1
    ensures var s := c.servers[i];
            Inv(n, Put(c, i, s, {VoteRequest(VoteArgs(s.poll.term, i, LastIndex(s.log), LastTerm(s.log)))}, {}), h)
  {
    var s := c.servers[i];
    assert ServerOk(n, h, i, s);
    SendStep(n, c, h, i, VoteRequest(VoteArgs(s.poll.term, i, LastIndex(s.log), LastTerm(s.log))));
  }

  // ---------- Votes ----------

  lemma VoteRequestKeeps(n: nat, c: Cluster, h: History, i: nat, vote: VoteArgs)
    requires Inv(n, c, h) && i < n && WellFormed(c.servers[i])
    requires VoteRequest(vote) in c.net && i != vote.candidate
    ensures var s := c.servers[i];
            var r := OnRequestVote(s, vote);
            Inv(n, Put(c, i, r.server, {VoteReply(vote, i, r.term, r.granted)}, {}),
                if r.granted then Voted(h, i, r.server.term, vote.candidate, s.log) else h)
  {
    var s := c.servers[i];
    var r := OnRequestVote(s, vote);
    var s1 := SeeTerm(s, vote.term);
    var c1 := Put(c, i, s1, {}, {});
    var reply := {VoteReply(vote, i, r.term, r.granted)};
    SeeTermStep(n, c, h, i, vote.term);
    PutTwice(c, i, s1, r.server, reply, {});
    if r.granted {
      GrantAndReply(n, c1, h, i, vote);
    } else {
      SendStep(n, c1, h, i, VoteReply(vote, i, r.term, r.granted));
    }
  }

  lemma GrantAndReply(n: nat, c: Cluster, h: History, i: nat, vote: VoteArgs)
    requires Inv(n, c, h) && i < n && VoteRequest(vote) in c.net && i != vote.candidate
    requires var s := c.servers[i];
             && s.term == vote.term && (s.votedFor == NOBODY || s.votedFor == vote.candidate)
             && |s.log| >= 1 && UpToDate(vote.lastLogIndex, vote.lastLogTerm, s.log)
    ensures var s := c.servers[i];
            var s' := Persist(s.(votedFor := vote.candidate));
            Inv(n, Put(c, i, s', {VoteReply(vote, i, s.term, true)}, {}), Voted(h, i, s.term, vote.candidate, s.log))
  {
    var s := c.servers[i];
    var s' := Persist(s.(votedFor := vote.candidate));
    var m := VoteReply(vote, i, s.term, true);
    PutTwice(c, i, s', s', {m}, {});
    GrantStep(n, c, h, i, vote);
    SendStep(n, Put(c, i, s', {}, {}), Voted(h, i, s.term, vote.candidate, s.log), i, m);
  }

  // The vote itself, in the term of the request.
  lemma GrantStep(n: nat, c: Cluster, h: History, i: nat, vote: VoteArgs)
    requires Inv(n, c, h) && i < n && VoteRequest(vote) in c.net && i != vote.candidate
    requires var s := c.servers[i];
             && s.term == vote.term && (s.votedFor == NOBODY || s.votedFor == vote.candidate)
             && |s.log| >= 1 && UpToDate(vote.lastLogIndex, vote.lastLogTerm, s.log)
    ensures var s := c.servers[i];
            var h' := Voted(h, i, s.term, vote.candidate, s.log);
            && Inv(n, Put(c, i, Persist(s.(votedFor := vote.candidate)), {}, {}), h')
            && (s.term, i) in h'.ballots && h'.ballots[(s.term, i)].candidate == vote.candidate
  {
    var s := c.servers[i];
    var s' := Persist(s.(votedFor := vote.candidate));
    assert MessageOk(n, c, h, VoteRequest(vote));
    if (s.term, i) in h.ballots {
      RevoteOk(n, h, i, s, vote.candidate);
      QuietStep(n, c, h, i, s', {}, {});
    } else {
      RequestedVote(n, c, h, i, vote);
      VoteStep(n, c, h, i, vote.candidate, s');
    }
  }

  // Voting again for the same candidate only saves the state again.
  lemma RevoteOk(n: nat, h: History, i: nat, s: Server, candidate: nat)
    requires ServerOk(n, h, i, s) && (s.votedFor == NOBODY || s.votedFor == candidate) && (s.term, i) in h.ballots
    ensures ServerOk(n, h, i, Persist(s.(votedFor := candidate)))
    ensures h.ballots[(s.term, i)].candidate == candidate
  {
  }

  lemma RequestedVote(n: nat, c: Cluster, h: History, i: nat, vote: VoteArgs)
    requires |c.servers| == n && i < n && HistoryOk(n, h) && ServersOk(n, c, h)
    requires MessageOk(n, c, h, VoteRequest(vote))
    requires var s := c.servers[i];
             && s.term == vote.term && (s.term, i) !in h.ballots
             && |s.log| >= 1 && UpToDate(vote.lastLogIndex, vote.lastLogTerm, s.log)
    ensures MayVote(n, c, h, i, vote.candidate)
  {
    assert ServerOk(n, h, vote.candidate, c.servers[vote.candidate]);
  }

  lemma VoteReplyKeeps(n: nat, c: Cluster, h: History, i: nat, vote: VoteArgs, voter: nat, term: nat, granted: bool)
    requires Inv(n, c, h) && i < n && vote.candidate == i && VoteReply(vote, voter, term, granted) in c.net
    requires var s := c.servers[i];
             s.poll.Polling? && s.poll.term == vote.term && voter !in s.poll.answered
    ensures var s := c.servers[i];
            var s' := OnVoteReply(s, n, voter, term, granted);
            Inv(n, Put(c, i, s', {}, {}),
                if s'.role == Leader && s.role != Leader then Elected(h, n, s', i) else h)
  {
    var s := c.servers[i];
    assert MessageOk(n, c, h, VoteReply(vote, voter, term, granted));
    if s.term > s.poll.term || s.role != Candidate {
      EndPollStep(n, c, h, i);
    } else {
      CountVoteStep(n, c, h, i, voter, granted, term);
      VoteReplyShape(s, n, voter, term, granted);
      if OnVoteReply(s, n, voter, term, granted).role == Leader {
        WinStep(n, c, h, i, SeeTerm(s.(poll := Counted(s.poll, voter, granted)), term));
      }
    }
  }

  // The voter is counted first, and only if it granted its vote; then the majority is tested.
  lemma VoteReplyShape(s: Server, n: nat, voter: nat, term: nat, granted: bool)
    requires s.poll.Polling? && s.term <= s.poll.term && s.role == Candidate
    ensures var s2 := SeeTerm(s.(poll := Counted(s.poll, voter, granted)), term);
            var s' := OnVoteReply(s, n, voter, term, granted);
            if s'.role == Leader
            then s' == s2.(role := Leader, leaderInitDone := false) && s2.role == Candidate && s2.poll.votes > n / 2 &&
            s2.term == s.term
            else s' == s2
  {
  }

  lemma WinStep(n: nat, c: Cluster, h: History, i: nat, s2: Server)
    requires |c.servers| == n && i < n && Inv(n, Put(c, i, s2, {}, {}), h)
    requires s2.role == Candidate && s2.poll.Polling? && s2.poll.term == s2.term && s2.poll.votes > n / 2
    ensures var s' := s2.(role := Leader, leaderInitDone := false);
            Inv(n, Put(c, i, s', {}, {}), Elected(h, n, s', i))
  {
    PutTwice(c, i, s2, s2.(role := Leader, leaderInitDone := false), {}, {});
    TakeOffice(n, Put(c, i, s2, {}, {}), h, i);
  }

  lemma CountVoteStep(n: nat, c: Cluster, h: History, i: nat, voter: nat, granted: bool, term: nat)
    requires Inv(n, c, h) && i < n
    requires c.servers[i].poll.Polling? && voter !in c.servers[i].poll.answered && voter != i && voter < n
    requires var T := c.servers[i].poll.term;
             granted ==> (T, voter) in h.ballots && h.ballots[(T, voter)].candidate == i
    ensures Inv(n, Put(c, i, SeeTerm(c.servers[i].(poll := Counted(c.servers[i].poll, voter, granted)), term), {}, {}),
                h)
  {
    var s1 := c.servers[i].(poll := Counted(c.servers[i].poll, voter, granted));
    CountVote(n, h, i, c.servers[i], voter, granted);
    QuietStep(n, c, h, i, s1, {}, {});
    SeeTermStep(n, Put(c, i, s1, {}, {}), h, i, term);
    PutTwice(c, i, s1, SeeTerm(s1, term), {}, {});
  }

  lemma EndPollStep(n: nat, c: Cluster, h: History, i: nat)
    requires Inv(n, c, h) && i < n
    ensures Inv(n, Put(c, i, c.servers[i].(poll := NoPoll), {}, {}), h)
  {
    EndPoll(n, h, i, c.servers[i]);
    QuietStep(n, c, h, i, c.servers[i].(poll := NoPoll), {}, {});
  }

  lemma EndPoll(n: nat, h: History, i: nat, s: Server)
    requires ServerOk(n, h, i, s)
    ensures ServerOk(n, h, i, s.(poll := NoPoll))
  {
  }

  lemma TakeOffice(n: nat, c: Cluster, h: History, i: nat)
    requires Inv(n, c, h) && i < n
    requires var s := c.servers[i];
             s.role == Candidate && s.poll.Polling? && s.poll.term == s.term && s.poll.votes > n / 2
    ensures var s' := c.servers[i].(role := Leader, leaderInitDone := false);
            Inv(n, Put(c, i, s', {}, {}), Elected(h, n, s', i))
  {
    var s := c.servers[i];
    assert ServerOk(n, h, i, s);
    Majority(n, h, i, s);
    FirstElected(n, h, i, s);
    ElectStep(n, c, h, i, s.(role := Leader, leaderInitDone := false));
  }

  ghost function Counted(poll: Poll, voter: nat, granted: bool): Poll
    requires poll.Polling?
  {
    Polling(poll.term, poll.answered + {voter}, if granted then poll.votes + 1 else poll.votes)
  }

  lemma CountVote(n: nat, h: History, i: nat, s: Server, voter: nat, granted: bool)
    requires ServerOk(n, h, i, s) && s.poll.Polling? && voter !in s.poll.answered && voter != i && voter < n
    requires granted ==> (s.poll.term, voter) in h.ballots && h.ballots[(s.poll.term, voter)].candidate == i
    ensures ServerOk(n, h, i, s.(poll := Counted(s.poll, voter, granted)))
  {
    var G := Granters(h, n, s.poll.term, i);
    var before, after := G * (s.poll.answered + {i}), G * (s.poll.answered + {voter} + {i});
    if granted {
      assert after == before + {voter};
    } else {
      Smaller(before, after);
    }
  }

  lemma Majority(n: nat, h: History, i: nat, s: Server)
    requires s.poll.Polling? && PollOk(n, h, i, s) && s.poll.votes > n / 2
    ensures 2 * |Granters(h, n, s.poll.term, i)| > n
  {
    var G := Granters(h, n, s.poll.term, i);
    Smaller(G * (s.poll.answered + {i}), G);
  }

  // ---------- Leading ----------

  lemma BeginLeadershipKeeps(n: nat, c: Cluster, h: History, i: nat)
    requires Inv(n, c, h) && i < n
    ensures Inv(n, Put(c, i, LeaderInit(c.servers[i], n), {}, {}), h)
  {
    LeaderInitOk(n, h, i, c.servers[i]);
    QuietStep(n, c, h, i, LeaderInit(c.servers[i], n), {}, {});
  }

  lemma LeaderInitOk(n: nat, h: History, i: nat, s: Server)
    requires TermsOk(n, h) && ServerOk(n, h, i, s)
    ensures ServerOk(n, h, i, LeaderInit(s, n))
  {
    if s.role == Leader {
      assert ReignOk(n, h, s.term);
    }
  }

  lemma ClientStartKeeps(n: nat, c: Cluster, h: History, i: nat, command: string)
    requires Inv(n, c, h) && i < n
    requires WellFormed(c.servers[i])
    requires Serving(c.servers[i]) ==> i < |c.servers[i].nextIndex| && i < |c.servers[i].matchIndex|
    ensures var s := c.servers[i];
            var s' := Start(s, i, command);
            Inv(n, Put(c, i, s', {}, {}),
                if Serving(s) && s.term in h.terms then AfterCommand(h, i, s, s') else h)
  {
    var s := c.servers[i];
    if Serving(s) {
      StartShape(s, i, command);
      CommandStep(n, c, h, i, Start(s, i, command), Entry(s.term, command));
    } else {
      PutSame(c, i, {}, {});
    }
  }

  lemma StartShape(s: Server, i: nat, command: string)
    requires WellFormed(s) && Serving(s) && i < |s.nextIndex| && i < |s.matchIndex|
    ensures TakesCommand(s, Start(s, i, command), i, Entry(s.term, command))
  {
  }

  // What a serving leader sends is a stretch of its log that reaches its end.
  lemma LeaderAppendOk(n: nat, c: Cluster, h: History, i: nat, args: AppendArgs)
    requires |c.servers| == n && i < n && ServerOk(n, h, i, c.servers[i]) && TermsOk(n, h)
    requires Serving(c.servers[i])
    requires var s := c.servers[i];
             && args.term == s.term && args.leader == i
             && args.prevIndex + |args.entries| == LastIndex(s.log)
             && args.prevTerm == s.log[args.prevIndex].term
             && args.entries == s.log[args.prevIndex + 1..]
             && args.leaderCommit <= LastIndex(s.log)
             && CommitOk(n, h, s.log, args.leaderCommit, s.term)
    ensures AppendOk(n, c, h, args)
  {
    var s := c.servers[i];
    assert s.log[args.prevIndex + 1..] == s.log[args.prevIndex + 1..args.prevIndex + 1 + |args.entries|];
    assert ReignOk(n, h, s.term);
  }

  lemma AppendFromShape(s: Server, i: nat, next: nat, leaderCommit: nat)
    requires CanSendFrom(s, next)
    ensures var args := AppendFrom(s, i, next, leaderCommit);
            && args.term == s.term && args.leader == i && args.leaderCommit == leaderCommit
            && args.prevIndex + |args.entries| == LastIndex(s.log) && args.prevTerm == s.log[args.prevIndex].term
            && args.entries == s.log[args.prevIndex + 1..]
  {
  }

  // In particular entries sent again with the leaderCommit of the first attempt.
  lemma AppendFromOk(n: nat, c: Cluster, h: History, i: nat, next: nat, leaderCommit: nat)
    requires |c.servers| == n && i < n && ServerOk(n, h, i, c.servers[i]) && TermsOk(n, h)
    requires Serving(c.servers[i]) && CanSendFrom(c.servers[i], next)
    requires leaderCommit < |c.servers[i].log| && CommitOk(n, h, c.servers[i].log, leaderCommit, c.servers[i].term)
    ensures AppendOk(n, c, h, AppendFrom(c.servers[i], i, next, leaderCommit))
  {
    AppendFromShape(c.servers[i], i, next, leaderCommit);
    LeaderAppendOk(n, c, h, i, AppendFrom(c.servers[i], i, next, leaderCommit));
  }

  lemma SendAppendKeeps(n: nat, c: Cluster, h: History, i: nat, peer: nat)
    requires Inv(n, c, h) && i < n && peer < n && Serving(c.servers[i])
    requires var s := c.servers[i]; peer < |s.nextIndex| && CanSendFrom(s, s.nextIndex[peer])
    ensures var s := c.servers[i];
            Inv(n, Put(c, i, s, {Append(peer, AppendFrom(s, i, s.nextIndex[peer], s.commitIndex))}, {}), h)
  {
    var s := c.servers[i];
    assert ServerOk(n, h, i, s);
    AppendFromOk(n, c, h, i, s.nextIndex[peer], s.commitIndex);
    SendStep(n, c, h, i, Append(peer, AppendFrom(s, i, s.nextIndex[peer], s.commitIndex)));
  }

  lemma HeartbeatOk(n: nat, c: Cluster, h: History, i: nat)
    requires |c.servers| == n && i < n && ServerOk(n, h, i, c.servers[i]) && TermsOk(n, h)
    requires Serving(c.servers[i])
    ensures AppendOk(n, c, h, HeartbeatArgs(c.servers[i], i))
  {
    LeaderAppendOk(n, c, h, i, HeartbeatArgs(c.servers[i], i));
  }

  lemma SendHeartbeatKeeps(n: nat, c: Cluster, h: History, i: nat, peer: nat)
    requires Inv(n, c, h) && i < n && peer < n && Serving(c.servers[i]) && WellFormed(c.servers[i])
    ensures var s := c.servers[i];
            Inv(n, Put(c, i, s, {Append(peer, HeartbeatArgs(s, i))}, {}), h)
  {
    assert ServerOk(n, h, i, c.servers[i]);
    HeartbeatOk(n, c, h, i);
    SendStep(n, c, h, i, Append(peer, HeartbeatArgs(c.servers[i], i)));
  }
}
