/**
  Runs with some leeway, and how to put one together step by step.
 */
module RaftRuns {
  import opened RaftServer
  import opened RaftCluster

  // The actions are a run with leeway w ...
  ghost predicate IsRunWith(w: Leeway, n: nat, actions: seq<Action>)
    decreases |actions|, 0
  {
    actions == [] ||
    var earlier, last := actions[..|actions| - 1], actions[|actions| - 1];
    IsRunWith(w, n, earlier) && CanHappen(w, AfterWith(w, n, earlier), last)
  }

  ghost predicate CanHappen(w: Leeway, c: Cluster, a: Action) {
    Possible(c, a) && Within(w, c, a) && Safe(c, a)
  }

  // ... that ends in this state.
  ghost function AfterWith(w: Leeway, n: nat, actions: seq<Action>): Cluster
    requires IsRunWith(w, n, actions)
    decreases |actions|, 1
  {
    if actions == [] then Init(n)
    else Do(AfterWith(w, n, actions[..|actions| - 1]), actions[|actions| - 1])
  }

  lemma {:induction false} SameRuns(n: nat, actions: seq<Action>)
    requires IsRunWith(NO_LEEWAY, n, actions)
    ensures IsRun(n, actions) && After(n, actions) == AfterWith(NO_LEEWAY, n, actions)
    decreases |actions|
  {
    if actions != [] {
      SameRuns(n, actions[..|actions| - 1]);
    }
  }

  // ---------- One step ----------

  // A run so far: the servers it has led to, and some of the messages sent.
  datatype Scene = Scene(leeway: Leeway, actions: seq<Action>, servers: seq<Server>, sent: set<Message>)

  ghost predicate Played(x: Scene) {
    && IsRunWith(x.leeway, |x.servers|, x.actions)
    && Now(x).servers == x.servers
    && forall m :: m in x.sent ==> m in Now(x).net
  }

  ghost function Now(x: Scene): Cluster
    requires IsRunWith(x.leeway, |x.servers|, x.actions)
  {
    AfterWith(x.leeway, |x.servers|, x.actions)
  }

  // y goes on from x, with the servers and messages as given.
  ghost predicate Follows(x: Scene, y: Scene, servers: seq<Server>, sent: set<Message>) {
    Played(y) && y.leeway == x.leeway && y.servers == servers && x.sent + sent <= y.sent
  }

  lemma Act(x: Scene, a: Action, s': Server, sent: set<Message>) returns (y: Scene)
    requires Played(x) && CanHappen(x.leeway, Now(x), a)
    requires Next(Now(x), a) == s' && sent <= Sent(Now(x), a)
    ensures Actor(a) < |x.servers| && Follows(x, y, x.servers[Actor(a) := s'], sent)
    ensures y.actions == x.actions + [a]
  {
    assert (x.actions + [a])[..|x.actions|] == x.actions;
    y := Scene(x.leeway, x.actions + [a], x.servers[Actor(a) := s'], x.sent + sent);
  }

  // A server that has taken no snapshot and whose image on disk is current.
  ghost function Current(term: nat, votedFor: int, role: Role, log: seq<Entry>, commit: nat, applied: nat,
                         next: seq<nat>, matched: seq<nat>, init: bool, poll: Poll): Server {
    Server(term, votedFor, role, log, 0, commit, applied, next, matched, init, Saved(term, votedFor, 0, log), poll)
  }

  // A server that has led nobody.
  ghost function Plain(term: nat, votedFor: int, log: seq<Entry>): Server {
    Current(term, votedFor, Follower, log, 0, 0, [], [], false, NoPoll)
  }

  ghost const START := Plain(0, NOBODY, [GENESIS])

  // ---------- Elections ----------

  ghost function Candidacy(s: Server, i: nat): Server {
    DoElection(s.(role := Candidate), i)
  }

  ghost function Vote(s: Server, i: nat): VoteArgs
    requires |s.log| >= 1
  {
    VoteArgs(s.term + 1, i, LastIndex(s.log), LastTerm(s.log))
  }

  ghost function Grantor(t: Server, vote: VoteArgs): Server {
    Persist(StepDown(t, vote.term).(votedFor := vote.candidate))
  }

  ghost function Counted(s: Server, j: nat, n: nat): Server
    requires s.poll.Polling?
  {
    var s1 := s.(poll := Polling(s.poll.term, s.poll.answered + {j}, s.poll.votes + 1));
    if s1.poll.votes > n / 2 then s1.(role := Leader, leaderInitDone := false) else s1
  }

  // t would vote for s in the next term of s.
  ghost predicate Willing(s: Server, t: Server) {
    WellFormed(s) && WellFormed(t) && t.term <= s.term && UpToDate(LastIndex(s.log), LastTerm(s.log), t.log)
  }

  lemma Campaigns(x: Scene, i: nat) returns (y: Scene)
    requires Played(x) && i < |x.servers| && WellFormed(x.servers[i])
    requires x.leeway.lateElections || x.servers[i].role != Leader
    ensures Follows(x, y, x.servers[i := DoElection(x.servers[i], i)], {})
  {
    y := Act(x, Campaign(i), DoElection(x.servers[i], i), {});
  }

  // Server i times out, campaigns, and asks for votes.
  lemma Asks(x: Scene, i: nat) returns (y: Scene)
    requires Played(x) && i < |x.servers| && x.servers[i].role == Follower && WellFormed(x.servers[i])
    ensures Follows(x, y, x.servers[i := Candidacy(x.servers[i], i)], {VoteRequest(Vote(x.servers[i], i))})
  {
    var s := Candidacy(x.servers[i], i);
    y := Act(x, Timeout(i), x.servers[i].(role := Candidate), {});
    y := Campaigns(y, i);
    y := Act(y, SendVoteRequests(i), s, {VoteRequest(Vote(x.servers[i], i))});
    assert x.servers[i := x.servers[i].(role := Candidate)][i := s][i := s] == x.servers[i := s];
  }

  lemma Grants(x: Scene, vote: VoteArgs, j: nat) returns (y: Scene)
    requires Played(x) && j < |x.servers| && VoteRequest(vote) in x.sent && j != vote.candidate
    requires WellFormed(x.servers[j]) && x.servers[j].term < vote.term
    requires UpToDate(vote.lastLogIndex, vote.lastLogTerm, x.servers[j].log)
    ensures Follows(x, y, x.servers[j := Grantor(x.servers[j], vote)], {VoteReply(vote, j, vote.term, true)})
  {
    assert OnRequestVote(x.servers[j], vote) == VoteOutcome(Grantor(x.servers[j], vote), vote.term, true);
    y := Act(x, DeliverVoteRequest(j, vote), Grantor(x.servers[j], vote), {VoteReply(vote, j, vote.term, true)});
  }

  lemma Counts(x: Scene, vote: VoteArgs, j: nat) returns (y: Scene)
    requires Played(x) && vote.candidate < |x.servers| && VoteReply(vote, j, vote.term, true) in x.sent
    requires var s := x.servers[vote.candidate];
             && s.role == Candidate && s.term == vote.term && WellFormed(s)
             && s.poll.Polling? && s.poll.term == s.term && j !in s.poll.answered
    ensures Follows(x, y, x.servers[vote.candidate := Counted(x.servers[vote.candidate], j, |x.servers|)], {})
  {
    var s, n := x.servers[vote.candidate], |x.servers|;
    assert OnVoteReply(s, n, j, vote.term, true) == Counted(s, j, n);
    y := Act(x, DeliverVoteReply(vote, j, vote.term, true), Counted(s, j, n), {});
  }

  // Server j votes for the candidate, and the vote is counted.
  lemma VotesFor(x: Scene, vote: VoteArgs, j: nat) returns (y: Scene)
    requires Played(x) && vote.candidate < |x.servers| && j < |x.servers| && j != vote.candidate
    requires VoteRequest(vote) in x.sent && WellFormed(x.servers[j]) && x.servers[j].term < vote.term
    requires UpToDate(vote.lastLogIndex, vote.lastLogTerm, x.servers[j].log)
    requires var s := x.servers[vote.candidate];
             && s.role == Candidate && s.term == vote.term && WellFormed(s)
             && s.poll.Polling? && s.poll.term == s.term && j !in s.poll.answered
    ensures Follows(x, y, x.servers[j := Grantor(x.servers[j], vote)]
                                   [vote.candidate := Counted(x.servers[vote.candidate], j, |x.servers|)], {})
  {
    y := Grants(x, vote, j);
    y := Counts(y, vote, j);
  }

  // Server i stands for election and gets the vote of j.
  lemma Stands(x: Scene, i: nat, j: nat) returns (y: Scene)
    requires Played(x) && i < |x.servers| && j < |x.servers| && i != j
    requires x.servers[i].role == Follower && Willing(x.servers[i], x.servers[j])
    ensures var vote, s := Vote(x.servers[i], i), Candidacy(x.servers[i], i);
            Follows(x, y, x.servers[j := Grantor(x.servers[j], vote)][i := Counted(s, j, |x.servers|)],
                    {VoteRequest(vote)})
  {
    var vote, s := Vote(x.servers[i], i), Candidacy(x.servers[i], i);
    y := Asks(x, i);
    y := VotesFor(y, vote, j);
    var t, s' := Grantor(x.servers[j], vote), Counted(s, j, |x.servers|);
    assert x.servers[i := s][j := t][i := s'] == x.servers[j := t][i := s'];
  }

  // ---------- Replication ----------

  lemma Begins(x: Scene, i: nat, s': Server) returns (y: Scene)
    requires Played(x) && i < |x.servers| && WellFormed(x.servers[i]) && s' == LeaderInit(x.servers[i], |x.servers|)
    ensures Follows(x, y, x.servers[i := s'], {})
  {
    y := Act(x, BeginLeadership(i), s', {});
  }

  lemma Commands(x: Scene, i: nat, command: string, s': Server) returns (y: Scene)
    requires Played(x) && i < |x.servers| && WellFormed(x.servers[i])
    requires i < |x.servers[i].nextIndex| && i < |x.servers[i].matchIndex|
    requires s' == RaftServer.Start(x.servers[i], i, command)
    ensures Follows(x, y, x.servers[i := s'], {})
  {
    y := Act(x, ClientStart(i, command), s', {});
  }

  // Server i takes office and then a command.
  lemma Leads(x: Scene, i: nat, command: string, s: Server, s': Server) returns (y: Scene)
    requires Played(x) && i < |x.servers| && WellFormed(x.servers[i]) && s == LeaderInit(x.servers[i], |x.servers|)
    requires s' == RaftServer.Start(s, i, command)
    ensures Follows(x, y, x.servers[i := s'], {})
  {
    y := Begins(x, i, s);
    y := Commands(y, i, command, s');
    assert x.servers[i := s][i := s'] == x.servers[i := s'];
  }

  lemma Accepts(x: Scene, j: nat, args: AppendArgs, t': Server) returns (y: Scene)
    requires Played(x) && j < |x.servers| && WellFormed(x.servers[j]) && Append(j, args) in x.sent && j != args.leader
    requires OnAppendEntries(x.servers[j], args) == AppendOutcome(t', args.term, true, 0, false)
    ensures Follows(x, y, x.servers[j := t'], {AppendReply(j, args, args.term, true, 0)})
  {
    y := Act(x, DeliverAppend(j, args), t', {AppendReply(j, args, args.term, true, 0)});
  }

  // Server i sends j what it has not got yet, and j takes it.
  lemma Copies(x: Scene, i: nat, j: nat, args: AppendArgs, t': Server) returns (y: Scene)
    requires Played(x) && i < |x.servers| && j < |x.servers| && i != j && WellFormed(x.servers[j])
    requires var s := x.servers[i];
             && WellFormed(s) && Serving(s) && j < |s.nextIndex| && s.base < s.nextIndex[j] < |s.log|
             && args == AppendFrom(s, i, s.nextIndex[j], s.commitIndex)
    requires OnAppendEntries(x.servers[j], args) == AppendOutcome(t', args.term, true, 0, false)
    ensures Follows(x, y, x.servers[j := t'], {AppendReply(j, args, args.term, true, 0)})
  {
    y := Act(x, SendAppend(i, j), x.servers[i], {Append(j, args)});
    assert x.servers[i := x.servers[i]] == x.servers;
    y := Accepts(y, j, args, t');
  }

  // Server i sends j a heartbeat, and j answers it.
  lemma Beats(x: Scene, i: nat, j: nat, args: AppendArgs, t': Server) returns (y: Scene)
    requires Played(x) && i < |x.servers| && j < |x.servers| && i != j && WellFormed(x.servers[j])
    requires WellFormed(x.servers[i]) && Serving(x.servers[i]) && args == HeartbeatArgs(x.servers[i], i)
    requires OnAppendEntries(x.servers[j], args) == AppendOutcome(t', args.term, true, 0, false)
    ensures Follows(x, y, x.servers[j := t'], {AppendReply(j, args, args.term, true, 0)})
  {
    y := Act(x, SendHeartbeat(i, j), x.servers[i], {Append(j, args)});
    assert x.servers[i := x.servers[i]] == x.servers;
    y := Accepts(y, j, args, t');
  }

  // The acceptance is counted by the leadership that asked for it.
  lemma Acknowledges(x: Scene, peer: nat, args: AppendArgs, s': Server) returns (y: Scene)
    requires Played(x) && args.leader < |x.servers| && AppendReply(peer, args, args.term, true, 0) in x.sent
    requires var s := x.servers[args.leader];
             && WellFormed(s) && !args.heartbeat && IsCurrentReply(s, args)
             && peer < |s.nextIndex| && peer < |s.matchIndex|
             && s' == Acknowledge(s, peer, args.prevIndex + |args.entries|)
    ensures Follows(x, y, x.servers[args.leader := s'], {})
  {
    y := Act(x, DeliverAppendReply(peer, args, args.term, true, 0), s', {});
  }

  // The answer to a heartbeat is counted.
  lemma CountsBeat(x: Scene, peer: nat, args: AppendArgs, s': Server) returns (y: Scene)
    requires Played(x) && args.leader < |x.servers| && AppendReply(peer, args, args.term, true, 0) in x.sent
    requires var s := x.servers[args.leader];
             && WellFormed(s) && args.heartbeat && StaleWithin(x.leeway.staleBy, s, args, true)
             && peer < |s.nextIndex| && peer < |s.matchIndex|
             && s' == OnHeartbeatReply(s, args, peer, args.term, true)
    ensures Follows(x, y, x.servers[args.leader := s'], {})
  {
    y := Act(x, DeliverHeartbeatReply(peer, args, args.term, true, 0), s', {});
  }

  lemma Raises(x: Scene, i: nat, s': Server) returns (y: Scene)
    requires Played(x) && i < |x.servers| && WellFormed(x.servers[i])
    requires s' == TryIncrementCommitIndex(x.servers[i], |x.servers|)
    ensures Follows(x, y, x.servers[i := s'], {})
  {
    y := Act(x, RaftCluster.Commit(i), s', {});
  }

  // ---------- Three servers, one command ----------

  // With leeway w the servers get to these states.
  ghost predicate Staged(x: Scene, w: Leeway, servers: seq<Server>) {
    Played(x) && x.leeway == w && x.servers == servers
  }

  ghost function Led(log: seq<Entry>, next: seq<nat>, matched: seq<nat>, init: bool, commit: nat): Server {
    Current(1, 0, Leader, log, commit, 0, next, matched, init, Polling(1, {1}, 2))
  }

  const LOG := [GENESIS, Entry(1, "x")]

  const ENTRY := AppendArgs(1, 0, [Entry(1, "x")], 0, 0, 0, false)

  const BEAT := AppendArgs(1, 0, [], 1, 1, 1, true)

  // Server 0 as leader with the command, when server 1 is known to hold the log up to `matched`.
  ghost function Chief(matched: nat, commit: nat): Server {
    Led(LOG, [2, matched + 1, 1], [1, matched, 0], true, commit)
  }

  ghost const VOTER := Plain(1, 0, [GENESIS])

  // Server 1 with the command.
  ghost function Holder(commit: nat, applied: nat): Server {
    Current(1, 0, Follower, LOG, commit, applied, [], [], false, NoPoll)
  }

  lemma LedByOne()
    ensures Counted(Candidacy(START, 0), 1, 3) == Led([GENESIS], [], [], false, 0)
    ensures Grantor(START, Vote(START, 0)) == VOTER
  {
    var none: set<nat> := {};
    assert none + {1} == {1};
  }

  // Server 0 leads term 1, elected by server 1.
  lemma FirstLeader(w: Leeway) returns (x: Scene)
    ensures Staged(x, w, [Led([GENESIS], [], [], false, 0), VOTER, START])
  {
    LedByOne();
    x := Scene(w, [], [START, START, START], {});
    x := Stands(x, 0, 1);
  }

  lemma ChiefComesToBe()
    ensures LeaderInit(Led([GENESIS], [], [], false, 0), 3) == Led([GENESIS], [1, 1, 1], [0, 0, 0], true, 0)
    ensures RaftServer.Start(Led([GENESIS], [1, 1, 1], [0, 0, 0], true, 0), 0, "x") == Chief(0, 0)
  {
    assert seq(3, _ => 1) == [1, 1, 1] && seq(3, _ => 0) == [0, 0, 0];
    assert [GENESIS] + [Entry(1, "x")] == LOG;
  }

  lemma TakesCommand(w: Leeway) returns (x: Scene)
    ensures Staged(x, w, [Chief(0, 0), VOTER, START])
  {
    ChiefComesToBe();
    x := FirstLeader(w);
    x := Leads(x, 0, "x", Led([GENESIS], [1, 1, 1], [0, 0, 0], true, 0), Chief(0, 0));
  }

  lemma EntryIsTaken()
    ensures AppendFrom(Chief(0, 0), 0, 1, 0) == ENTRY
    ensures OnAppendEntries(VOTER, ENTRY) == AppendOutcome(Holder(0, 0), 1, true, 0, false)
    ensures Acknowledge(Chief(0, 0), 1, 1) == Chief(1, 0)
  {
    assert Merge([GENESIS], 1, [Entry(1, "x")]) == LOG;
  }

  // The command reaches server 1.
  lemma Replicates(w: Leeway) returns (x: Scene)
    ensures Staged(x, w, [Chief(0, 0), Holder(0, 0), START]) && AppendReply(1, ENTRY, 1, true, 0) in x.sent
  {
    EntryIsTaken();
    x := TakesCommand(w);
    x := Copies(x, 0, 1, ENTRY, Holder(0, 0));
  }

  lemma ChiefCommits()
    ensures TryIncrementCommitIndex(Chief(1, 0), 3) == Chief(1, 1)
  {
    var s := Chief(1, 0);
    assert Holders(s, 1) == {0, 1};
    assert Committable(s, 3, 1);
    assert CommitScan(s, 3, 2, 1) == 1;
  }

  // Two of three hold it, so the leader commits it.
  lemma Commits(w: Leeway) returns (x: Scene)
    ensures Staged(x, w, [Chief(1, 1), Holder(0, 0), START])
  {
    EntryIsTaken();
    ChiefCommits();
    x := Replicates(w);
    x := Acknowledges(x, 1, ENTRY, Chief(1, 0));
    x := Raises(x, 0, Chief(1, 1));
  }

  lemma BeatIsTaken()
    ensures HeartbeatArgs(Chief(1, 1), 0) == BEAT
    ensures OnAppendEntries(Holder(0, 0), BEAT) == AppendOutcome(Holder(1, 0), 1, true, 0, false)
  {
  }

  // The next heartbeat tells server 1.
  lemma Informs(w: Leeway) returns (x: Scene)
    ensures Staged(x, w, [Chief(1, 1), Holder(1, 0), START])
  {
    BeatIsTaken();
    x := Commits(w);
    x := Beats(x, 0, 1, BEAT, Holder(1, 0));
  }

  lemma Applies(w: Leeway) returns (x: Scene)
    ensures Staged(x, w, [Chief(1, 1), Holder(1, 1), START]) && ApplyMsg(1, 1, "x") in Now(x).delivered
  {
    x := Informs(w);
    var c := Now(x);
    assert ApplyMsg(1, 1, "x") in Handed(c, RaftCluster.Apply(1)) by {
      assert c.servers[1].lastApplied < 1 <= c.servers[1].commitIndex && c.servers[1].log[1].command == "x";
    }
    var y := Act(x, RaftCluster.Apply(1), Holder(1, 1), {});
    assert y.actions[..|x.actions|] == x.actions;
    x := y;
  }

  /** Runs do elect leaders, commit entries and hand commands to the service. */
  lemma Delivers() returns (actions: seq<Action>)
    ensures IsRun(3, actions) && ApplyMsg(1, 1, "x") in After(3, actions).delivered
  {
    var x := Applies(NO_LEEWAY);
    actions := x.actions;
    SameRuns(3, actions);
  }
}
