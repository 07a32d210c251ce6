/**
  A reply to an earlier leadership that reaches one index past the entries of earlier terms.  Counted
  by the server's next leadership, it gets an entry committed that only a minority holds.
 */
module RaftStaleReply {
  import opened RaftServer
  import opened RaftCluster
  import opened RaftRuns

  const A := Entry(1, "a")
  const B := Entry(1, "b")
  const C := Entry(2, "c")
  const D := Entry(3, "d")

  const COPY_AB := AppendArgs(1, 0, [A, B], 0, 0, 0, false)
  const BEAT_AB := AppendArgs(1, 0, [], 2, 1, 0, true)
  const COPY_C := AppendArgs(2, 2, [C], 0, 0, 0, false)
  const COPY_D := AppendArgs(3, 0, [D], 1, 2, 0, false)

  // The reply that will be counted too late.
  const STALE := AppendReply(1, BEAT_AB, 1, true, 0)

  // These are the servers, and the reply is still on its way.
  ghost predicate Waits(x: Scene, w: Leeway, servers: seq<Server>) {
    Staged(x, w, servers) && STALE in x.sent
  }

  // ---------- Three votes of five ----------

  // s, elected by j and k.
  ghost function Winner(s: Server, i: nat, j: nat, k: nat): Server {
    Persist(s.(term := s.term + 1, votedFor := i, role := Leader, leaderInitDone := false,
               poll := Polling(s.term + 1, {j, k}, 3)))
  }

  lemma TwoVotesWin(s: Server, i: nat, j: nat, k: nat)
    ensures Counted(Counted(Candidacy(s, i), j, 5), k, 5) == Winner(s, i, j, k)
  {
    var none: set<nat> := {};
    assert none + {j} + {k} == {j, k};
  }

  lemma Elects(x: Scene, i: nat, j: nat, k: nat) returns (y: Scene)
    requires Played(x) && |x.servers| == 5 && i < 5 && j < 5 && k < 5 && i != j && i != k && j != k
    requires x.servers[i].role == Follower
    requires Willing(x.servers[i], x.servers[j]) && Willing(x.servers[i], x.servers[k])
    ensures var vote := Vote(x.servers[i], i);
            Follows(x, y, x.servers[j := Grantor(x.servers[j], vote)][k := Grantor(x.servers[k], vote)]
                                   [i := Winner(x.servers[i], i, j, k)], {})
  {
    var vote, s := Vote(x.servers[i], i), Counted(Candidacy(x.servers[i], i), j, 5);
    var voted := x.servers[j := Grantor(x.servers[j], vote)];
    y := Stands(x, i, j);
    y := VotesFor(y, vote, k);
    TwoVotesWin(x.servers[i], i, j, k);
    assert voted[i := s][k := Grantor(x.servers[k], vote)][i := Winner(x.servers[i], i, j, k)] ==
           voted[k := Grantor(x.servers[k], vote)][i := Winner(x.servers[i], i, j, k)];
  }

  // ---------- Server 0 leads term 1 ----------

  ghost function First(log: seq<Entry>, next: seq<nat>, matched: seq<nat>, init: bool): Server {
    Current(1, 0, Leader, log, 0, 0, next, matched, init, Polling(1, {1, 2}, 3))
  }

  ghost function FirstWithAB(): Server {
    First([GENESIS, A, B], [3, 1, 1, 1, 1], [2, 0, 0, 0, 0], true)
  }

  ghost function WithAB(): Server {
    Plain(1, 0, [GENESIS, A, B])
  }

  lemma FirstElection(w: Leeway) returns (x: Scene)
    ensures Staged(x, w, [First([GENESIS], [], [], false), VOTER, VOTER, START, START])
  {
    x := Scene(w, [], [START, START, START, START, START], {});
    x := Elects(x, 0, 1, 2);
  }

  lemma FirstSteps()
    ensures LeaderInit(First([GENESIS], [], [], false), 5) == First([GENESIS], [1, 1, 1, 1, 1], [0, 0, 0, 0, 0], true)
    ensures RaftServer.Start(First([GENESIS], [1, 1, 1, 1, 1], [0, 0, 0, 0, 0], true), 0, "a") ==
            First([GENESIS, A], [2, 1, 1, 1, 1], [1, 0, 0, 0, 0], true)
  {
    assert seq(5, _ => 1) == [1, 1, 1, 1, 1] && seq(5, _ => 0) == [0, 0, 0, 0, 0];
    assert [GENESIS] + [A] == [GENESIS, A];
    assert [1, 1, 1, 1, 1][0 := 2] == [2, 1, 1, 1, 1] && [0, 0, 0, 0, 0][0 := 1] == [1, 0, 0, 0, 0];
  }

  lemma FirstCommand(w: Leeway) returns (x: Scene)
    ensures Staged(x, w, [First([GENESIS, A], [2, 1, 1, 1, 1], [1, 0, 0, 0, 0], true), VOTER, VOTER, START, START])
  {
    FirstSteps();
    x := FirstElection(w);
    x := Leads(x, 0, "a", First([GENESIS], [1, 1, 1, 1, 1], [0, 0, 0, 0, 0], true),
               First([GENESIS, A], [2, 1, 1, 1, 1], [1, 0, 0, 0, 0], true));
  }

  lemma NextStep()
    ensures RaftServer.Start(First([GENESIS, A], [2, 1, 1, 1, 1], [1, 0, 0, 0, 0], true), 0, "b") == FirstWithAB()
  {
    assert [GENESIS, A] + [B] == [GENESIS, A, B];
    assert [2, 1, 1, 1, 1][0 := 3] == [3, 1, 1, 1, 1] && [1, 0, 0, 0, 0][0 := 2] == [2, 0, 0, 0, 0];
  }

  lemma SecondCommand(w: Leeway) returns (x: Scene)
    ensures Staged(x, w, [FirstWithAB(), VOTER, VOTER, START, START])
  {
    NextStep();
    x := FirstCommand(w);
    x := Commands(x, 0, "b", FirstWithAB());
  }

  lemma CopyIsSent()
    ensures WellFormed(FirstWithAB()) && AppendFrom(FirstWithAB(), 0, 1, 0) == COPY_AB
  {
    assert [GENESIS, A, B][1..] == [A, B];
  }

  lemma CopyIsTaken()
    ensures OnAppendEntries(VOTER, COPY_AB) == AppendOutcome(WithAB(), 1, true, 0, false)
  {
    assert [A, B][1..] == [B] && [GENESIS] + [A] == [GENESIS, A] && [GENESIS, A] + [B] == [GENESIS, A, B];
    assert Merge([GENESIS], 1, [A, B]) == Merge([GENESIS, A], 2, [B]) == [GENESIS, A, B];
  }

  lemma CopiesAB(w: Leeway) returns (x: Scene)
    ensures Staged(x, w, [FirstWithAB(), WithAB(), VOTER, START, START])
  {
    CopyIsSent();
    CopyIsTaken();
    x := SecondCommand(w);
    x := Copies(x, 0, 1, COPY_AB, WithAB());
  }

  lemma BeatIsTaken()
    ensures HeartbeatArgs(FirstWithAB(), 0) == BEAT_AB
    ensures OnAppendEntries(WithAB(), BEAT_AB) == AppendOutcome(WithAB(), 1, true, 0, false)
  {
  }

  // Server 1 says that it holds both entries, but the reply stays on its way.
  lemma Answers(w: Leeway) returns (x: Scene)
    ensures Waits(x, w, [FirstWithAB(), WithAB(), VOTER, START, START])
  {
    BeatIsTaken();
    x := CopiesAB(w);
    x := Beats(x, 0, 1, BEAT_AB, WithAB());
  }

  // ---------- Server 2 leads term 2 ----------

  ghost function Second(log: seq<Entry>, next: seq<nat>, matched: seq<nat>, init: bool): Server {
    Current(2, 2, Leader, log, 0, 0, next, matched, init, Polling(2, {3, 4}, 3))
  }

  ghost function SecondWithC(): Server {
    Second([GENESIS, C], [1, 1, 2, 1, 1], [0, 0, 1, 0, 0], true)
  }

  ghost const OTHER := Plain(2, 2, [GENESIS])

  // Server 0, no longer leader, with the new entry in place of its own.
  ghost function Deposed(): Server {
    Current(2, NOBODY, Follower, [GENESIS, C], 0, 0, [3, 1, 1, 1, 1], [2, 0, 0, 0, 0], true, Polling(1, {1, 2}, 3))
  }

  ghost function WithC(): Server {
    Plain(2, 2, [GENESIS, C])
  }

  lemma SecondVotes()
    ensures Winner(VOTER, 2, 3, 4) == Second([GENESIS], [], [], false) && Grantor(START, Vote(VOTER, 2)) == OTHER
  {
  }

  lemma SecondElection(w: Leeway) returns (x: Scene)
    ensures Waits(x, w, [FirstWithAB(), WithAB(), Second([GENESIS], [], [], false), OTHER, OTHER])
  {
    SecondVotes();
    x := Answers(w);
    x := Elects(x, 2, 3, 4);
  }

  lemma SecondSteps()
    ensures LeaderInit(Second([GENESIS], [], [], false), 5) == Second([GENESIS], [1, 1, 1, 1, 1], [0, 0, 0, 0, 0], true)
    ensures RaftServer.Start(Second([GENESIS], [1, 1, 1, 1, 1], [0, 0, 0, 0, 0], true), 2, "c") == SecondWithC()
    ensures AppendFrom(SecondWithC(), 2, 1, 0) == COPY_C
  {
    assert seq(5, _ => 1) == [1, 1, 1, 1, 1] && seq(5, _ => 0) == [0, 0, 0, 0, 0];
    assert [GENESIS] + [C] == [GENESIS, C] && [GENESIS, C][1..] == [C];
    assert [1, 1, 1, 1, 1][2 := 2] == [1, 1, 2, 1, 1] && [0, 0, 0, 0, 0][2 := 1] == [0, 0, 1, 0, 0];
  }

  lemma ThirdCommand(w: Leeway) returns (x: Scene)
    ensures Waits(x, w, [FirstWithAB(), WithAB(), SecondWithC(), OTHER, OTHER])
  {
    SecondSteps();
    x := SecondElection(w);
    x := Leads(x, 2, "c", Second([GENESIS], [1, 1, 1, 1, 1], [0, 0, 0, 0, 0], true), SecondWithC());
  }

  lemma CReplacesAB()
    ensures WellFormed(FirstWithAB())
    ensures OnAppendEntries(FirstWithAB(), COPY_C) == AppendOutcome(Deposed(), 2, true, 0, false)
  {
    assert Merge([GENESIS, A, B], 1, [C]) == [GENESIS, A, B][..1] + [C] == [GENESIS, C];
  }

  lemma Overwrites(w: Leeway) returns (x: Scene)
    ensures Waits(x, w, [Deposed(), WithAB(), SecondWithC(), OTHER, OTHER])
  {
    SecondSteps();
    CReplacesAB();
    x := ThirdCommand(w);
    x := Copies(x, 2, 0, COPY_C, Deposed());
  }

  lemma CIsTaken()
    ensures OnAppendEntries(OTHER, COPY_C) == AppendOutcome(WithC(), 2, true, 0, false)
  {
    assert Merge([GENESIS], 1, [C]) == [GENESIS, C];
  }

  lemma Spreads(w: Leeway) returns (x: Scene)
    ensures Waits(x, w, [Deposed(), WithAB(), SecondWithC(), OTHER, WithC()])
  {
    SecondSteps();
    CIsTaken();
    x := Overwrites(w);
    x := Copies(x, 2, 4, COPY_C, WithC());
  }

  // ---------- Server 0 leads again, in term 3 ----------

  ghost function Third(log: seq<Entry>, next: seq<nat>, matched: seq<nat>, init: bool, commit: nat): Server {
    Current(3, 0, Leader, log, commit, 0, next, matched, init, Polling(3, {2, 4}, 3))
  }

  ghost function ThirdWithD(next: seq<nat>, matched: seq<nat>, commit: nat): Server {
    Third([GENESIS, C, D], next, matched, true, commit)
  }

  // Server 2, deposed in its turn.
  ghost function Retired(): Server {
    Current(3, 0, Follower, [GENESIS, C], 0, 0, [1, 1, 2, 1, 1], [0, 0, 1, 0, 0], true, Polling(2, {3, 4}, 3))
  }

  ghost function WithD(): Server {
    Plain(3, 0, [GENESIS, C, D])
  }

  lemma ThirdVotes()
    ensures Winner(Deposed(), 0, 2, 4) == Third([GENESIS, C], [3, 1, 1, 1, 1], [2, 0, 0, 0, 0], false, 0)
    ensures Grantor(SecondWithC(), Vote(Deposed(), 0)) == Retired()
    ensures Grantor(WithC(), Vote(Deposed(), 0)) == Plain(3, 0, [GENESIS, C])
  {
  }

  lemma ThirdElection(w: Leeway) returns (x: Scene)
    ensures Waits(x, w, [Third([GENESIS, C], [3, 1, 1, 1, 1], [2, 0, 0, 0, 0], false, 0), WithAB(), Retired(), OTHER,
                         Plain(3, 0, [GENESIS, C])])
  {
    ThirdVotes();
    x := Spreads(w);
    x := Elects(x, 0, 2, 4);
  }

  lemma ThirdSteps()
    ensures LeaderInit(Third([GENESIS, C], [3, 1, 1, 1, 1], [2, 0, 0, 0, 0], false, 0), 5) ==
            Third([GENESIS, C], [2, 2, 2, 2, 2], [0, 0, 0, 0, 0], true, 0)
    ensures RaftServer.Start(Third([GENESIS, C], [2, 2, 2, 2, 2], [0, 0, 0, 0, 0], true, 0), 0, "d") ==
            ThirdWithD([3, 2, 2, 2, 2], [2, 0, 0, 0, 0], 0)
    ensures AppendFrom(ThirdWithD([3, 2, 2, 2, 2], [2, 0, 0, 0, 0], 0), 0, 2, 0) == COPY_D
  {
    assert seq(5, _ => 2) == [2, 2, 2, 2, 2] && seq(5, _ => 0) == [0, 0, 0, 0, 0];
    assert [GENESIS, C] + [D] == [GENESIS, C, D] && [GENESIS, C, D][2..] == [D];
    assert [2, 2, 2, 2, 2][0 := 3] == [3, 2, 2, 2, 2] && [0, 0, 0, 0, 0][0 := 2] == [2, 0, 0, 0, 0];
  }

  lemma FourthCommand(w: Leeway) returns (x: Scene)
    ensures Waits(x, w, [ThirdWithD([3, 2, 2, 2, 2], [2, 0, 0, 0, 0], 0), WithAB(), Retired(), OTHER,
                         Plain(3, 0, [GENESIS, C])])
  {
    ThirdSteps();
    x := ThirdElection(w);
    x := Leads(x, 0, "d", Third([GENESIS, C], [2, 2, 2, 2, 2], [0, 0, 0, 0, 0], true, 0),
               ThirdWithD([3, 2, 2, 2, 2], [2, 0, 0, 0, 0], 0));
  }

  lemma DIsTaken()
    ensures OnAppendEntries(Plain(3, 0, [GENESIS, C]), COPY_D) == AppendOutcome(WithD(), 3, true, 0, false)
  {
    assert Merge([GENESIS, C], 2, [D]) == [GENESIS, C, D];
  }

  // Server 4 holds the new entry, the only other one to do so.
  lemma CopiesD(w: Leeway) returns (x: Scene)
    ensures Waits(x, w, [ThirdWithD([3, 2, 2, 2, 2], [2, 0, 0, 0, 0], 0), WithAB(), Retired(), OTHER, WithD()])
    ensures AppendReply(4, COPY_D, 3, true, 0) in x.sent
  {
    ThirdSteps();
    DIsTaken();
    x := FourthCommand(w);
    x := Copies(x, 0, 4, COPY_D, WithD());
  }

  lemma LearnsD(w: Leeway) returns (x: Scene)
    ensures Waits(x, w, [ThirdWithD([3, 2, 2, 2, 3], [2, 0, 0, 0, 2], 0), WithAB(), Retired(), OTHER, WithD()])
  {
    assert Acknowledge(ThirdWithD([3, 2, 2, 2, 2], [2, 0, 0, 0, 0], 0), 4, 2) ==
           ThirdWithD([3, 2, 2, 2, 3], [2, 0, 0, 0, 2], 0);
    x := CopiesD(w);
    x := Acknowledges(x, 4, COPY_D, ThirdWithD([3, 2, 2, 2, 3], [2, 0, 0, 0, 2], 0));
  }

  // The old reply speaks about index 2; the last entry of an earlier term is at index 1.
  lemma OnePastTheOld()
    ensures LastBefore([GENESIS, C, D], 3) == 1
    ensures StaleWithin(1, ThirdWithD([3, 2, 2, 2, 3], [2, 0, 0, 0, 2], 0), BEAT_AB, true)
    ensures OnHeartbeatReply(ThirdWithD([3, 2, 2, 2, 3], [2, 0, 0, 0, 2], 0), BEAT_AB, 1, 1, true) ==
            ThirdWithD([3, 3, 2, 2, 3], [2, 2, 0, 0, 2], 0)
  {
    assert [GENESIS, C, D][..2] == [GENESIS, C];
  }

  lemma CountsStale(w: Leeway) returns (x: Scene)
    requires w.staleBy >= 1
    ensures Staged(x, w, [ThirdWithD([3, 3, 2, 2, 3], [2, 2, 0, 0, 2], 0), WithAB(), Retired(), OTHER, WithD()])
  {
    OnePastTheOld();
    x := LearnsD(w);
    x := CountsBeat(x, 1, BEAT_AB, ThirdWithD([3, 3, 2, 2, 3], [2, 2, 0, 0, 2], 0));
  }

  lemma ThirdCommits()
    ensures TryIncrementCommitIndex(ThirdWithD([3, 3, 2, 2, 3], [2, 2, 0, 0, 2], 0), 5) ==
            ThirdWithD([3, 3, 2, 2, 3], [2, 2, 0, 0, 2], 2)
  {
    var s := ThirdWithD([3, 3, 2, 2, 3], [2, 2, 0, 0, 2], 0);
    assert Holders(s, 2) == {0, 1, 4};
    assert !Committable(s, 5, 1) && Committable(s, 5, 2);
    assert CommitScan(s, 5, 1, 0) == CommitScan(s, 5, 2, 0) == CommitScan(s, 5, 3, 2) == 2;
  }

  lemma CommitsTooEarly(w: Leeway) returns (x: Scene)
    requires w.staleBy >= 1
    ensures Staged(x, w, [ThirdWithD([3, 3, 2, 2, 3], [2, 2, 0, 0, 2], 2), WithAB(), Retired(), OTHER, WithD()])
  {
    ThirdCommits();
    x := CountsStale(w);
    x := Raises(x, 0, ThirdWithD([3, 3, 2, 2, 3], [2, 2, 0, 0, 2], 2));
  }

  /**
    Server 0 commits an entry that only it and server 4 hold, after counting a reply to an earlier
    leadership as server 1's; server 2 is then elected in a later term without that entry.
   */
  lemma StaleReplyLosesCommit(w: Leeway) returns (actions: seq<Action>)
    requires w.staleBy >= 1
    ensures IsRunWith(w, 5, actions)
    ensures var c := AfterWith(w, 5, actions);
            && |c.servers| == 5
            && c.servers[0].commitIndex == 2 && c.servers[0].log == [GENESIS, C, D]
            && c.servers[2].role == Leader && c.servers[2].term > c.servers[0].term && |c.servers[2].log| == 2
  {
    var x := CommitsTooEarly(w);
    x := Elects(x, 2, 1, 3);
    actions := x.actions;
  }
}
