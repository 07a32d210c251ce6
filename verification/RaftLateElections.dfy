/**
  Elections that a server starts although it has meanwhile become leader: with up to two servers they
  do no harm, with three or more there can be two leaders of one term.
 */
module RaftLateElections {
  import opened RaftServer
  import opened RaftCluster
  import opened RaftRuns

  ghost predicate LeadSameTerm(s: Server, t: Server) {
    s.role == Leader && t.role == Leader && s.term == t.term
  }

  ghost predicate OneLeaderPerTerm(c: Cluster) {
    forall i: nat, j: nat :: i < |c.servers| && j < |c.servers| && LeadSameTerm(c.servers[i], c.servers[j]) ==> i == j
  }

  // ---------- Three servers or more ----------

  // A server that may stand or vote in any later term.
  ghost predicate Blank(s: Server) {
    s.role == Follower && s.log == [GENESIS] && s.base == 0
  }

  ghost function Stretch(first: nat, m: nat): (r: set<nat>)
    ensures forall j :: j in r <==> first <= j < first + m
  {
    if m == 0 then {} else Stretch(first, m - 1) + {first + m - 1}
  }

  // Server i is being elected in its next term and has the votes of the m servers from `first` on.
  ghost predicate HasVotes(x: Scene, y: Scene, i: nat, first: nat, m: nat)
    requires i < |x.servers|
  {
    && Played(y) && y.leeway == x.leeway && |y.servers| == |x.servers| && first + m <= |x.servers|
    && (forall j: nat :: j < |x.servers| && j != i && !(first <= j < first + m) ==> y.servers[j] == x.servers[j])
    && (forall j: nat :: first <= j < first + m ==> Blank(y.servers[j]) && y.servers[j].term == x.servers[i].term + 1)
    && var s, n := y.servers[i], |x.servers|;
    && s.term == x.servers[i].term + 1 && s.log == [GENESIS] && s.base == 0
    && s.role == (if 1 + m > n / 2 then Leader else Candidate)
    && s.poll == Polling(s.term, Stretch(first, m), 1 + m)
  }

  lemma OneMoreVote(x: Scene, y: Scene, i: nat, first: nat, m: nat) returns (z: Scene)
    requires i < first && first + m < |x.servers| && 1 + m <= |x.servers| / 2
    requires Blank(x.servers[i]) && HasVotes(x, y, i, first, m) && VoteRequest(Vote(x.servers[i], i)) in y.sent
    requires Blank(x.servers[first + m]) && x.servers[first + m].term <= x.servers[i].term
    ensures HasVotes(x, z, i, first, m + 1) && VoteRequest(Vote(x.servers[i], i)) in z.sent
  {
    z := VotesFor(y, Vote(x.servers[i], i), first + m);
    assert Stretch(first, m + 1) == Stretch(first, m) + {first + m};
  }

  lemma NoVotesYet(x: Scene, i: nat, first: nat) returns (y: Scene)
    requires Played(x) && |x.servers| >= 2 && i < first <= |x.servers| && Blank(x.servers[i])
    ensures HasVotes(x, y, i, first, 0) && VoteRequest(Vote(x.servers[i], i)) in y.sent
  {
    y := Asks(x, i);
  }

  // Server i stands for election and gets just enough votes, from the servers from `first` on.
  lemma Wins(x: Scene, i: nat, first: nat) returns (y: Scene)
    requires Played(x) && |x.servers| >= 2 && i < first && first + |x.servers| / 2 <= |x.servers|
    requires Blank(x.servers[i])
    requires forall j: nat :: first <= j < |x.servers| ==> Blank(x.servers[j]) && x.servers[j].term <= x.servers[i].term
    ensures HasVotes(x, y, i, first, |x.servers| / 2)
  {
    y := NoVotesYet(x, i, first);
    var m := 0;
    while m < |x.servers| / 2
      invariant m <= |x.servers| / 2
      invariant HasVotes(x, y, i, first, m) && VoteRequest(Vote(x.servers[i], i)) in y.sent
    {
      y := OneMoreVote(x, y, i, first, m);
      m := m + 1;
    }
  }

  /** Server 0, leader of term 1, starts an election late and leads term 2; server 1 wins an election for it too. */
  lemma TwoLeaders(w: Leeway, n: nat) returns (actions: seq<Action>)
    requires w.lateElections && n >= 3
    ensures IsRunWith(w, n, actions)
    ensures var c := AfterWith(w, n, actions);
            |c.servers| == n && LeadSameTerm(c.servers[0], c.servers[1])
  {
    var x := Scene(w, [], seq(n, _ => Fresh()), {});
    x := Wins(x, 0, 1);
    x := Campaigns(x, 0);
    x := Wins(x, 1, 2);
    actions := x.actions;
  }

  // ---------- Two servers ----------

  // The server's own vote, and what its disk says about it.
  ghost predicate VoterOk(i: nat, s: Server) {
    && (s.disk.Saved? ==> s.disk.term == s.term && s.disk.votedFor == s.votedFor)
    && (s.poll.Polling? ==> s.poll.term <= s.term && (s.poll.term == s.term ==> s.votedFor == i))
    && (s.role == Leader ==> s.votedFor == i)
  }

  // Votes were given to the other server; those that a leader gave are for terms the other has left.
  ghost predicate GrantOk(servers: seq<Server>, m: Message)
    requires |servers| == 2
  {
    match m
    case VoteRequest(vote) => vote.candidate < 2
    case VoteReply(vote, voter, _, granted) =>
      && voter < 2 && vote.candidate < 2 && voter != vote.candidate
      && (granted ==>
            && vote.term <= servers[voter].term
            && (vote.term == servers[voter].term ==> servers[voter].votedFor == vote.candidate)
            && (servers[voter].role == Leader ==> vote.term < servers[vote.candidate].term))
    case _ => true
  }

  ghost predicate PairOk(c: Cluster) {
    && |c.servers| == 2 && VoterOk(0, c.servers[0]) && VoterOk(1, c.servers[1])
    && (forall m :: m in c.net ==> GrantOk(c.servers, m))
    && !(c.servers[0].role == Leader && c.servers[1].role == Leader)
  }

  // No vote is given, no poll begun and no election won.
  ghost predicate Tame(s: Server, s': Server) {
    && s.term <= s'.term && (s'.term == s.term ==> s'.votedFor == s.votedFor)
    && (s'.role == Leader ==> s.role == Leader && s'.term == s.term)
    && (s'.poll == s.poll || s'.poll == NoPoll)
    && (|| (s'.disk == s.disk && s'.term == s.term)
        || s'.disk.Wiped?
        || (s'.disk.term == s'.term && s'.disk.votedFor == s'.votedFor))
  }

  lemma TameOk(c: Cluster, i: nat, s': Server, m: Message)
    requires PairOk(c) && i < 2 && Tame(c.servers[i], s') && m in c.net
    ensures VoterOk(i, s') && GrantOk(c.servers[i := s'], m)
  {
    assert GrantOk(c.servers, m);
  }

  ghost predicate VoteAction(a: Action) {
    a.Campaign? || a.DeliverVoteRequest? || a.DeliverVoteReply?
  }

  lemma AppendIsTame(i: nat, s: Server, args: AppendArgs)
    requires VoterOk(i, s) && WellFormed(s)
    ensures Tame(s, OnAppendEntries(s, args).server)
  {
    var s2 := YieldToLeader(SeeTerm(s, args.term), args.term);
    assert Tame(s, s2);
  }

  lemma ReplyIsTame(i: nat, s: Server, args: AppendArgs, peer: nat, term: nat, success: bool, nextRetry: nat)
    requires VoterOk(i, s) && (IsCurrentReply(s, args) ==> peer < |s.nextIndex| && peer < |s.matchIndex|)
    ensures Tame(s, OnAppendReply(s, args, peer, term, success, nextRetry))
    ensures peer < |s.nextIndex| && peer < |s.matchIndex| ==> Tame(s, OnHeartbeatReply(s, args, peer, term, success))
  {
  }

  lemma RestIsTame(w: Leeway, c: Cluster, a: Action)
    requires PairOk(c) && !w.lostImages && CanHappen(w, c, a) && !VoteAction(a)
    requires !a.DeliverAppend? && !a.DeliverAppendReply? && !a.DeliverHeartbeatReply?
    ensures Tame(c.servers[Actor(a)], Next(c, a))
  {
  }

  lemma OthersAreTame(w: Leeway, c: Cluster, a: Action)
    requires PairOk(c) && !w.lostImages && CanHappen(w, c, a) && !VoteAction(a)
    ensures Tame(c.servers[Actor(a)], Next(c, a))
  {
    var i, s := Actor(a), c.servers[Actor(a)];
    assert VoterOk(i, s);
    match a
    case DeliverAppend(_, args) => AppendIsTame(i, s, args);
    case DeliverAppendReply(peer, args, term, success, nextRetry) =>
      ReplyIsTame(i, s, args, peer, term, success, nextRetry);
    case DeliverHeartbeatReply(peer, args, term, success, nextRetry) =>
      ReplyIsTame(i, s, args, peer, term, success, nextRetry);
    case _ => RestIsTame(w, c, a);
  }

  lemma TameStep(w: Leeway, c: Cluster, a: Action)
    requires PairOk(c) && !w.lostImages && CanHappen(w, c, a) && !VoteAction(a)
    ensures PairOk(Do(c, a))
  {
    var i, s', c' := Actor(a), Next(c, a), Do(c, a);
    OthersAreTame(w, c, a);
    forall m | m in c'.net
      ensures GrantOk(c'.servers, m)
    {
      if m in c.net {
        TameOk(c, i, s', m);
      } else {
        assert m in Sent(c, a);
        assert !m.VoteReply?;
      }
    }
  }

  lemma CampaignStep(c: Cluster, a: Action)
    requires PairOk(c) && a.Campaign? && Possible(c, a) && Safe(c, a)
    ensures PairOk(Do(c, a))
  {
    forall m | m in Do(c, a).net
      ensures GrantOk(Do(c, a).servers, m)
    {
      assert GrantOk(c.servers, m);
    }
  }

  lemma VoteShape(i: nat, s: Server, vote: VoteArgs)
    requires VoterOk(i, s) && WellFormed(s) && i != vote.candidate
    ensures var r := OnRequestVote(s, vote);
            && VoterOk(i, r.server) && s.term <= r.server.term && (r.server.role == Leader ==> r.server == s)
            && (r.server.term == s.term ==> s.votedFor == NOBODY || r.server.votedFor == s.votedFor)
            && (r.granted ==> r.server.term == vote.term && r.server.votedFor == vote.candidate &&
                              r.server.role != Leader)
  {
  }

  lemma VoteStep(c: Cluster, a: Action)
    requires PairOk(c) && a.DeliverVoteRequest? && Possible(c, a) && Safe(c, a)
    ensures PairOk(Do(c, a))
  {
    assert GrantOk(c.servers, VoteRequest(a.vote));
    VoteShape(a.i, c.servers[a.i], a.vote);
    forall m | m in Do(c, a).net
      ensures GrantOk(Do(c, a).servers, m)
    {
      if m in c.net {
        assert GrantOk(c.servers, m);
      }
    }
  }

  // The vote that wins comes from the other server, which therefore does not lead.
  lemma ReplyStep(c: Cluster, a: Action)
    requires PairOk(c) && a.DeliverVoteReply? && Possible(c, a) && Safe(c, a)
    ensures PairOk(Do(c, a))
  {
    assert GrantOk(c.servers, VoteReply(a.vote, a.voter, a.term, a.granted));
    forall m | m in Do(c, a).net
      ensures GrantOk(Do(c, a).servers, m)
    {
      assert GrantOk(c.servers, m);
    }
  }

  lemma {:induction false} PairStaysOk(w: Leeway, actions: seq<Action>)
    requires !w.lostImages && IsRunWith(w, 2, actions)
    ensures PairOk(AfterWith(w, 2, actions))
    decreases |actions|
  {
    if actions != [] {
      var earlier, a := actions[..|actions| - 1], actions[|actions| - 1];
      PairStaysOk(w, earlier);
      var c := AfterWith(w, 2, earlier);
      match a
      case Campaign(_) => CampaignStep(c, a);
      case DeliverVoteRequest(_, _) => VoteStep(c, a);
      case DeliverVoteReply(_, _, _, _) => ReplyStep(c, a);
      case _ => TameStep(w, c, a);
    }
  }

  lemma {:induction false} SameSize(w: Leeway, n: nat, actions: seq<Action>)
    requires IsRunWith(w, n, actions)
    ensures |AfterWith(w, n, actions).servers| == n
    decreases |actions|
  {
    if actions != [] {
      SameSize(w, n, actions[..|actions| - 1]);
    }
  }

  lemma NoRoomForTwo(c: Cluster)
    requires |c.servers| <= 1 || PairOk(c)
    ensures OneLeaderPerTerm(c)
  {
  }

  lemma SafeUpToTwo(w: Leeway, n: nat, actions: seq<Action>)
    requires !w.lostImages && n <= 2 && IsRunWith(w, n, actions)
    ensures OneLeaderPerTerm(AfterWith(w, n, actions))
  {
    SameSize(w, n, actions);
    if n == 2 {
      PairStaysOk(w, actions);
    }
    NoRoomForTwo(AfterWith(w, n, actions));
  }

  lemma Broken(c: Cluster, i: nat, j: nat)
    requires i < |c.servers| && j < |c.servers| && i != j && LeadSameTerm(c.servers[i], c.servers[j])
    ensures !OneLeaderPerTerm(c)
  {
  }

  /**
    If elections may start late, every run of n servers has at most one leader in each term exactly
    when there are no more than two servers.
   */
  lemma LateElectionsExactly(w: Leeway, n: nat)
    requires w.lateElections && !w.lostImages
    ensures (forall actions :: IsRunWith(w, n, actions) ==> OneLeaderPerTerm(AfterWith(w, n, actions))) <==> n <= 2
  {
    if n <= 2 {
      forall actions | IsRunWith(w, n, actions)
        ensures OneLeaderPerTerm(AfterWith(w, n, actions))
      {
        SafeUpToTwo(w, n, actions);
      }
    } else {
      var actions := TwoLeaders(w, n);
      Broken(AfterWith(w, n, actions), 0, 1);
    }
  }
}
