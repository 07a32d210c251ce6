/**
  Ballots and elections keep the invariant; in particular no term gets a second leader.
 */
module RaftVoting {
  import opened RaftServer
  import opened RaftCluster
  import opened RaftInvariant
  import opened RaftCompleteness
  import opened RaftSteps

  // ---------- A first ballot ----------

  ghost predicate MayVote(n: nat, c: Cluster, h: History, i: nat, candidate: nat)
    requires |c.servers| == n && i < n
  {
    var s := c.servers[i];
    && 1 <= s.term && (s.term, i) !in h.ballots && candidate < n
    && s.term <= c.servers[candidate].term
    && (s.term !in h.terms && c.servers[candidate].term == s.term ==> AtLeast(c.servers[candidate].log, s.log))
  }

  // Only votedFor, the poll and the disk change.
  ghost predicate CastsBallot(s: Server, s': Server, candidate: nat) {
    && s' == s.(votedFor := candidate, disk := s'.disk, poll := s'.poll)
    && s'.disk == Saved(s'.term, s'.votedFor, s'.base, s'.log)
  }

  lemma VoteHistory(n: nat, c: Cluster, h: History, i: nat, candidate: nat)
    requires |c.servers| == n && i < n && HistoryOk(n, h) && ServerOk(n, h, i, c.servers[i]) && AcksOk(n, c, h)
    requires MayVote(n, c, h, i, candidate)
    ensures var h' := Voted(h, i, c.servers[i].term, candidate, c.servers[i].log);
            Grows(h, h') && HistoryOk(n, h')
  {
    var s := c.servers[i];
    var h' := Voted(h, i, s.term, candidate, s.log);
    assert Grows(h, h');
    forall t | t in h'.terms
      ensures ReignOk(n, h', t)
    {
      assert ReignOk(n, h, t);
      GrowLog(h, h', h.terms[t].log);
    }
    forall T, v | (T, v) in h'.ballots
      ensures 1 <= T && LogOk(h', h'.ballots[(T, v)].log)
    {
      GrowLog(h, h', h'.ballots[(T, v)].log);
    }
    forall v, t | (v, t) in h'.acks
      ensures AckKeptByVotes(n, h', v, t)
    {
      assert AckKeptByVotes(n, h, v, t);
      forall k: nat, T: nat | k <= h'.acks[(v, t)] && t < T && Counts(h', T, v)
        ensures Kept(h', t, k, h'.ballots[(T, v)].log, T)
      {
        VoteKeeps(n, c, h, i, candidate, v, t, k, T);
      }
    }
  }

  // The voter's log still holds what it agreed on with the leader of t.
  lemma OwnVoteKeeps(n: nat, c: Cluster, h: History, i: nat, candidate: nat, t: nat, k: nat)
    requires |c.servers| == n && i < n && AcksOk(n, c, h) && MayVote(n, c, h, i, candidate)
    requires (i, t) in h.acks && k <= h.acks[(i, t)]
    requires Counts(Voted(h, i, c.servers[i].term, candidate, c.servers[i].log), c.servers[i].term, i)
    requires HistoryOk(n, h)
    ensures var h' := Voted(h, i, c.servers[i].term, candidate, c.servers[i].log);
            t in h'.terms && k < |h'.terms[t].log| && Kept(h', t, k, c.servers[i].log, c.servers[i].term)
  {
    var s := c.servers[i];
    var h' := Voted(h, i, s.term, candidate, s.log);
    assert AckKeptByServer(n, c, h, i, t);
    assert KeptBy(h, t, k, s);
    var P := h.terms[t].log[..k + 1];
    if !(P <= s.log) {
      var u :| u in h.terms && t < u < s.term + 1 && !(P <= h.terms[u].startLog);
      assert u < s.term;
      assert Lost(h', P, t, s.term);
    }
  }

  lemma VoteKeeps(n: nat, c: Cluster, h: History, i: nat, candidate: nat, v: nat, t: nat, k: nat, T: nat)
    requires |c.servers| == n && i < n && HistoryOk(n, h) && AcksOk(n, c, h)
    requires MayVote(n, c, h, i, candidate)
    requires (v, t) in h.acks && k <= h.acks[(v, t)] && t < T
    requires Counts(Voted(h, i, c.servers[i].term, candidate, c.servers[i].log), T, v)
    ensures var h' := Voted(h, i, c.servers[i].term, candidate, c.servers[i].log);
            t in h'.terms && k < |h'.terms[t].log| && Kept(h', t, k, h'.ballots[(T, v)].log, T)
  {
    var s := c.servers[i];
    var h' := Voted(h, i, s.term, candidate, s.log);
    assert AckKeptByVotes(n, h, v, t);
    if (T, v) == (s.term, i) {
      OwnVoteKeeps(n, c, h, i, candidate, t, k);
    } else {
      assert Counts(h, T, v);
      assert Kept(h, t, k, h.ballots[(T, v)].log, T);
      GrowKept(h, h', t, k, h.ballots[(T, v)].log, h'.ballots[(T, v)].log, T, T);
    }
  }

  lemma VoteStep(n: nat, c: Cluster, h: History, i: nat, candidate: nat, s': Server)
    requires Inv(n, c, h) && i < n && MayVote(n, c, h, i, candidate)
    requires CastsBallot(c.servers[i], s', candidate)
    requires s'.poll != c.servers[i].poll ==>
               candidate == i && s'.poll == Polling(s'.term, {}, 1) && s'.role != Leader &&
               !(s'.term in h.terms && h.terms[s'.term].leader == i)
    ensures Inv(n, Put(c, i, s', {}, {}), Voted(h, i, s'.term, candidate, s'.log))
  {
    var h' := Voted(h, i, s'.term, candidate, s'.log);
    VoteHistory(n, c, h, i, candidate);
    VoteServers(n, c, h, i, candidate, s');
    VoteBallots(n, c, h, i, candidate, s');
    VoteAcks(n, c, h, i, candidate, s');
    VoteNet(n, c, h, i, candidate, s');
    GrowAllDelivered(n, c, h, h', {});
  }

  lemma VoteServers(n: nat, c: Cluster, h: History, i: nat, candidate: nat, s': Server)
    requires |c.servers| == n && i < n && ServersOk(n, c, h) && MayVote(n, c, h, i, candidate)
    requires CastsBallot(c.servers[i], s', candidate)
    requires s'.poll != c.servers[i].poll ==>
               candidate == i && s'.poll == Polling(s'.term, {}, 1) && s'.role != Leader &&
               !(s'.term in h.terms && h.terms[s'.term].leader == i)
    ensures ServersOk(n, Put(c, i, s', {}, {}), Voted(h, i, s'.term, candidate, s'.log))
  {
    var c' := Put(c, i, s', {}, {});
    var h' := Voted(h, i, s'.term, candidate, s'.log);
    assert Grows(h, h');
    forall j: nat | j < n
      ensures ServerOk(n, h', j, c'.servers[j])
    {
      assert ServerOk(n, h, j, c.servers[j]);
      if j == i {
        VoteServer(n, h, i, c.servers[i], s', candidate);
      } else {
        GrowServer(n, h, h', j, c.servers[j]);
      }
    }
  }

  lemma VoteNet(n: nat, c: Cluster, h: History, i: nat, candidate: nat, s': Server)
    requires |c.servers| == n && i < n && NetOk(n, c, h)
    requires CastsBallot(c.servers[i], s', candidate)
    ensures NetOk(n, Put(c, i, s', {}, {}), Voted(h, i, s'.term, candidate, s'.log))
  {
    var c' := Put(c, i, s', {}, {});
    var h' := Voted(h, i, s'.term, candidate, s'.log);
    assert Grows(h, h');
    forall m | m in c'.net
      ensures MessageOk(n, c', h', m)
    {
      GrowMessage(n, c, h, c', h', m);
    }
  }

  lemma VoteServer(n: nat, h: History, i: nat, s: Server, s': Server, candidate: nat)
    requires ServerOk(n, h, i, s) && (s.term, i) !in h.ballots && 1 <= s.term
    requires CastsBallot(s, s', candidate)
    requires s'.poll != s.poll ==>
               candidate == i && s'.poll == Polling(s'.term, {}, 1) && s'.role != Leader &&
               !(s'.term in h.terms && h.terms[s'.term].leader == i)
    ensures ServerOk(n, Voted(h, i, s'.term, candidate, s'.log), i, s')
  {
    var h' := Voted(h, i, s'.term, candidate, s'.log);
    assert Grows(h, h');
    GrowLog(h, h', s.log);
    GrowCommitOk(n, h, h', s.log, s.log, s.commitIndex, s.term);
    if s'.poll.Polling? {
      if s'.poll == s.poll {
        GrowPoll(n, h, h', i, s, s');
      } else {
        assert Granters(h', n, s'.term, i) * ({} + {i}) == {i};
      }
    }
  }

  lemma VoteBallots(n: nat, c: Cluster, h: History, i: nat, candidate: nat, s': Server)
    requires |c.servers| == n && i < n && BallotsOk(n, c, h) && MayVote(n, c, h, i, candidate)
    requires CastsBallot(c.servers[i], s', candidate)
    ensures BallotsOk(n, Put(c, i, s', {}, {}), Voted(h, i, s'.term, candidate, s'.log))
  {
    var c' := Put(c, i, s', {}, {});
    var h' := Voted(h, i, s'.term, candidate, s'.log);
    forall T, v | (T, v) in h'.ballots
      ensures BallotOk(n, c', h', T, v)
    {
      if (T, v) in h.ballots {
        assert BallotOk(n, c, h, T, v);
      }
    }
  }

  lemma VoteAcks(n: nat, c: Cluster, h: History, i: nat, candidate: nat, s': Server)
    requires |c.servers| == n && i < n && AcksOk(n, c, h)
    requires CastsBallot(c.servers[i], s', candidate)
    ensures AcksOk(n, Put(c, i, s', {}, {}), Voted(h, i, s'.term, candidate, s'.log))
  {
    var c' := Put(c, i, s', {}, {});
    var h' := Voted(h, i, s'.term, candidate, s'.log);
    forall v, t | (v, t) in h'.acks
      ensures AckKeptByServer(n, c', h', v, t)
    {
      assert AckKeptByServer(n, c, h, v, t);
      forall k: nat | k <= h'.acks[(v, t)]
        ensures KeptBy(h', t, k, c'.servers[v])
      {
        assert KeptBy(h, t, k, c.servers[v]);
        assert Grows(h, h');
        GrowKept(h, h', t, k, c.servers[v].log, c'.servers[v].log, c.servers[v].term + 1, c'.servers[v].term + 1);
      }
    }
  }

  // ---------- An election ----------

  // A candidate with a majority is the first to be elected in its term.
  lemma FirstElected(n: nat, h: History, i: nat, s: Server)
    requires TermsOk(n, h) && ServerOk(n, h, i, s)
    requires s.role == Candidate && s.poll.Polling? && s.poll.term == s.term
    requires 2 * |Granters(h, n, s.term, i)| > n
    ensures s.term !in h.terms
  {
    var T := s.term;
    if T in h.terms {
      assert ReignOk(n, h, T);
      var _ := MajoritiesMeet(n, Granters(h, n, T, i), h.terms[T].quorum);
    }
  }

  // Only the role and the poll change.
  ghost predicate TakesOffice(s: Server, s': Server) {
    && s' == s.(role := Leader, leaderInitDone := false, poll := s'.poll)
    && s'.poll.Polling? && s'.poll.term == s'.term
  }

  lemma ElectHistory(n: nat, c: Cluster, h: History, i: nat)
    requires |c.servers| == n && i < n && HistoryOk(n, h) && ServerOk(n, h, i, c.servers[i]) && BallotsOk(n, c, h)
    requires c.servers[i].term !in h.terms && 2 * |Granters(h, n, c.servers[i].term, i)| > n
    ensures var h' := Elected(h, n, c.servers[i], i);
            Grows(h, h') && HistoryOk(n, h')
  {
    var s := c.servers[i];
    var T := s.term;
    var h' := Elected(h, n, s, i);
    assert Grows(h, h');
    var w :| w in Granters(h, n, T, i);
    ElectReign(n, c, h, i);
    forall t | t in h'.terms
      ensures ReignOk(n, h', t)
    {
      if t != T {
        assert ReignOk(n, h, t);
        GrowLog(h, h', h.terms[t].log);
      }
    }
    forall T, v | (T, v) in h'.ballots
      ensures 1 <= T && LogOk(h', h'.ballots[(T, v)].log)
    {
      GrowLog(h, h', h.ballots[(T, v)].log);
    }
    forall v, t | (v, t) in h'.acks
      ensures AckKeptByVotes(n, h', v, t)
    {
      assert AckKeptByVotes(n, h, v, t);
      forall k: nat, T: nat | k <= h'.acks[(v, t)] && t < T && Counts(h', T, v)
        ensures Kept(h', t, k, h'.ballots[(T, v)].log, T)
      {
        assert Counts(h, T, v);
        assert Kept(h, t, k, h.ballots[(T, v)].log, T);
        GrowKept(h, h', t, k, h.ballots[(T, v)].log, h.ballots[(T, v)].log, T, T);
      }
    }
  }

  lemma ElectReign(n: nat, c: Cluster, h: History, i: nat)
    requires |c.servers| == n && i < n && BallotsOk(n, c, h)
    requires LogOk(h, c.servers[i].log) && 1 <= c.servers[i].term
    requires forall k: nat :: k < |c.servers[i].log| ==> c.servers[i].log[k].term <= c.servers[i].term
    requires c.servers[i].term !in h.terms && 2 * |Granters(h, n, c.servers[i].term, i)| > n
    ensures ReignOk(n, Elected(h, n, c.servers[i], i), c.servers[i].term)
  {
    var s := c.servers[i];
    var T := s.term;
    var h' := Elected(h, n, s, i);
    var r := h'.terms[T];
    assert Grows(h, h');
    GrowLog(h, h', s.log);
    forall k: nat | k < |r.startLog|
      ensures r.log[k].term < T
    {
      if k > 0 {
        assert EntryOk(h, s.log, k);
      }
    }
    ElectQuorum(n, c, h, i);
  }

  // Whoever voted for the winner had a log no newer than the winner's.
  lemma ElectQuorum(n: nat, c: Cluster, h: History, i: nat)
    requires |c.servers| == n && i < n && BallotsOk(n, c, h) && c.servers[i].term !in h.terms
    ensures var T := c.servers[i].term;
            var h' := Elected(h, n, c.servers[i], i);
            forall v :: v in h'.terms[T].quorum ==>
              v < n && (T, v) in h'.ballots && VotedInto(h'.terms[T], h'.ballots[(T, v)])
  {
    var T := c.servers[i].term;
    var h' := Elected(h, n, c.servers[i], i);
    forall v | v in h'.terms[T].quorum
      ensures v < n && (T, v) in h'.ballots && VotedInto(h'.terms[T], h'.ballots[(T, v)])
    {
      assert BallotOk(n, c, h, T, v);
    }
  }

  lemma ElectStep(n: nat, c: Cluster, h: History, i: nat, s': Server)
    requires Inv(n, c, h) && i < n && TakesOffice(c.servers[i], s')
    requires c.servers[i].term !in h.terms && 2 * |Granters(h, n, c.servers[i].term, i)| > n
    requires PollOk(n, h, i, s')
    ensures Inv(n, Put(c, i, s', {}, {}), Elected(h, n, s', i))
  {
    assert ServerOk(n, h, i, c.servers[i]);
    ElectHistory(n, c, h, i);
    ElectServers(n, c, h, i, s');
    ElectBallots(n, c, h, i, s');
    ElectAcks(n, c, h, i, s');
    ElectNet(n, c, h, i, s');
    GrowAllDelivered(n, c, h, Elected(h, n, s', i), {});
  }

  lemma ElectServers(n: nat, c: Cluster, h: History, i: nat, s': Server)
    requires |c.servers| == n && i < n && ServersOk(n, c, h) && TakesOffice(c.servers[i], s')
    requires c.servers[i].term !in h.terms && PollOk(n, h, i, s')
    ensures ServersOk(n, Put(c, i, s', {}, {}), Elected(h, n, s', i))
  {
    var c' := Put(c, i, s', {}, {});
    var h' := Elected(h, n, s', i);
    assert Grows(h, h');
    forall j: nat | j < n
      ensures ServerOk(n, h', j, c'.servers[j])
    {
      assert ServerOk(n, h, j, c.servers[j]);
      if j == i {
        ElectServer(n, h, i, c.servers[i], s');
      } else {
        GrowServer(n, h, h', j, c.servers[j]);
      }
    }
  }

  lemma ElectBallots(n: nat, c: Cluster, h: History, i: nat, s': Server)
    requires |c.servers| == n && i < n && BallotsOk(n, c, h) && TakesOffice(c.servers[i], s')
    ensures BallotsOk(n, Put(c, i, s', {}, {}), Elected(h, n, s', i))
  {
    var c' := Put(c, i, s', {}, {});
    var h' := Elected(h, n, s', i);
    forall T, v | (T, v) in h'.ballots
      ensures BallotOk(n, c', h', T, v)
    {
      assert BallotOk(n, c, h, T, v);
    }
  }

  lemma ElectNet(n: nat, c: Cluster, h: History, i: nat, s': Server)
    requires |c.servers| == n && i < n && NetOk(n, c, h) && TakesOffice(c.servers[i], s')
    requires c.servers[i].term !in h.terms
    ensures NetOk(n, Put(c, i, s', {}, {}), Elected(h, n, s', i))
  {
    var c' := Put(c, i, s', {}, {});
    var h' := Elected(h, n, s', i);
    forall m | m in c'.net
      ensures MessageOk(n, c', h', m)
    {
      ElectMessage(n, c, h, i, s', m);
    }
  }

  lemma ElectServer(n: nat, h: History, i: nat, s: Server, s': Server)
    requires ServerOk(n, h, i, s) && TakesOffice(s, s') && PollOk(n, h, i, s')
    requires s.term !in h.terms
    ensures ServerOk(n, Elected(h, n, s', i), i, s')
  {
    var h' := Elected(h, n, s', i);
    assert Grows(h, h');
    GrowLog(h, h', s.log);
    GrowCommitOk(n, h, h', s.log, s.log, s.commitIndex, s.term);
    Smaller(Granters(h, n, s.term, i) * (s'.poll.answered + {i}),
            Granters(h', n, s.term, i) * (s'.poll.answered + {i}));
  }

  lemma ElectAcks(n: nat, c: Cluster, h: History, i: nat, s': Server)
    requires |c.servers| == n && i < n && AcksOk(n, c, h) && TakesOffice(c.servers[i], s')
    requires c.servers[i].term !in h.terms
    ensures AcksOk(n, Put(c, i, s', {}, {}), Elected(h, n, s', i))
  {
    var c' := Put(c, i, s', {}, {});
    var h' := Elected(h, n, s', i);
    assert Grows(h, h');
    forall v, t | (v, t) in h'.acks
      ensures AckKeptByServer(n, c', h', v, t)
    {
      assert AckKeptByServer(n, c, h, v, t);
      forall k: nat | k <= h'.acks[(v, t)]
        ensures KeptBy(h', t, k, c'.servers[v])
      {
        assert KeptBy(h, t, k, c.servers[v]);
        GrowKept(h, h', t, k, c.servers[v].log, c'.servers[v].log, c.servers[v].term + 1, c'.servers[v].term + 1);
      }
    }
  }

  lemma ElectMessage(n: nat, c: Cluster, h: History, i: nat, s': Server, m: Message)
    requires |c.servers| == n && i < n && TakesOffice(c.servers[i], s') && MessageOk(n, c, h, m)
    requires c.servers[i].term !in h.terms
    ensures MessageOk(n, Put(c, i, s', {}, {}), Elected(h, n, s', i), m)
  {
    var c' := Put(c, i, s', {}, {});
    var h' := Elected(h, n, s', i);
    assert Grows(h, h');
    match m
    case VoteRequest(_) =>
    case VoteReply(_, _, _, _) =>
    case Append(_, args) => GrowAppend(n, c, h, c', h', args);
    case AppendReply(_, args, _, _, _) => GrowAppend(n, c, h, c', h', args);
  }
}
