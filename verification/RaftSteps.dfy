/**
  The kinds of change a handler is made of, and that each keeps the invariant: a quiet change
  (the record of the past and the logs stay as they are), a ballot, an election, a command taken
  by a leader, and entries taken from a leader.
 */
module RaftSteps {
  import opened RaftServer
  import opened RaftCluster
  import opened RaftInvariant
  import opened RaftCompleteness

  ghost function Put(c: Cluster, i: nat, s: Server, sent: set<Message>, handed: set<ApplyMsg>): Cluster
    requires i < |c.servers|
  {
    Cluster(c.servers[i := s], c.net + sent, c.delivered + handed)
  }

  // ---------- The record of the past only grows ----------

  ghost predicate ReignGrows(r: Reign, r': Reign) {
    r'.leader == r.leader && r'.startLog == r.startLog && r'.quorum == r.quorum && r.log <= r'.log
  }

  ghost predicate Grows(h: History, h': History) {
    && (forall t :: t in h.terms ==> t in h'.terms && ReignGrows(h.terms[t], h'.terms[t]))
    && (forall b :: b in h.ballots ==> b in h'.ballots && h'.ballots[b] == h.ballots[b])
    && (forall a :: a in h.acks ==> a in h'.acks && h'.acks[a] >= h.acks[a])
  }

  lemma GrowLog(h: History, h': History, log: seq<Entry>)
    requires Grows(h, h') && LogOk(h, log)
    ensures LogOk(h', log)
  {
    forall k: nat | 1 <= k < |log|
      ensures EntryOk(h', log, k)
    {
      assert EntryOk(h, log, k);
      PrefixTrans(log[..k + 1], h.terms[log[k].term].log, h'.terms[log[k].term].log);
    }
  }

  lemma GrowCommitted(n: nat, h: History, h': History, t: nat, k: nat)
    requires Grows(h, h') && Committed(n, h, t, k)
    ensures Committed(n, h', t, k)
  {
    Smaller(Ackers(h, n, t, k), Ackers(h', n, t, k));
    assert h.terms[t].log <= h'.terms[t].log;
  }

  lemma GrowCommitOk(n: nat, h: History, h': History, log: seq<Entry>, log': seq<Entry>, commit: nat, term: nat)
    requires Grows(h, h') && CommitOk(n, h, log, commit, term)
    requires log <= log'
    ensures CommitOk(n, h', log', commit, term)
  {
    if commit > 0 {
      var t, k :| CommitWitness(n, h, log, commit, term, t, k);
      GrowCommitted(n, h, h', t, k);
      assert log'[..commit + 1] == log[..commit + 1];
      PrefixTrans(log[..commit + 1], h.terms[t].log, h'.terms[t].log);
      assert CommitWitness(n, h', log', commit, term, t, k);
    }
  }

  lemma GrowDelivered(n: nat, h: History, h': History, m: ApplyMsg)
    requires Grows(h, h') && DeliveredOk(n, h, m)
    ensures DeliveredOk(n, h', m)
  {
    var t, k :| Committed(n, h, t, k) && m.index <= k && h.terms[t].log[m.index].command == m.command;
    GrowCommitted(n, h, h', t, k);
    assert h.terms[t].log <= h'.terms[t].log;
  }

  lemma GrowAllDelivered(n: nat, c: Cluster, h: History, h': History, handed: set<ApplyMsg>)
    requires Grows(h, h') && AllDeliveredOk(n, c, h)
    ensures forall m :: m in c.delivered ==> DeliveredOk(n, h', m)
  {
    forall m | m in c.delivered
      ensures DeliveredOk(n, h', m)
    {
      GrowDelivered(n, h, h', m);
    }
  }

  // A later look finds at least as much kept.
  lemma GrowKept(h: History, h': History, t: nat, k: nat, log: seq<Entry>, log': seq<Entry>, T: nat, T': nat)
    requires Grows(h, h') && t in h.terms && k < |h.terms[t].log|
    requires Kept(h, t, k, log, T) && T <= T'
    requires h.terms[t].log[..k + 1] <= log ==>
               h.terms[t].log[..k + 1] <= log' || Lost(h', h.terms[t].log[..k + 1], t, T')
    ensures k < |h'.terms[t].log| && Kept(h', t, k, log', T')
  {
    var P := h.terms[t].log[..k + 1];
    assert h.terms[t].log <= h'.terms[t].log;
    assert h'.terms[t].log[..k + 1] == P;
    if Lost(h, P, t, T) {
      var u :| u in h.terms && t < u < T && !(P <= h.terms[u].startLog);
      assert ReignGrows(h.terms[u], h'.terms[u]);
      assert Lost(h', P, t, T');
    }
  }

  lemma GrowPoll(n: nat, h: History, h': History, i: nat, s: Server, s': Server)
    requires Grows(h, h') && s.poll.Polling? && PollOk(n, h, i, s)
    requires s'.poll == s.poll && s'.term >= s.term
    requires s'.term == s.term ==> s'.role == Leader || s'.role == s.role || s.role != Leader
    requires s.poll.term in h'.terms && h'.terms[s.poll.term].leader == i ==> s.poll.term in h.terms
    ensures PollOk(n, h', i, s')
  {
    var T := s.poll.term;
    Smaller(Granters(h, n, T, i) * (s.poll.answered + {i}), Granters(h', n, T, i) * (s.poll.answered + {i}));
  }

  // ---------- Quiet changes ----------

  ghost predicate Quiet(s: Server, s': Server) {
    && s'.log == s.log && s'.term >= s.term
    && (s'.term == s.term && s'.role == Leader ==>
          s.role == Leader && (s.leaderInitDone ==> s'.leaderInitDone))
  }

  lemma QuietBallots(n: nat, c: Cluster, h: History, i: nat, s: Server, sent: set<Message>, handed: set<ApplyMsg>)
    requires |c.servers| == n && i < n && BallotsOk(n, c, h) && Quiet(c.servers[i], s)
    ensures BallotsOk(n, Put(c, i, s, sent, handed), h)
  {
    var c' := Put(c, i, s, sent, handed);
    forall T, v | (T, v) in h.ballots
      ensures BallotOk(n, c', h, T, v)
    {
      assert BallotOk(n, c, h, T, v);
    }
  }

  lemma QuietAcks(n: nat, c: Cluster, h: History, i: nat, s: Server, sent: set<Message>, handed: set<ApplyMsg>)
    requires |c.servers| == n && i < n && AcksOk(n, c, h) && Quiet(c.servers[i], s)
    ensures AcksOk(n, Put(c, i, s, sent, handed), h)
  {
    var c' := Put(c, i, s, sent, handed);
    forall v, t | (v, t) in h.acks
      ensures AckKeptByServer(n, c', h, v, t)
    {
      assert AckKeptByServer(n, c, h, v, t);
      forall k: nat | k <= h.acks[(v, t)]
        ensures KeptBy(h, t, k, c'.servers[v])
      {
        assert KeptBy(h, t, k, c.servers[v]);
        GrowKept(h, h, t, k, c.servers[v].log, c'.servers[v].log, c.servers[v].term + 1, c'.servers[v].term + 1);
      }
    }
  }

  lemma QuietNet(n: nat, c: Cluster, h: History, i: nat, s: Server, sent: set<Message>, handed: set<ApplyMsg>)
    requires |c.servers| == n && i < n && NetOk(n, c, h) && Quiet(c.servers[i], s)
    requires forall m :: m in sent ==> MessageOk(n, Put(c, i, s, sent, handed), h, m)
    ensures NetOk(n, Put(c, i, s, sent, handed), h)
  {
    var c' := Put(c, i, s, sent, handed);
    forall m | m in c'.net
      ensures MessageOk(n, c', h, m)
    {
      if m in c.net {
        assert MessageOk(n, c, h, m);
      }
    }
  }

  lemma QuietStep(n: nat, c: Cluster, h: History, i: nat, s: Server, sent: set<Message>, handed: set<ApplyMsg>)
    requires Inv(n, c, h) && i < n
    requires Quiet(c.servers[i], s) && ServerOk(n, h, i, s)
    requires forall m :: m in sent ==> MessageOk(n, Put(c, i, s, sent, handed), h, m)
    requires forall m :: m in handed ==> DeliveredOk(n, h, m)
    ensures Inv(n, Put(c, i, s, sent, handed), h)
  {
    QuietBallots(n, c, h, i, s, sent, handed);
    QuietAcks(n, c, h, i, s, sent, handed);
    QuietNet(n, c, h, i, s, sent, handed);
  }

  // ---------- Changes that others only see as growth ----------

  lemma GrowServer(n: nat, h: History, h': History, j: nat, s: Server)
    requires Grows(h, h') && ServerOk(n, h, j, s)
    requires (s.term, j) in h'.ballots ==> (s.term, j) in h.ballots
    requires s.role == Leader ==> h'.terms[s.term].log == h.terms[s.term].log
    requires s.poll.Polling? ==> s.poll.term in h'.terms && h'.terms[s.poll.term].leader == j ==> s.poll.term in h.terms
    ensures ServerOk(n, h', j, s)
  {
    GrowLog(h, h', s.log);
    GrowCommitOk(n, h, h', s.log, s.log, s.commitIndex, s.term);
    if s.poll.Polling? {
      GrowPoll(n, h, h', j, s, s);
    }
  }

  lemma GrowAppend(n: nat, c: Cluster, h: History, c': Cluster, h': History, args: AppendArgs)
    requires Grows(h, h') && |c.servers| == |c'.servers| == n && AppendOk(n, c, h, args)
    requires c'.servers[args.leader].term >= c.servers[args.leader].term
    requires var s := c'.servers[args.leader];
             s.term == args.term && s.role == Leader ==> s.leaderInitDone
    ensures AppendOk(n, c', h', args)
  {
    GrowCommitOk(n, h, h', h.terms[args.term].log, h'.terms[args.term].log, args.leaderCommit, args.term);
    assert h.terms[args.term].log <= h'.terms[args.term].log;
  }

  // A message stays good when terms rise, logs change only in decided terms and no leadership is taken up again.
  lemma GrowMessage(n: nat, c: Cluster, h: History, c': Cluster, h': History, m: Message)
    requires Grows(h, h') && |c.servers| == |c'.servers| == n && MessageOk(n, c, h, m)
    requires forall j: nat :: j < n ==> c'.servers[j].term >= c.servers[j].term
    requires forall j: nat :: j < n && c'.servers[j].term == c.servers[j].term && c'.servers[j].term !in h'.terms ==>
               c'.servers[j].log == c.servers[j].log
    requires forall j: nat :: j < n && c'.servers[j].role == Leader && c'.servers[j].term in h.terms ==>
               || c'.servers[j].leaderInitDone
               || (c.servers[j].role == Leader && !c.servers[j].leaderInitDone &&
                   c.servers[j].term == c'.servers[j].term)
    ensures MessageOk(n, c', h', m)
  {
    match m
    case VoteRequest(_) =>
    case VoteReply(_, _, _, _) =>
    case Append(_, args) => GrowAppend(n, c, h, c', h', args);
    case AppendReply(_, args, _, _, _) => GrowAppend(n, c, h, c', h', args);
  }
}
