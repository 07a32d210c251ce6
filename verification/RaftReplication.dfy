/**
  Commands taken by a leader and entries taken from a leader keep the invariant.
 */
module RaftReplication {
  import opened RaftServer
  import opened RaftCluster
  import opened RaftInvariant
  import opened RaftCompleteness
  import opened RaftSteps

  // ---------- The append/truncate loop ----------

  /**
    Merging a stretch of the leader's log leaves a log that already holds it alone, however much
    longer it is, and otherwise cuts at the end of the stretch.
   */
  lemma {:induction false} MergeTakes(log: seq<Entry>, at: nat, leaderLog: seq<Entry>, end: nat)
    requires at <= |log| && at <= end <= |leaderLog|
    requires log[..at] == leaderLog[..at]
    requires forall k: nat :: k < |log| && k < |leaderLog| && log[k].term == leaderLog[k].term ==>
               log[..k + 1] == leaderLog[..k + 1]
    ensures Merge(log, at, leaderLog[at..end]) == if leaderLog[..end] <= log then log else leaderLog[..end]
    decreases end - at
  {
    var entries := leaderLog[at..end];
    if at == end {
      assert leaderLog[..end] <= log;
    } else {
      assert entries[0] == leaderLog[at];
      assert entries[1..] == leaderLog[at + 1..end];
      if at < |log| && log[at].term == entries[0].term {
        MergeTakes(log, at + 1, leaderLog, end);
      } else {
        var cut := leaderLog[..at + 1];
        assert log[..at] + [entries[0]] == cut;
        assert at == |log| ==> log + [entries[0]] == cut;
        assert !(leaderLog[..end] <= log) by {
          assert leaderLog[..end][at] == leaderLog[at];
        }
        MergeTakes(cut, at + 1, leaderLog, end);
        assert leaderLog[..end] <= cut ==> leaderLog[..end] == cut;
      }
    }
  }

  // The back-off stops right before the run of the conflicting term, at the first index, or below the snapshot.
  lemma {:induction false} BackoffFinds(log: seq<Entry>, base: nat, at: nat, conflictTerm: nat)
    requires at < |log| && log[at].term == conflictTerm
    ensures var index := Backoff(log, base, at, conflictTerm);
            && index <= at && (forall k: nat :: index < k <= at ==> log[k].term == conflictTerm)
            && (index <= 1 || index < base || log[index].term != conflictTerm)
    decreases at
  {
    if at > 1 && at >= base && log[at - 1].term == conflictTerm {
      BackoffFinds(log, base, at - 1, conflictTerm);
    }
  }

  // What is in both logs survives.
  lemma MergeKeeps(log: seq<Entry>, leaderLog: seq<Entry>, end: nat, P: seq<Entry>)
    requires end <= |leaderLog| && P <= log && P <= leaderLog
    ensures P <= if leaderLog[..end] <= log then log else leaderLog[..end]
  {
    if |P| > end {
      assert leaderLog[..end] == P[..end] == log[..end];
    }
  }

  // ---------- A leader takes a command ----------

  ghost predicate TakesCommand(s: Server, s': Server, i: nat, e: Entry) {
    && Serving(s) && |s.log| >= 1 && i < |s.matchIndex| && i < |s.nextIndex|
    && e.term == s.term
    && s' == s.(log := s.log + [e], disk := Saved(s.term, s.votedFor, s.base, s.log + [e]),
                matchIndex := s.matchIndex[i := |s.log|], nextIndex := s.nextIndex[i := |s.log| + 1])
  }

  lemma CommandGrows(n: nat, h: History, i: nat, s: Server, s': Server, e: Entry)
    requires ServerOk(n, h, i, s) && TakesCommand(s, s', i, e)
    requires forall a :: a in h.acks && a.1 == s.term ==> h.acks[a] < |s.log|
    ensures var h' := AfterCommand(h, i, s, s');
            && Grows(h, h')
            && h'.acks == h.acks[(i, s.term) := |s.log|]
            && h'.ballots == h.ballots
            && h'.terms == h.terms[s.term := h.terms[s.term].(log := s'.log)]
  {
  }

  ghost predicate AcksWithin(h: History) {
    forall v, t :: (v, t) in h.acks ==> t in h.terms && h.acks[(v, t)] < |h.terms[t].log|
  }

  lemma HistoryAcks(n: nat, h: History)
    requires HistoryOk(n, h)
    ensures AcksWithin(h)
  {
    forall v, t | (v, t) in h.acks
      ensures t in h.terms && h.acks[(v, t)] < |h.terms[t].log|
    {
      assert AckKeptByVotes(n, h, v, t);
    }
  }

  lemma CommandHistory(n: nat, c: Cluster, h: History, i: nat, s': Server, e: Entry)
    requires |c.servers| == n && i < n && HistoryOk(n, h) && ServerOk(n, h, i, c.servers[i]) && BallotsOk(n, c, h)
    requires TakesCommand(c.servers[i], s', i, e)
    ensures HistoryOk(n, AfterCommand(h, i, c.servers[i], s'))
  {
    var s := c.servers[i];
    var h' := AfterCommand(h, i, s, s');
    HistoryAcks(n, h);
    CommandGrows(n, h, i, s, s', e);
    CommandTerms(n, h, h', i, s, s', e);
    forall T, v | (T, v) in h'.ballots
      ensures 1 <= T && LogOk(h', h'.ballots[(T, v)].log)
    {
      GrowLog(h, h', h.ballots[(T, v)].log);
    }
    forall v, t | (v, t) in h'.acks
      ensures AckKeptByVotes(n, h', v, t)
    {
      CommandVotes(n, c, h, i, s', e, v, t);
    }
  }

  lemma CommandTerms(n: nat, h: History, h': History, i: nat, s: Server, s': Server, e: Entry)
    requires TermsOk(n, h) && ServerOk(n, h, i, s) && TakesCommand(s, s', i, e) && Grows(h, h')
    requires h'.terms == h.terms[s.term := h.terms[s.term].(log := s'.log)] && h'.ballots == h.ballots
    ensures TermsOk(n, h')
  {
    forall t | t in h'.terms
      ensures ReignOk(n, h', t)
    {
      assert ReignOk(n, h, t);
      GrowLog(h, h', h.terms[t].log);
      if t == s.term {
        CommandLog(h, h', s, s', e);
        CommandReign(n, h, h', t, e);
      }
    }
  }

  // The reign that takes one more entry of its own term.
  lemma CommandReign(n: nat, h: History, h': History, t: nat, e: Entry)
    requires t in h.terms && ReignOk(n, h, t) && t in h'.terms && h'.ballots == h.ballots && e.term == t
    requires h'.terms[t] == h.terms[t].(log := h.terms[t].log + [e]) && LogOk(h', h'.terms[t].log)
    ensures ReignOk(n, h', t)
  {
  }

  lemma CommandLog(h: History, h': History, s: Server, s': Server, e: Entry)
    requires LogOk(h, s.log) && Grows(h, h') && s'.log == s.log + [e]
    requires e.term in h'.terms && h'.terms[e.term].log == s'.log
    ensures LogOk(h', s'.log)
  {
    GrowLog(h, h', s.log);
    forall k: nat | 1 <= k < |s'.log|
      ensures EntryOk(h', s'.log, k)
    {
      if k < |s.log| {
        assert EntryOk(h', s.log, k);
        assert s'.log[..k + 1] == s.log[..k + 1];
      } else {
        assert s'.log[..k + 1] == s'.log;
      }
    }
  }

  lemma CommandVotes(n: nat, c: Cluster, h: History, i: nat, s': Server, e: Entry, v: nat, t: nat)
    requires |c.servers| == n && i < n && HistoryOk(n, h) && ServerOk(n, h, i, c.servers[i]) && BallotsOk(n, c, h)
    requires TakesCommand(c.servers[i], s', i, e)
    requires (v, t) in AfterCommand(h, i, c.servers[i], s').acks
    ensures AckKeptByVotes(n, AfterCommand(h, i, c.servers[i], s'), v, t)
  {
    var s := c.servers[i];
    var h' := AfterCommand(h, i, s, s');
    HistoryAcks(n, h);
    CommandGrows(n, h, i, s, s', e);
    forall k: nat, T: nat | k <= h'.acks[(v, t)] && t < T && Counts(h', T, v)
      ensures t in h'.terms && k < |h'.terms[t].log| && Kept(h', t, k, h'.ballots[(T, v)].log, T)
    {
      assert BallotOk(n, c, h, T, v);
      assert (v, t) != (i, s.term);
      assert AckKeptByVotes(n, h, v, t);
      assert Counts(h, T, v);
      assert Kept(h, t, k, h.ballots[(T, v)].log, T);
      GrowKept(h, h', t, k, h.ballots[(T, v)].log, h.ballots[(T, v)].log, T, T);
    }
    if (v, t) != (i, s.term) {
      assert AckKeptByVotes(n, h, v, t);
    }
  }

  lemma CommandServers(n: nat, c: Cluster, h: History, i: nat, s': Server, e: Entry)
    requires |c.servers| == n && i < n && ServersOk(n, c, h) && AcksWithin(h)
    requires TakesCommand(c.servers[i], s', i, e)
    ensures c.servers[i].term in h.terms
    ensures ServersOk(n, Put(c, i, s', {}, {}), AfterCommand(h, i, c.servers[i], s'))
  {
    var s := c.servers[i];
    var c' := Put(c, i, s', {}, {});
    assert ServerOk(n, h, i, s);
    var h' := AfterCommand(h, i, s, s');
    CommandGrows(n, h, i, s, s', e);
    forall j: nat | j < n
      ensures ServerOk(n, h', j, c'.servers[j])
    {
      assert ServerOk(n, h, j, c.servers[j]);
      if j == i {
        CommandServer(n, h, i, s, s', e);
      } else {
        GrowServer(n, h, h', j, c.servers[j]);
      }
    }
  }

  lemma CommandServer(n: nat, h: History, i: nat, s: Server, s': Server, e: Entry)
    requires ServerOk(n, h, i, s) && AcksWithin(h) && TakesCommand(s, s', i, e)
    ensures ServerOk(n, AfterCommand(h, i, s, s'), i, s')
  {
    var h' := AfterCommand(h, i, s, s');
    CommandGrows(n, h, i, s, s', e);
    CommandLog(h, h', s, s', e);
    GrowCommitOk(n, h, h', s.log, s'.log, s.commitIndex, s.term);
    if s.poll.Polling? {
      GrowPoll(n, h, h', i, s, s');
    }
    CommandLeader(n, h, h', i, s, s', e);
  }

  lemma CommandLeader(n: nat, h: History, h': History, i: nat, s: Server, s': Server, e: Entry)
    requires s.leaderInitDone && |s.nextIndex| == n && |s.matchIndex| == n && i < n
    requires LeaderOk(n, h, i, s) && Grows(h, h') && TakesCommand(s, s', i, e)
    requires s.term in h'.terms && h'.terms[s.term].log == s'.log && Acked(h', i, s.term, |s.log|)
    ensures LeaderOk(n, h', i, s')
  {
    forall j: nat | j < n
      ensures s'.matchIndex[j] < |h'.terms[s.term].startLog| || Acked(h', j, s.term, s'.matchIndex[j])
    {
      assert s.matchIndex[j] < |h.terms[s.term].startLog| || Acked(h, j, s.term, s.matchIndex[j]);
    }
  }

  lemma CommandBallots(n: nat, c: Cluster, h: History, i: nat, s': Server, e: Entry)
    requires |c.servers| == n && i < n && BallotsOk(n, c, h) && ServerOk(n, h, i, c.servers[i]) && AcksWithin(h)
    requires TakesCommand(c.servers[i], s', i, e)
    ensures BallotsOk(n, Put(c, i, s', {}, {}), AfterCommand(h, i, c.servers[i], s'))
  {
    var c' := Put(c, i, s', {}, {});
    var h' := AfterCommand(h, i, c.servers[i], s');
    CommandGrows(n, h, i, c.servers[i], s', e);
    forall T, v | (T, v) in h'.ballots
      ensures BallotOk(n, c', h', T, v)
    {
      assert BallotOk(n, c, h, T, v);
    }
  }

  lemma CommandAcks(n: nat, c: Cluster, h: History, i: nat, s': Server, e: Entry)
    requires |c.servers| == n && i < n && AcksOk(n, c, h) && ServerOk(n, h, i, c.servers[i]) && AcksWithin(h)
    requires TakesCommand(c.servers[i], s', i, e)
    ensures AcksOk(n, Put(c, i, s', {}, {}), AfterCommand(h, i, c.servers[i], s'))
  {
    var s := c.servers[i];
    var c' := Put(c, i, s', {}, {});
    var h' := AfterCommand(h, i, s, s');
    CommandGrows(n, h, i, s, s', e);
    forall v, t | (v, t) in h'.acks
      ensures AckKeptByServer(n, c', h', v, t)
    {
      if (v, t) == (i, s.term) {
        forall k: nat | k <= h'.acks[(v, t)]
          ensures KeptBy(h', t, k, c'.servers[v])
        {
          assert h'.terms[t].log[..k + 1] <= s'.log;
        }
      } else {
        assert AckKeptByServer(n, c, h, v, t);
        forall k: nat | k <= h'.acks[(v, t)]
          ensures KeptBy(h', t, k, c'.servers[v])
        {
          assert KeptBy(h, t, k, c.servers[v]);
          assert c.servers[v].log <= c'.servers[v].log;
          GrowKept(h, h', t, k, c.servers[v].log, c'.servers[v].log, c.servers[v].term + 1, c'.servers[v].term + 1);
        }
      }
    }
  }

  lemma CommandNet(n: nat, c: Cluster, h: History, i: nat, s': Server, e: Entry)
    requires |c.servers| == n && i < n && NetOk(n, c, h) && ServerOk(n, h, i, c.servers[i]) && AcksWithin(h)
    requires TakesCommand(c.servers[i], s', i, e)
    ensures NetOk(n, Put(c, i, s', {}, {}), AfterCommand(h, i, c.servers[i], s'))
  {
    var c' := Put(c, i, s', {}, {});
    var h' := AfterCommand(h, i, c.servers[i], s');
    CommandGrows(n, h, i, c.servers[i], s', e);
    forall m | m in c'.net
      ensures MessageOk(n, c', h', m)
    {
      GrowMessage(n, c, h, c', h', m);
    }
  }

  lemma CommandStep(n: nat, c: Cluster, h: History, i: nat, s': Server, e: Entry)
    requires Inv(n, c, h) && i < n && TakesCommand(c.servers[i], s', i, e)
    ensures c.servers[i].term in h.terms
    ensures Inv(n, Put(c, i, s', {}, {}), AfterCommand(h, i, c.servers[i], s'))
  {
    assert ServerOk(n, h, i, c.servers[i]);
    HistoryAcks(n, h);
    CommandHistory(n, c, h, i, s', e);
    CommandServers(n, c, h, i, s', e);
    CommandAround(n, c, h, i, s', e);
  }

  lemma CommandAround(n: nat, c: Cluster, h: History, i: nat, s': Server, e: Entry)
    requires |c.servers| == n && i < n && ServerOk(n, h, i, c.servers[i]) && AcksWithin(h)
    requires BallotsOk(n, c, h) && AcksOk(n, c, h) && NetOk(n, c, h) && AllDeliveredOk(n, c, h)
    requires TakesCommand(c.servers[i], s', i, e)
    ensures var c', h' := Put(c, i, s', {}, {}), AfterCommand(h, i, c.servers[i], s');
            BallotsOk(n, c', h') && AcksOk(n, c', h') && NetOk(n, c', h') && AllDeliveredOk(n, c', h')
  {
    CommandBallots(n, c, h, i, s', e);
    CommandAcks(n, c, h, i, s', e);
    CommandNet(n, c, h, i, s', e);
    CommandGrows(n, h, i, c.servers[i], s', e);
    GrowAllDelivered(n, c, h, AfterCommand(h, i, c.servers[i], s'), {});
  }

  // ---------- A server takes entries from the leader of its term ----------

  // The log and the disk change: the log as the append/truncate loop leaves it.
  ghost predicate TakesEntries(n: nat, h: History, i: nat, s: Server, s': Server, args: AppendArgs) {
    && s.term == args.term && args.term in h.terms && s.role != Leader
    && args.prevIndex + |args.entries| < |h.terms[args.term].log|
    && var leaderLog := h.terms[args.term].log;
    && var end := args.prevIndex + |args.entries| + 1;
    && s'.log == (if leaderLog[..end] <= s.log then s.log else leaderLog[..end])
    && s' == s.(log := s'.log, disk := s'.disk)
    && (s'.disk.Saved? ==> s'.disk == Saved(s.term, s.votedFor, s.base, s'.log))
  }

  lemma EntriesGrow(h: History, i: nat, args: AppendArgs)
    ensures Grows(h, AfterEntries(h, i, args))
    ensures var h' := AfterEntries(h, i, args);
            && h'.terms == h.terms && h'.ballots == h.ballots
            && (forall a :: a in h'.acks ==> a in h.acks || a == (i, args.term))
            && (forall a :: a in h'.acks && a != (i, args.term) ==> h'.acks[a] == h.acks[a])
            && (i, args.term) in h'.acks && h'.acks[(i, args.term)] >= args.prevIndex + |args.entries|
            && (h'.acks[(i, args.term)] == args.prevIndex + |args.entries| ||
                ((i, args.term) in h.acks && h'.acks[(i, args.term)] == h.acks[(i, args.term)]))
  {
  }

  lemma EntriesHistory(n: nat, c: Cluster, h: History, i: nat, s': Server, args: AppendArgs)
    requires |c.servers| == n && i < n && HistoryOk(n, h) && BallotsOk(n, c, h)
    requires TakesEntries(n, h, i, c.servers[i], s', args)
    ensures HistoryOk(n, AfterEntries(h, i, args))
  {
    var h' := AfterEntries(h, i, args);
    EntriesGrow(h, i, args);
    forall t | t in h'.terms
      ensures ReignOk(n, h', t)
    {
      assert ReignOk(n, h, t);
      GrowLog(h, h', h.terms[t].log);
    }
    forall T, v | (T, v) in h'.ballots
      ensures 1 <= T && LogOk(h', h'.ballots[(T, v)].log)
    {
      GrowLog(h, h', h.ballots[(T, v)].log);
    }
    forall v, t | (v, t) in h'.acks
      ensures AckKeptByVotes(n, h', v, t)
    {
      EntriesVotes(n, c, h, i, s', args, v, t);
    }
  }

  lemma EntriesVotes(n: nat, c: Cluster, h: History, i: nat, s': Server, args: AppendArgs, v: nat, t: nat)
    requires |c.servers| == n && i < n && HistoryOk(n, h) && BallotsOk(n, c, h)
    requires TakesEntries(n, h, i, c.servers[i], s', args)
    requires (v, t) in AfterEntries(h, i, args).acks
    ensures AckKeptByVotes(n, AfterEntries(h, i, args), v, t)
  {
    var h' := AfterEntries(h, i, args);
    EntriesGrow(h, i, args);
    if (v, t) in h.acks {
      assert AckKeptByVotes(n, h, v, t);
    }
    forall k: nat, T: nat | k <= h'.acks[(v, t)] && t < T && Counts(h', T, v)
      ensures Kept(h', t, k, h'.ballots[(T, v)].log, T)
    {
      assert BallotOk(n, c, h, T, v);
      assert (v, t) != (i, args.term);
      assert Counts(h, T, v);
      assert Kept(h, t, k, h.ballots[(T, v)].log, T);
      GrowKept(h, h', t, k, h.ballots[(T, v)].log, h.ballots[(T, v)].log, T, T);
    }
  }

  // The committed part of a follower's log is never cut.
  lemma EntriesCommit(n: nat, h: History, i: nat, s: Server, s': Server, args: AppendArgs)
    requires HistoryOk(n, h) && ServerOk(n, h, i, s) && TakesEntries(n, h, i, s, s', args)
    ensures s.commitIndex < |s'.log| && CommitOk(n, h, s'.log, s.commitIndex, s.term)
  {
    var P := s.log[..s.commitIndex + 1];
    CommittedInLeader(n, h, s.log, s.commitIndex, s.term);
    MergeKeeps(s.log, h.terms[args.term].log, args.prevIndex + |args.entries| + 1, P);
    assert s'.log[..s.commitIndex + 1] == P;
    CommitOfPrefix(n, h, s.log, s'.log, s.commitIndex, s.term);
  }

  lemma CommitOfPrefix(n: nat, h: History, log: seq<Entry>, log': seq<Entry>, commit: nat, term: nat)
    requires CommitOk(n, h, log, commit, term)
    requires commit < |log| && commit < |log'| && log'[..commit + 1] == log[..commit + 1]
    ensures CommitOk(n, h, log', commit, term)
  {
    if commit > 0 {
      var t, k :| CommitWitness(n, h, log, commit, term, t, k);
      assert CommitWitness(n, h, log', commit, term, t, k);
    }
  }

  lemma EntriesLog(n: nat, h: History, s: Server, s': Server, i: nat, args: AppendArgs)
    requires TermsOk(n, h) && TakesEntries(n, h, i, s, s', args) && LogOk(h, s.log)
    requires forall k: nat :: k < |s.log| ==> s.log[k].term <= s.term
    ensures LogOk(h, s'.log)
    ensures forall k: nat :: k < |s'.log| ==> s'.log[k].term <= s.term
  {
    assert ReignOk(n, h, args.term);
    if s'.log != s.log {
      PrefixOk(h, s'.log, h.terms[args.term].log);
    }
  }

  lemma EntriesServer(n: nat, h: History, i: nat, s: Server, s': Server, args: AppendArgs)
    requires HistoryOk(n, h) && ServerOk(n, h, i, s) && TakesEntries(n, h, i, s, s', args)
    ensures ServerOk(n, AfterEntries(h, i, args), i, s')
  {
    var h' := AfterEntries(h, i, args);
    EntriesGrow(h, i, args);
    EntriesCommit(n, h, i, s, s', args);
    GrowCommitOk(n, h, h', s'.log, s'.log, s.commitIndex, s.term);
    EntriesLog(n, h, s, s', i, args);
    GrowLog(h, h', s'.log);
    if s.poll.Polling? {
      GrowPoll(n, h, h', i, s, s');
    }
  }

  lemma EntriesServers(n: nat, c: Cluster, h: History, i: nat, s': Server, args: AppendArgs)
    requires |c.servers| == n && i < n && HistoryOk(n, h) && ServersOk(n, c, h)
    requires TakesEntries(n, h, i, c.servers[i], s', args)
    ensures ServersOk(n, Put(c, i, s', {}, {}), AfterEntries(h, i, args))
  {
    var c' := Put(c, i, s', {}, {});
    var h' := AfterEntries(h, i, args);
    EntriesGrow(h, i, args);
    EntriesServer(n, h, i, c.servers[i], s', args);
    forall j: nat | j < n
      ensures ServerOk(n, h', j, c'.servers[j])
    {
      if j != i {
        GrowServer(n, h, h', j, c.servers[j]);
      }
    }
  }

  lemma EntriesBallots(n: nat, c: Cluster, h: History, i: nat, s': Server, args: AppendArgs)
    requires |c.servers| == n && i < n && BallotsOk(n, c, h)
    requires TakesEntries(n, h, i, c.servers[i], s', args)
    ensures BallotsOk(n, Put(c, i, s', {}, {}), AfterEntries(h, i, args))
  {
    var c' := Put(c, i, s', {}, {});
    var h' := AfterEntries(h, i, args);
    EntriesGrow(h, i, args);
    forall T, v | (T, v) in h'.ballots
      ensures BallotOk(n, c', h', T, v)
    {
      assert BallotOk(n, c, h, T, v);
    }
  }

  lemma EntriesAcks(n: nat, c: Cluster, h: History, i: nat, s': Server, args: AppendArgs)
    requires |c.servers| == n && i < n && AcksOk(n, c, h) && TermsOk(n, h)
    requires TakesEntries(n, h, i, c.servers[i], s', args)
    ensures AcksOk(n, Put(c, i, s', {}, {}), AfterEntries(h, i, args))
  {
    var c' := Put(c, i, s', {}, {});
    var h' := AfterEntries(h, i, args);
    EntriesGrow(h, i, args);
    forall v, t | (v, t) in h'.acks
      ensures AckKeptByServer(n, c', h', v, t)
    {
      if (v, t) in h.acks {
        assert AckKeptByServer(n, c, h, v, t);
      }
      forall k: nat | k <= h'.acks[(v, t)]
        ensures KeptBy(h', t, k, c'.servers[v])
      {
        if v == i {
          EntriesKeep(n, c, h, i, s', args, t, k);
        } else {
          assert KeptBy(h, t, k, c.servers[v]);
          GrowKept(h, h', t, k, c.servers[v].log, c.servers[v].log, c.servers[v].term + 1, c.servers[v].term + 1);
        }
      }
    }
  }

  lemma EntriesKeep(n: nat, c: Cluster, h: History, i: nat, s': Server, args: AppendArgs, t: nat, k: nat)
    requires |c.servers| == n && i < n && AcksOk(n, c, h) && TermsOk(n, h)
    requires TakesEntries(n, h, i, c.servers[i], s', args)
    requires (i, t) in AfterEntries(h, i, args).acks && k <= AfterEntries(h, i, args).acks[(i, t)]
    ensures t in h.terms && k < |h.terms[t].log| && KeptBy(AfterEntries(h, i, args), t, k, s')
  {
    var h' := AfterEntries(h, i, args);
    var s := c.servers[i];
    EntriesGrow(h, i, args);
    var leaderLog := h.terms[args.term].log;
    var end := args.prevIndex + |args.entries| + 1;
    if t == args.term && k < end {
      assert leaderLog[..k + 1] <= leaderLog[..end];
      assert h'.terms[t].log[..k + 1] <= s'.log;
    } else {
      EntriesKeepOld(n, c, h, i, s', args, t, k);
    }
  }

  // What the server had agreed on before.
  lemma EntriesKeepOld(n: nat, c: Cluster, h: History, i: nat, s': Server, args: AppendArgs, t: nat, k: nat)
    requires |c.servers| == n && i < n && AcksOk(n, c, h) && TermsOk(n, h)
    requires TakesEntries(n, h, i, c.servers[i], s', args)
    requires (i, t) in h.acks && k <= h.acks[(i, t)]
    ensures t in h.terms && k < |h.terms[t].log| && KeptBy(AfterEntries(h, i, args), t, k, s')
  {
    var s, h' := c.servers[i], AfterEntries(h, i, args);
    assert AckKeptByServer(n, c, h, i, t);
    assert KeptBy(h, t, k, s);
    assert Grows(h, h') by {
      EntriesGrow(h, i, args);
    }
    EntriesKeepOne(n, h, h.terms[t].log[..k + 1], t, s, s', args);
    GrowKept(h, h', t, k, s.log, s'.log, s.term + 1, s.term + 1);
  }

  // What the log holds survives, unless this very leader started without it.
  lemma EntriesKeepOne(n: nat, h: History, P: seq<Entry>, t: nat, s: Server, s': Server, args: AppendArgs)
    requires args.term in h.terms && ReignOk(n, h, args.term) && s.term == args.term == s'.term && t <= s.term
    requires t == s.term ==> P <= h.terms[s.term].log
    requires args.prevIndex + |args.entries| < |h.terms[args.term].log|
    requires var leaderLog := h.terms[args.term].log;
             var end := args.prevIndex + |args.entries| + 1;
             s'.log == if leaderLog[..end] <= s.log then s.log else leaderLog[..end]
    ensures P <= s.log ==> P <= s'.log || Lost(h, P, t, s'.term + 1)
  {
    var leaderLog := h.terms[args.term].log;
    if P <= s.log {
      if t == args.term || P <= h.terms[args.term].startLog {
        MergeKeeps(s.log, leaderLog, args.prevIndex + |args.entries| + 1, P);
      }
    }
  }

  lemma EntriesNet(n: nat, c: Cluster, h: History, i: nat, s': Server, args: AppendArgs)
    requires |c.servers| == n && i < n && NetOk(n, c, h)
    requires TakesEntries(n, h, i, c.servers[i], s', args)
    ensures NetOk(n, Put(c, i, s', {}, {}), AfterEntries(h, i, args))
  {
    var c' := Put(c, i, s', {}, {});
    var h' := AfterEntries(h, i, args);
    EntriesGrow(h, i, args);
    forall m | m in c'.net
      ensures MessageOk(n, c', h', m)
    {
      GrowMessage(n, c, h, c', h', m);
    }
  }

  lemma EntriesStep(n: nat, c: Cluster, h: History, i: nat, s': Server, args: AppendArgs)
    requires Inv(n, c, h) && i < n && TakesEntries(n, h, i, c.servers[i], s', args)
    ensures Inv(n, Put(c, i, s', {}, {}), AfterEntries(h, i, args))
  {
    EntriesHistory(n, c, h, i, s', args);
    EntriesServers(n, c, h, i, s', args);
    EntriesBallots(n, c, h, i, s', args);
    EntriesAcks(n, c, h, i, s', args);
    EntriesNet(n, c, h, i, s', args);
    EntriesGrow(h, i, args);
    GrowAllDelivered(n, c, h, AfterEntries(h, i, args), {});
  }
}
