/**
  The AppendEntries exchange, the commit scan, delivery, snapshots and restarts keep the invariant.
 */
module RaftAppends {
  import opened RaftServer
  import opened RaftCluster
  import opened RaftInvariant
  import opened RaftCompleteness
  import opened RaftSteps
  import opened RaftReplication
  import opened RaftHandlers

  // ---------- A follower handles a request ----------

  // A server in the leader's term that agrees at prevIndex ends up holding the whole stretch.
  lemma FollowerTakes(n: nat, h: History, i: nat, s: Server, args: AppendArgs)
    requires args.term in h.terms && LogOk(h, h.terms[args.term].log)
    requires LogOk(h, s.log) && s.role != Leader && s.term == args.term
    requires s.disk.Saved? ==> s.disk == Saved(s.term, s.votedFor, s.base, s.log)
    requires Stretch(h, args) && Matches(s.log, args)
    ensures TakesEntries(n, h, i, s, TakeEntries(s, args), args)
  {
    var leaderLog := h.terms[args.term].log;
    var at, end := args.prevIndex + 1, args.prevIndex + 1 + |args.entries|;
    forall k: nat | k < |s.log| && k < |leaderLog| && s.log[k].term == leaderLog[k].term
      ensures s.log[..k + 1] == leaderLog[..k + 1]
    {
      LogsMatch(h, s.log, leaderLog, k);
    }
    MergeTakes(s.log, at, leaderLog, end);
  }

  // The request carries a stretch of the log of its term's leader.
  ghost predicate Stretch(h: History, args: AppendArgs) {
    && args.term in h.terms
    && var leaderLog := h.terms[args.term].log;
    && args.prevIndex + |args.entries| < |leaderLog|
    && args.prevTerm == leaderLog[args.prevIndex].term
    && args.entries == leaderLog[args.prevIndex + 1..args.prevIndex + 1 + |args.entries|]
  }

  lemma TakeEntriesStep(n: nat, c: Cluster, h: History, i: nat, args: AppendArgs)
    requires Inv(n, c, h) && i < n && AppendOk(n, c, h, args) && i != args.leader
    requires c.servers[i].term == args.term && Matches(c.servers[i].log, args)
    ensures Inv(n, Put(c, i, TakeEntries(c.servers[i], args), {}, {}), AfterEntries(h, i, args))
    ensures h.terms[args.term].log[..args.prevIndex + 1 + |args.entries|] <= TakeEntries(c.servers[i], args).log
  {
    assert ServerOk(n, h, i, c.servers[i]);
    assert ReignOk(n, h, args.term);
    FollowerTakes(n, h, i, c.servers[i], args);
    EntriesStep(n, c, h, i, TakeEntries(c.servers[i], args), args);
  }

  // Clamping to its own last index never takes a follower past what it shares with the leader.
  lemma FollowCommitOk(n: nat, h: History, i: nat, s: Server, args: AppendArgs)
    requires ServerOk(n, h, i, s) && s.term == args.term && s.role != Leader && args.term in h.terms
    requires var end := args.prevIndex + 1 + |args.entries|;
             end <= |h.terms[args.term].log| && h.terms[args.term].log[..end] <= s.log && args.leaderCommit < end
    requires CommitOk(n, h, h.terms[args.term].log, args.leaderCommit, args.term)
    ensures ServerOk(n, h, i, FollowCommit(s, args.leaderCommit))
  {
    var commit := args.leaderCommit;
    var leaderLog := h.terms[args.term].log;
    if commit > s.commitIndex {
      var t, k :| CommitWitness(n, h, leaderLog, commit, args.term, t, k);
      assert s.log[..commit + 1] == leaderLog[..commit + 1] by {
        var end := args.prevIndex + 1 + |args.entries|;
        assert leaderLog[..end][..commit + 1] == leaderLog[..commit + 1];
        assert s.log[..end][..commit + 1] == s.log[..commit + 1];
      }
      assert CommitWitness(n, h, s.log, commit, s.term, t, k);
    }
  }

  lemma FollowCommitStep(n: nat, c: Cluster, h: History, i: nat, args: AppendArgs)
    requires Inv(n, c, h) && i < n && AppendOk(n, c, h, args) && i != args.leader
    requires c.servers[i].term == args.term && |c.servers[i].log| >= 1
    requires h.terms[args.term].log[..args.prevIndex + 1 + |args.entries|] <= c.servers[i].log
    ensures Inv(n, Put(c, i, FollowCommit(c.servers[i], args.leaderCommit), {}, {}), h)
  {
    var s' := FollowCommit(c.servers[i], args.leaderCommit);
    assert ServerOk(n, h, i, c.servers[i]);
    FollowCommitOk(n, h, i, c.servers[i], args);
    assert Quiet(c.servers[i], s');
    QuietStep(n, c, h, i, s', {}, {});
  }

  // The term and role part of the handler.
  lemma MeetLeader(n: nat, c: Cluster, h: History, i: nat, term: nat)
    requires Inv(n, c, h) && i < n
    ensures Inv(n, Put(c, i, YieldToLeader(SeeTerm(c.servers[i], term), term), {}, {}), h)
  {
    var s1 := SeeTerm(c.servers[i], term);
    SeeTermStep(n, c, h, i, term);
    if s1.role == Candidate && term >= s1.term {
      PutTwice(c, i, s1, s1.(role := Follower), {}, {});
      RoleStep(n, Put(c, i, s1, {}, {}), h, i, Follower);
    }
  }

  // What a follower has committed is in the log of the leader of its term.
  lemma CommitWithinLeader(n: nat, h: History, i: nat, s: Server)
    requires HistoryOk(n, h) && ServerOk(n, h, i, s) && s.term in h.terms
    ensures s.commitIndex < |h.terms[s.term].log|
  {
    CommittedInLeader(n, h, s.log, s.commitIndex, s.term);
  }

  // A refusal in the leader's own term names an index the leader can resend from; the fatal
  // conflict at index 0 does not happen.
  lemma RefusalOk(n: nat, h: History, i: nat, s: Server, args: AppendArgs)
    requires HistoryOk(n, h) && ServerOk(n, h, i, s) && Stretch(h, args)
    requires s == YieldToLeader(SeeTerm(s, args.term), args.term)
    ensures var r := OnAppendEntries(s, args);
            && !r.fatal
            && (!r.success && r.term <= args.term ==> 1 <= r.nextRetry <= |h.terms[args.term].log|)
  {
    assert ReignOk(n, h, args.term);
    if s.term == args.term {
      CommitWithinLeader(n, h, i, s);
    }
  }

  // The handler looks at the request only after the terms have met.
  lemma HandlerShape(s: Server, args: AppendArgs)
    requires WellFormed(s)
    ensures var s2 := YieldToLeader(SeeTerm(s, args.term), args.term);
            WellFormed(s2) && OnAppendEntries(s, args) == OnAppendEntries(s2, args)
  {
  }

  lemma AppendKeeps(n: nat, c: Cluster, h: History, i: nat, args: AppendArgs)
    requires Inv(n, c, h) && i < n && Append(i, args) in c.net && i != args.leader && WellFormed(c.servers[i])
    ensures var r := OnAppendEntries(c.servers[i], args);
            && !r.fatal
            && Inv(n, Put(c, i, r.server, {AppendReply(i, args, r.term, r.success, r.nextRetry)}, {}),
                   if r.success then AfterEntries(h, i, args) else h)
  {
    var s := c.servers[i];
    var s2 := YieldToLeader(SeeTerm(s, args.term), args.term);
    var r := OnAppendEntries(s, args);
    HandlerShape(s, args);
    PutTwice(c, i, s2, r.server, {AppendReply(i, args, r.term, r.success, r.nextRetry)}, {});
    MeetLeader(n, c, h, i, args.term);
    MetAppendKeeps(n, Put(c, i, s2, {}, {}), h, i, args);
  }

  lemma MetAppendKeeps(n: nat, c: Cluster, h: History, i: nat, args: AppendArgs)
    requires Inv(n, c, h) && i < n && Append(i, args) in c.net && i != args.leader && WellFormed(c.servers[i])
    requires c.servers[i] == YieldToLeader(SeeTerm(c.servers[i], args.term), args.term)
    ensures var r := OnAppendEntries(c.servers[i], args);
            && !r.fatal
            && Inv(n, Put(c, i, r.server, {AppendReply(i, args, r.term, r.success, r.nextRetry)}, {}),
                   if r.success then AfterEntries(h, i, args) else h)
  {
    var s := c.servers[i];
    var r := OnAppendEntries(s, args);
    assert MessageOk(n, c, h, Append(i, args));
    assert ServerOk(n, h, i, s);
    MetShape(s, args);
    RefusalOk(n, h, i, s, args);
    if r.success {
      AcceptKeeps(n, c, h, i, args);
    } else {
      SendStep(n, c, h, i, AppendReply(i, args, r.term, r.success, r.nextRetry));
    }
  }

  lemma MetShape(s: Server, args: AppendArgs)
    requires WellFormed(s) && s == YieldToLeader(SeeTerm(s, args.term), args.term)
    ensures var r := OnAppendEntries(s, args);
            && (!r.success ==> r.server == s)
            && (r.success ==> s.term == args.term && Matches(s.log, args))
            && (r.success ==> r.server == FollowCommit(TakeEntries(s, args), args.leaderCommit))
            && (r.success ==> r.term == args.term && r.nextRetry == 0)
  {
  }

  lemma AcceptServer(n: nat, c: Cluster, h: History, i: nat, args: AppendArgs)
    requires Inv(n, c, h) && i < n && AppendOk(n, c, h, args) && i != args.leader
    requires c.servers[i].term == args.term && Matches(c.servers[i].log, args)
    ensures var s' := FollowCommit(TakeEntries(c.servers[i], args), args.leaderCommit);
            Inv(n, Put(c, i, s', {}, {}), AfterEntries(h, i, args))
  {
    var s1 := TakeEntries(c.servers[i], args);
    StillAppendOk(n, c, h, i, s1, args);
    TakeEntriesStep(n, c, h, i, args);
    ThenFollowCommit(n, c, AfterEntries(h, i, args), i, s1, args);
  }

  lemma ThenFollowCommit(n: nat, c: Cluster, h: History, i: nat, s: Server, args: AppendArgs)
    requires |c.servers| == n && i < n && i != args.leader && s.term == args.term && |s.log| >= 1
    requires Inv(n, Put(c, i, s, {}, {}), h) && AppendOk(n, Put(c, i, s, {}, {}), h, args)
    requires h.terms[args.term].log[..args.prevIndex + 1 + |args.entries|] <= s.log
    ensures Inv(n, Put(c, i, FollowCommit(s, args.leaderCommit), {}, {}), h)
  {
    PutTwice(c, i, s, FollowCommit(s, args.leaderCommit), {}, {});
    FollowCommitStep(n, Put(c, i, s, {}, {}), h, i, args);
  }

  lemma AcceptKeeps(n: nat, c: Cluster, h: History, i: nat, args: AppendArgs)
    requires Inv(n, c, h) && i < n && AppendOk(n, c, h, args) && i != args.leader
    requires c.servers[i].term == args.term && Matches(c.servers[i].log, args)
    ensures var s' := FollowCommit(TakeEntries(c.servers[i], args), args.leaderCommit);
            Inv(n, Put(c, i, s', {AppendReply(i, args, args.term, true, 0)}, {}), AfterEntries(h, i, args))
  {
    var s' := FollowCommit(TakeEntries(c.servers[i], args), args.leaderCommit);
    var reply := AppendReply(i, args, args.term, true, 0);
    PutTwice(c, i, s', s', {reply}, {});
    StillAppendOk(n, c, h, i, s', args);
    EntriesGrow(h, i, args);
    AcceptServer(n, c, h, i, args);
    SendStep(n, Put(c, i, s', {}, {}), AfterEntries(h, i, args), i, reply);
  }

  lemma StillAppendOk(n: nat, c: Cluster, h: History, i: nat, s: Server, args: AppendArgs)
    requires |c.servers| == n && i < n && i != args.leader && AppendOk(n, c, h, args)
    ensures AppendOk(n, Put(c, i, s, {}, {}), AfterEntries(h, i, args), args)
  {
    EntriesGrow(h, i, args);
    GrowAppend(n, c, h, Put(c, i, s, {}, {}), AfterEntries(h, i, args), args);
  }

  // ---------- A leader handles a reply ----------

  // Up to the log it started with, a leader's indices mean nothing; beyond it, that the peer agreed.
  lemma AcknowledgeOk(n: nat, h: History, i: nat, s: Server, peer: nat, index: nat)
    requires ServerOk(n, h, i, s) && peer < |s.nextIndex| && peer < |s.matchIndex|
    requires Serving(s) ==> index < |s.log| && (index < |h.terms[s.term].startLog| || Acked(h, peer, s.term, index))
    ensures ServerOk(n, h, i, Acknowledge(s, peer, index))
  {
  }

  lemma RetryOk(n: nat, h: History, i: nat, s: Server, peer: nat, next: nat)
    requires ServerOk(n, h, i, s) && Serving(s) && peer < n && 1 <= next <= |s.log|
    ensures ServerOk(n, h, i, s.(nextIndex := s.nextIndex[peer := next]))
  {
  }

  // What a reply to the current leadership can be.
  lemma CurrentReply(n: nat, c: Cluster, h: History, i: nat, peer: nat, args: AppendArgs, term: nat, success: bool,
                     nextRetry: nat)
    requires |c.servers| == n && i < n && ServerOk(n, h, i, c.servers[i])
    requires MessageOk(n, c, h, AppendReply(peer, args, term, success, nextRetry)) && args.leader == i
    requires IsCurrentReply(c.servers[i], args)
    ensures var s := c.servers[i];
            && Serving(s) && peer < n && |s.nextIndex| == n && |s.matchIndex| == n
            && args.prevIndex + |args.entries| < |s.log| && args.leaderCommit < |s.log|
            && CommitOk(n, h, s.log, args.leaderCommit, s.term)
            && (success ==> Acked(h, peer, s.term, args.prevIndex + |args.entries|))
            && (!success && term <= s.term ==> 1 <= nextRetry <= |s.log|)
  {
  }

  ghost function Resent(s: Server, peer: nat, args: AppendArgs, term: nat, success: bool, nextRetry: nat): set<Message>
    requires Retries(s, args, term, success, nextRetry) ==> CanSendFrom(s, nextRetry)
  {
    if Retries(s, args, term, success, nextRetry)
    then {Append(peer, AppendFrom(s, args.leader, nextRetry, args.leaderCommit))}
    else {}
  }

  lemma AppendReplyKeeps(n: nat, c: Cluster, h: History, i: nat, peer: nat, args: AppendArgs, term: nat, success: bool,
                         nextRetry: nat)
    requires Inv(n, c, h) && i < n && args.leader == i
    requires AppendReply(peer, args, term, success, nextRetry) in c.net
    requires IsCurrentReply(c.servers[i], args) ==> peer < |c.servers[i].nextIndex| && peer < |c.servers[i].matchIndex|
    requires Retries(c.servers[i], args, term, success, nextRetry) ==> CanSendFrom(c.servers[i], nextRetry)
    ensures var s := c.servers[i];
            Inv(n, Put(c, i, OnAppendReply(s, args, peer, term, success, nextRetry),
                       Resent(s, peer, args, term, success, nextRetry), {}), h)
  {
    var s := c.servers[i];
    assert MessageOk(n, c, h, AppendReply(peer, args, term, success, nextRetry));
    if IsCurrentReply(s, args) {
      CurrentReply(n, c, h, i, peer, args, term, success, nextRetry);
      CurrentReplyKeeps(n, c, h, i, peer, args, term, success, nextRetry);
    } else {
      PutSame(c, i, {}, {});
    }
  }

  lemma CurrentReplyKeeps(n: nat, c: Cluster, h: History, i: nat, peer: nat, args: AppendArgs, term: nat,
                          success: bool, nextRetry: nat)
    requires Inv(n, c, h) && i < n && args.leader == i && IsCurrentReply(c.servers[i], args)
    requires var s := c.servers[i];
             && Serving(s) && peer < n && |s.nextIndex| == n && |s.matchIndex| == n
             && args.prevIndex + |args.entries| < |s.log| && args.leaderCommit < |s.log|
             && CommitOk(n, h, s.log, args.leaderCommit, s.term)
             && (success ==> Acked(h, peer, s.term, args.prevIndex + |args.entries|))
             && (Retries(s, args, term, success, nextRetry) ==> CanSendFrom(s, nextRetry))
    ensures var s := c.servers[i];
            Inv(n, Put(c, i, OnAppendReply(s, args, peer, term, success, nextRetry),
                       Resent(s, peer, args, term, success, nextRetry), {}), h)
  {
    var s := c.servers[i];
    var index := args.prevIndex + |args.entries|;
    ReplyShape(s, args, peer, term, success, nextRetry, index);
    if success {
      AcknowledgeStep(n, c, h, i, peer, index);
      ThenSeeTerm(n, c, h, i, Acknowledge(s, peer, index), term);
    } else if term > s.term {
      SeeTermStep(n, c, h, i, term);
    } else if Retries(s, args, term, success, nextRetry) {
      RetryStep(n, c, h, i, peer, args, nextRetry);
    } else {
      PutSame(c, i, {}, {});
    }
  }

  lemma ReplyShape(s: Server, args: AppendArgs, peer: nat, term: nat, success: bool, nextRetry: nat, index: nat)
    requires index == args.prevIndex + |args.entries|
    requires IsCurrentReply(s, args) && peer < |s.nextIndex| && peer < |s.matchIndex|
    requires Retries(s, args, term, success, nextRetry) ==> CanSendFrom(s, nextRetry)
    ensures Resent(s, peer, args, term, success, nextRetry) ==
            if !success && term <= s.term && Retries(s, args, term, success, nextRetry)
            then {Append(peer, AppendFrom(s, args.leader, nextRetry, args.leaderCommit))} else {}
    ensures OnAppendReply(s, args, peer, term, success, nextRetry) ==
            if success then SeeTerm(Acknowledge(s, peer, index), term)
            else if term > s.term then SeeTerm(s, term)
            else if Retries(s, args, term, success, nextRetry) then s.(nextIndex := s.nextIndex[peer := nextRetry])
            else s
  {
  }

  lemma AcknowledgeStep(n: nat, c: Cluster, h: History, i: nat, peer: nat, index: nat)
    requires Inv(n, c, h) && i < n
    requires var s := c.servers[i];
             && peer < |s.nextIndex| && peer < |s.matchIndex|
             && (Serving(s) ==> s.term in h.terms && index < |s.log| &&
                                (index < |h.terms[s.term].startLog| || Acked(h, peer, s.term, index)))
    ensures Inv(n, Put(c, i, Acknowledge(c.servers[i], peer, index), {}, {}), h)
  {
    assert ServerOk(n, h, i, c.servers[i]);
    AcknowledgeOk(n, h, i, c.servers[i], peer, index);
    QuietStep(n, c, h, i, Acknowledge(c.servers[i], peer, index), {}, {});
  }

  lemma ThenSeeTerm(n: nat, c: Cluster, h: History, i: nat, s: Server, term: nat)
    requires |c.servers| == n && i < n && Inv(n, Put(c, i, s, {}, {}), h)
    ensures Inv(n, Put(c, i, SeeTerm(s, term), {}, {}), h)
  {
    PutTwice(c, i, s, SeeTerm(s, term), {}, {});
    SeeTermStep(n, Put(c, i, s, {}, {}), h, i, term);
  }

  lemma RetryStep(n: nat, c: Cluster, h: History, i: nat, peer: nat, args: AppendArgs, next: nat)
    requires Inv(n, c, h) && i < n && peer < n && Serving(c.servers[i]) && args.leader == i
    requires var s := c.servers[i];
             && |s.nextIndex| == n && CanSendFrom(s, next)
             && args.leaderCommit < |s.log| && CommitOk(n, h, s.log, args.leaderCommit, s.term)
    ensures var s := c.servers[i];
            Inv(n, Put(c, i, s.(nextIndex := s.nextIndex[peer := next]),
                       {Append(peer, AppendFrom(s, i, next, args.leaderCommit))}, {}), h)
  {
    var s := c.servers[i];
    var s1 := s.(nextIndex := s.nextIndex[peer := next]);
    var m := Append(peer, AppendFrom(s, i, next, args.leaderCommit));
    var c1 := Put(c, i, s1, {}, {});
    assert m == Append(peer, AppendFrom(s1, i, next, args.leaderCommit));
    PutTwice(c, i, s1, s1, {m}, {});
    RetryServerStep(n, c, h, i, peer, next);
    assert ServerOk(n, h, i, s1);
    AppendFromOk(n, c1, h, i, next, args.leaderCommit);
    SendStep(n, c1, h, i, m);
  }

  lemma RetryServerStep(n: nat, c: Cluster, h: History, i: nat, peer: nat, next: nat)
    requires Inv(n, c, h) && i < n && peer < n && Serving(c.servers[i])
    requires |c.servers[i].nextIndex| == n && 1 <= next <= |c.servers[i].log|
    ensures Inv(n, Put(c, i, c.servers[i].(nextIndex := c.servers[i].nextIndex[peer := next]), {}, {}), h)
  {
    assert ServerOk(n, h, i, c.servers[i]);
    RetryOk(n, h, i, c.servers[i], peer, next);
    QuietStep(n, c, h, i, c.servers[i].(nextIndex := c.servers[i].nextIndex[peer := next]), {}, {});
  }

  // ---------- A server counts a heartbeat reply ----------

  lemma {:induction false} LastBeforeIs(log: seq<Entry>, term: nat, k: nat)
    requires k < |log|
    requires forall j: nat :: j <= k ==> log[j].term < term
    requires forall j: nat :: k < j < |log| ==> log[j].term >= term
    ensures LastBefore(log, term) == k
    decreases |log|
  {
    if k < |log| - 1 {
      LastBeforeIs(log[..|log| - 1], term, k);
    }
  }

  // What a serving leader may count: its own leadership's replies, and old ones within the log it started with.
  lemma MayBeCounted(n: nat, c: Cluster, h: History, i: nat, peer: nat, args: AppendArgs, term: nat, nextRetry: nat)
    requires |c.servers| == n && i < n && TermsOk(n, h) && ServerOk(n, h, i, c.servers[i]) && args.leader == i
    requires MessageOk(n, c, h, AppendReply(peer, args, term, true, nextRetry))
    requires Serving(c.servers[i]) && StaleWithin(0, c.servers[i], args, true)
    ensures var s, index := c.servers[i], args.prevIndex + |args.entries|;
            && s.term in h.terms && index < |s.log|
            && (index < |h.terms[s.term].startLog| || Acked(h, peer, s.term, index))
  {
    var s := c.servers[i];
    assert ReignOk(n, h, s.term);
    LastBeforeIs(s.log, s.term, |h.terms[s.term].startLog| - 1);
  }

  /**
    A heartbeat reply may be counted whoever the server has become since, if it comes from the current
    leadership or reaches no further than the entries of earlier terms.
   */
  lemma HeartbeatReplyKeeps(n: nat, c: Cluster, h: History, i: nat, peer: nat, args: AppendArgs, term: nat,
                            success: bool, nextRetry: nat)
    requires Inv(n, c, h) && i < n && args.leader == i
    requires AppendReply(peer, args, term, success, nextRetry) in c.net
    requires peer < |c.servers[i].nextIndex| && peer < |c.servers[i].matchIndex|
    requires StaleWithin(0, c.servers[i], args, success)
    ensures Inv(n, Put(c, i, OnHeartbeatReply(c.servers[i], args, peer, term, success), {}, {}), h)
  {
    var s, index := c.servers[i], args.prevIndex + |args.entries|;
    HeartbeatShape(s, args, peer, term, success, index);
    SeeTermStep(n, c, h, i, term);
    if success {
      var c1 := Put(c, i, SeeTerm(s, term), {}, {});
      if Serving(c1.servers[i]) {
        PutSame(c, i, {}, {});
        assert MessageOk(n, c, h, AppendReply(peer, args, term, true, nextRetry));
        assert ServerOk(n, h, i, s);
        MayBeCounted(n, c, h, i, peer, args, term, nextRetry);
      }
      AcknowledgeStep(n, c1, h, i, peer, index);
      PutTwice(c, i, SeeTerm(s, term), Acknowledge(SeeTerm(s, term), peer, index), {}, {});
    }
  }

  lemma HeartbeatShape(s: Server, args: AppendArgs, peer: nat, term: nat, success: bool, index: nat)
    requires peer < |s.nextIndex| && peer < |s.matchIndex| && index == args.prevIndex + |args.entries|
    ensures SeeTerm(s, term).nextIndex == s.nextIndex && SeeTerm(s, term).matchIndex == s.matchIndex
    ensures Serving(SeeTerm(s, term)) ==> SeeTerm(s, term) == s
    ensures OnHeartbeatReply(s, args, peer, term, success) ==
            if success then Acknowledge(SeeTerm(s, term), peer, index) else SeeTerm(s, term)
  {
  }

  // ---------- Committing and applying ----------

  // The scan finds an index that a majority holds in the leader's own term, or keeps the old one.
  lemma {:induction false} ScanFinds(s: Server, n: nat, i: nat, found: nat)
    requires found < i
    ensures var k := CommitScan(s, n, i, found);
            k == found || (k >= i && Committable(s, n, k))
    decreases |s.log| - i
  {
    if i < |s.log| {
      ScanFinds(s, n, i + 1, if Committable(s, n, i) then i else found);
    }
  }

  // ... and there is none beyond it.
  lemma {:induction false} ScanIsLargest(s: Server, n: nat, i: nat, found: nat, j: nat)
    requires found < i <= j < |s.log| && Committable(s, n, j)
    ensures j <= CommitScan(s, n, i, found)
    decreases |s.log| - i
  {
    var next := if Committable(s, n, i) then i else found;
    if i < j {
      ScanIsLargest(s, n, i + 1, next, j);
    } else {
      ScanFinds(s, n, i + 1, next);
    }
  }

  // At least the servers in q, a majority, have reached k.
  ghost predicate HeldByMajority(s: Server, n: nat, k: nat, q: set<nat>) {
    |q| > n / 2 && forall j :: j in q ==> j < |s.matchIndex| && s.matchIndex[j] >= k
  }

  /**
    The commit index of a leader goes to the last entry of its own term that a majority's matchIndex has
    reached, and nowhere if there is none beyond it.
   */
  lemma CommitsWhatMajorityHolds(s: Server, n: nat)
    requires s.role == Leader
    ensures var c := TryIncrementCommitIndex(s, n).commitIndex;
            && c >= s.commitIndex
            && (forall k: nat, q :: k < |s.log| && s.log[k].term == s.term && HeldByMajority(s, n, k, q) ==> k <= c)
            && (c > s.commitIndex ==> c < |s.log| && s.log[c].term == s.term && exists q :: HeldByMajority(s, n, c, q))
  {
    var c := TryIncrementCommitIndex(s, n).commitIndex;
    ScanFinds(s, n, s.commitIndex + 1, s.commitIndex);
    if c > s.commitIndex {
      assert HeldByMajority(s, n, c, Holders(s, c));
    }
    forall k: nat, q | k < |s.log| && s.log[k].term == s.term && HeldByMajority(s, n, k, q)
      ensures k <= c
    {
      MajorityIsHolders(s, n, k, q);
      if k > s.commitIndex {
        ScanIsLargest(s, n, s.commitIndex + 1, s.commitIndex, k);
      }
    }
  }

  lemma MajorityIsHolders(s: Server, n: nat, k: nat, q: set<nat>)
    requires HeldByMajority(s, n, k, q)
    ensures |Holders(s, k)| > n / 2
  {
    Smaller(q, Holders(s, k));
  }

  lemma CommitIsCommitted(n: nat, h: History, i: nat, s: Server, k: nat)
    requires TermsOk(n, h) && ServerOk(n, h, i, s) && s.role == Leader && k >= 1 && Committable(s, n, k)
    ensures Committed(n, h, s.term, k)
  {
    assert ReignOk(n, h, s.term);
    assert s.leaderInitDone;
    var holders := Holders(s, k);
    assert k >= |h.terms[s.term].startLog|;
    assert holders <= Ackers(h, n, s.term, k);
    Smaller(holders, Ackers(h, n, s.term, k));
  }

  lemma TryCommitOk(n: nat, h: History, i: nat, s: Server)
    requires TermsOk(n, h) && ServerOk(n, h, i, s) && s.role == Leader
    ensures ServerOk(n, h, i, TryIncrementCommitIndex(s, n))
  {
    var k := CommitScan(s, n, s.commitIndex + 1, s.commitIndex);
    ScanFinds(s, n, s.commitIndex + 1, s.commitIndex);
    if k != s.commitIndex {
      CommitIsCommitted(n, h, i, s, k);
      assert s.log[..k + 1] <= h.terms[s.term].log;
      assert CommitWitness(n, h, s.log, k, s.term, s.term, k);
    }
  }

  lemma CommitKeeps(n: nat, c: Cluster, h: History, i: nat)
    requires Inv(n, c, h) && i < n
    ensures Inv(n, Put(c, i, TryIncrementCommitIndex(c.servers[i], n), {}, {}), h)
  {
    if c.servers[i].role == Leader {
      TryCommitOk(n, h, i, c.servers[i]);
      QuietStep(n, c, h, i, TryIncrementCommitIndex(c.servers[i], n), {}, {});
    } else {
      PutSame(c, i, {}, {});
    }
  }

  lemma ApplyHands(n: nat, h: History, i: nat, s: Server, k: nat)
    requires ServerOk(n, h, i, s) && 1 <= k <= s.commitIndex
    ensures DeliveredOk(n, h, ApplyMsg(i, k, s.log[k].command))
  {
    var t, j :| CommitWitness(n, h, s.log, s.commitIndex, s.term, t, j);
    assert s.log[..s.commitIndex + 1][k] == h.terms[t].log[k];
    assert Committed(n, h, t, j);
  }

  lemma ApplyKeeps(n: nat, c: Cluster, h: History, i: nat, handed: set<ApplyMsg>)
    requires Inv(n, c, h) && i < n && c.servers[i].commitIndex < |c.servers[i].log|
    requires forall m :: m in handed ==>
               1 <= m.index <= c.servers[i].commitIndex && m == ApplyMsg(i, m.index, c.servers[i].log[m.index].command)
    ensures Inv(n, Put(c, i, c.servers[i].(lastApplied := c.servers[i].commitIndex), {}, handed), h)
  {
    ApplyOk(n, h, i, c.servers[i], handed);
    QuietStep(n, c, h, i, c.servers[i].(lastApplied := c.servers[i].commitIndex), {}, handed);
  }

  lemma ApplyOk(n: nat, h: History, i: nat, s: Server, handed: set<ApplyMsg>)
    requires ServerOk(n, h, i, s)
    requires forall m :: m in handed ==>
               1 <= m.index <= s.commitIndex && m == ApplyMsg(i, m.index, s.log[m.index].command)
    ensures ServerOk(n, h, i, s.(lastApplied := s.commitIndex))
    ensures forall m :: m in handed ==> DeliveredOk(n, h, m)
  {
    forall m | m in handed
      ensures DeliveredOk(n, h, m)
    {
      ApplyHands(n, h, i, s, m.index);
    }
  }

  // ---------- Snapshots and restarts ----------

  lemma SnapshotKeeps(n: nat, c: Cluster, h: History, i: nat, index: nat)
    requires Inv(n, c, h) && i < n
    ensures Inv(n, Put(c, i, OnSnapshot(c.servers[i], index), {}, {}), h)
  {
    assert ServerOk(n, h, i, c.servers[i]);
    QuietStep(n, c, h, i, OnSnapshot(c.servers[i], index), {}, {});
  }

  lemma RestartOk(n: nat, h: History, i: nat, s: Server)
    requires ServerOk(n, h, i, s) && s.disk.Saved?
    ensures ServerOk(n, h, i, Restart(s))
    ensures Quiet(s, Restart(s))
  {
    CommitLater(n, h, s.log, s.commitIndex, s.term, s.base, s.term);
  }

  lemma RestartKeeps(n: nat, c: Cluster, h: History, i: nat)
    requires Inv(n, c, h) && i < n && c.servers[i].disk.Saved?
    ensures Inv(n, Put(c, i, Restart(c.servers[i]), {}, {}), h)
  {
    RestartOk(n, h, i, c.servers[i]);
    QuietStep(n, c, h, i, Restart(c.servers[i]), {}, {});
  }
}
