/**
  What a server makes of a message and what it answers: the terms it notices, when it votes, when it
  accepts entries, and that a leader whose requests are refused gets through in the end.
 */
module RaftResponses {
  import opened RaftServer
  import opened RaftCluster
  import opened RaftInvariant
  import opened RaftReplication
  import opened RaftSafety

  // ---------- Terms ----------

  function Max(a: nat, b: nat): nat {
    if a < b then b else a
  }

  // The server looks at the message: a reply only counts while it is being waited for.
  ghost predicate Heeds(s: Server, a: Action) {
    match a
    case DeliverVoteRequest(_, _) => true
    case DeliverVoteReply(_, _, _, _) => s.poll.Polling? && s.term <= s.poll.term && s.role == Candidate
    case DeliverAppend(_, _) => true
    case DeliverAppendReply(_, args, _, _, _) => IsCurrentReply(s, args)
    case DeliverHeartbeatReply(_, _, _, _, _) => true
    case _ => false
  }

  ghost function MessageTerm(a: Action): nat {
    match a
    case DeliverVoteRequest(_, vote) => vote.term
    case DeliverVoteReply(_, _, term, _) => term
    case DeliverAppend(_, args) => args.term
    case DeliverAppendReply(_, _, term, _, _) => term
    case DeliverHeartbeatReply(_, _, term, _, _) => term
    case _ => 0
  }

  // s' has noticed the term, and a higher one has made it a follower.
  ghost predicate Notices(s: Server, term: nat, s': Server) {
    && s'.term == Max(s.term, term)
    && (term > s.term ==> s'.role == Follower && s'.disk == Saved(s'.term, s'.votedFor, s'.base, s'.log))
  }

  lemma RequestNoticed(s: Server, vote: VoteArgs)
    requires WellFormed(s)
    ensures Notices(s, vote.term, OnRequestVote(s, vote).server)
    ensures OnRequestVote(s, vote).term == OnRequestVote(s, vote).server.term
  {
  }

  lemma AppendNoticed(s: Server, args: AppendArgs)
    requires WellFormed(s)
    ensures Notices(s, args.term, OnAppendEntries(s, args).server)
    ensures OnAppendEntries(s, args).term == OnAppendEntries(s, args).server.term
    ensures args.term >= s.term ==> OnAppendEntries(s, args).server.role != Candidate
  {
  }

  lemma ReplyNoticed(c: Cluster, a: Action)
    requires Possible(c, a) && Safe(c, a) && Heeds(c.servers[Actor(a)], a)
    requires !a.DeliverVoteRequest? && !a.DeliverAppend?
    ensures Notices(c.servers[Actor(a)], MessageTerm(a), Next(c, a))
  {
  }

  // The term a reply carries.
  ghost predicate CarriesTerm(m: Message, term: nat) {
    (m.VoteReply? || m.AppendReply?) ==> m.term == term
  }

  /**
    After any message it looks at, a server is in the higher of the two terms, as a follower if that is
    a new one, and says so in its reply.
   */
  lemma TermsAreSeen(c: Cluster, a: Action)
    requires Possible(c, a) && Safe(c, a) && Heeds(c.servers[Actor(a)], a)
    ensures Notices(c.servers[Actor(a)], MessageTerm(a), Next(c, a))
    ensures forall m :: m in Sent(c, a) ==> CarriesTerm(m, Next(c, a).term)
  {
    var s := c.servers[Actor(a)];
    if a.DeliverVoteRequest? {
      RequestNoticed(s, a.vote);
    } else if a.DeliverAppend? {
      AppendNoticed(s, a.args);
    } else {
      ReplyNoticed(c, a);
    }
  }

  /** Whoever hears from the leader of its term or a later one follows that term, in every run. */
  lemma HearersFollow(n: nat, actions: seq<Action>, a: Action)
    requires IsRun(n, actions) && a.DeliverAppend?
    requires Enabled(After(n, actions), a) && Safe(After(n, actions), a)
    requires a.args.term >= After(n, actions).servers[a.i].term
    ensures var s' := Next(After(n, actions), a); s'.role == Follower && s'.term == a.args.term
  {
    var c := After(n, actions);
    RunInvariant(n, actions);
    HeardFromOther(n, c, Past(n, actions), a.i, a.args);
    HearerFollows(c.servers[a.i], a.args);
  }

  lemma HearerFollows(s: Server, args: AppendArgs)
    requires WellFormed(s) && s.term <= args.term && (s.term == args.term ==> s.role != Leader)
    ensures var s' := OnAppendEntries(s, args).server; s'.role == Follower && s'.term == args.term
  {
    AppendNoticed(s, args);
    RoleOnlyDrops(s, args);
  }

  lemma HeardFromOther(n: nat, c: Cluster, h: History, i: nat, args: AppendArgs)
    requires Inv(n, c, h) && i < n && Append(i, args) in c.net && i != args.leader
    ensures c.servers[i].term == args.term ==> c.servers[i].role != Leader
  {
    assert MessageOk(n, c, h, Append(i, args)) && ServerOk(n, h, i, c.servers[i]);
    NotItsLeader(n, h, i, c.servers[i], args);
  }

  lemma NotItsLeader(n: nat, h: History, i: nat, s: Server, args: AppendArgs)
    requires ServerOk(n, h, i, s) && i != args.leader
    requires args.term in h.terms && h.terms[args.term].leader == args.leader
    ensures s.term == args.term ==> s.role != Leader
  {
  }

  lemma RoleOnlyDrops(s: Server, args: AppendArgs)
    requires WellFormed(s)
    ensures OnAppendEntries(s, args).server.role == Leader ==> s.role == Leader && args.term <= s.term
  {
  }

  // ---------- Votes ----------

  // A log that ends in an older term, or in the same one no earlier, is no better.
  ghost predicate Better(log: seq<Entry>, lastIndex: nat, lastTerm: nat)
    requires |log| >= 1
  {
    LastTerm(log) > lastTerm || (LastTerm(log) == lastTerm && LastIndex(log) > lastIndex)
  }

  /** A server refuses its vote only in a later term, to another candidate of its term, or to a worse log. */
  lemma VoteExactly(s: Server, vote: VoteArgs)
    requires WellFormed(s) && s.log[0] == GENESIS
    ensures OnRequestVote(s, vote).granted <==>
            && s.term <= vote.term
            && (s.term == vote.term ==> s.votedFor == NOBODY || s.votedFor == vote.candidate)
            && !Better(s.log, vote.lastLogIndex, vote.lastLogTerm)
    ensures OnRequestVote(s, vote).granted ==> OnRequestVote(s, vote).server.votedFor == vote.candidate
    ensures !OnRequestVote(s, vote).granted && s.term == vote.term ==> OnRequestVote(s, vote).server == s
  {
  }

  /** In one term a server never votes for two, through crashes and restarts. */
  lemma OneVotePerTerm(n: nat, actions: seq<Action>, m: nat, i: nat)
    requires IsRun(n, actions) && m <= |actions| && IsRun(n, actions[..m])
    requires i < |After(n, actions[..m]).servers| && i < |After(n, actions).servers|
    requires After(n, actions[..m]).servers[i].term == After(n, actions).servers[i].term
    requires After(n, actions[..m]).servers[i].votedFor != NOBODY
    ensures After(n, actions).servers[i].votedFor == After(n, actions[..m]).servers[i].votedFor
  {
    RunInvariant(n, actions[..m]);
    RunInvariant(n, actions);
    PastGrows(n, actions, m);
    assert ServerOk(n, Past(n, actions[..m]), i, After(n, actions[..m]).servers[i]);
    assert ServerOk(n, Past(n, actions), i, After(n, actions).servers[i]);
  }

  // ---------- Entries ----------

  /** A request is accepted exactly when it is not of an earlier term and its previous entry is there. */
  lemma AppendExactly(s: Server, args: AppendArgs)
    requires WellFormed(s)
    ensures var r := OnAppendEntries(s, args);
            && (r.success <==> s.term <= args.term && s.base <= args.prevIndex && Matches(s.log, args))
            && (r.success ==>
                  r.server.commitIndex == if args.leaderCommit <= s.commitIndex then s.commitIndex
                                          else Min(args.leaderCommit, LastIndex(r.server.log)))
            && (!r.success ==> r.server.log == s.log && r.server.commitIndex == s.commitIndex)
  {
  }

  // The walk back is over entries of the conflicting term only, and over all of them.
  ghost predicate SkipsTerm(s: Server, prevIndex: nat, next: nat)
    requires prevIndex < |s.log|
  {
    && 1 <= next <= prevIndex
    && (forall k: nat :: next < k <= prevIndex ==> s.log[k].term == s.log[prevIndex].term)
    && (next == 1 || next < s.base || s.log[next].term != s.log[prevIndex].term)
  }

  /** A refusal names the follower's snapshot or last entry, or goes back over a whole term. */
  lemma RefusalExactly(s: Server, args: AppendArgs)
    requires WellFormed(s) && s.term <= args.term && !OnAppendEntries(s, args).success
    requires args.prevIndex == 0 ==> s.base > 0
    ensures var next := OnAppendEntries(s, args).nextRetry;
            if args.prevIndex < s.base then next == s.base + 1
            else if args.prevIndex >= |s.log| then next == |s.log|
            else SkipsTerm(s, args.prevIndex, next)
  {
    if s.base <= args.prevIndex < |s.log| {
      WalksBack(s.log, s.base, args.prevIndex, s.log[args.prevIndex].term);
    }
  }

  lemma {:induction false} WalksBack(log: seq<Entry>, base: nat, at: nat, term: nat)
    requires 1 <= at < |log| && log[at].term == term
    ensures var next := Backoff(log, base, at, term);
            && 1 <= next <= at && (forall k: nat :: next < k <= at ==> log[k].term == term)
            && (next == 1 || next < base || log[next].term != term)
    decreases at
  {
    if at > 1 && at >= base && log[at - 1].term == term {
      WalksBack(log, base, at - 1, term);
    }
  }

  // ---------- Catching up ----------

  // The follower's answer to everything from `next` on.
  ghost function Try(s: Server, i: nat, t: Server, next: nat): AppendOutcome
    requires CanSendFrom(s, next) && WellFormed(t)
  {
    OnAppendEntries(t, AppendFrom(s, i, next, s.commitIndex))
  }

  // The leader, sending again from where each refusal says, is accepted after at most k refusals.
  ghost predicate AcceptedWithin(s: Server, i: nat, t: Server, next: nat, k: nat)
    decreases k
  {
    && CanSendFrom(s, next) && WellFormed(t)
    && var r := Try(s, i, t, next);
       !r.fatal && (r.success || (k > 0 && AcceptedWithin(s, i, r.server, r.nextRetry, k - 1)))
  }

  // The leader has its whole log, and holds what the follower's snapshot ends with.
  ghost predicate CanCatchUp(s: Server, t: Server) {
    && s.base == 0 && WellFormed(s) && WellFormed(t) && s.log[0] == t.log[0] && t.term <= s.term
    && t.base < |s.log| && s.log[t.base] == t.log[t.base]
  }

  lemma TryAgain(s: Server, i: nat, t: Server, next: nat)
    requires CanCatchUp(s, t) && CanSendFrom(s, next) && !Try(s, i, t, next).success
    ensures var r := Try(s, i, t, next);
            && CanCatchUp(s, r.server) && r.server.base == t.base && !r.fatal && CanSendFrom(s, r.nextRetry)
            && (if next - 1 < t.base then r.nextRetry == t.base + 1 else r.nextRetry < next)
  {
    var args := AppendFrom(s, i, next, s.commitIndex);
    AppendExactly(t, args);
    RefusalExactly(t, args);
    AppendNoticed(t, args);
    KeepsBase(t, args);
  }

  lemma KeepsBase(s: Server, args: AppendArgs)
    requires WellFormed(s)
    ensures OnAppendEntries(s, args).server.base == s.base
    ensures OnAppendEntries(s, args).fatal ==> args.prevIndex == 0 && s.base == 0 && s.log[0].term != args.prevTerm
  {
  }

  lemma AcceptedAtSnapshot(s: Server, i: nat, t: Server)
    requires CanCatchUp(s, t)
    ensures CanSendFrom(s, t.base + 1) && Try(s, i, t, t.base + 1).success && !Try(s, i, t, t.base + 1).fatal
  {
    AppendExactly(t, AppendFrom(s, i, t.base + 1, s.commitIndex));
  }

  lemma {:induction false} AcceptedInTheEnd(s: Server, i: nat, t: Server, next: nat)
    requires CanCatchUp(s, t) && CanSendFrom(s, next)
    ensures AcceptedWithin(s, i, t, next, next)
    decreases next
  {
    var r := Try(s, i, t, next);
    KeepsBase(t, AppendFrom(s, i, next, s.commitIndex));
    AppendExactly(t, AppendFrom(s, i, next, s.commitIndex));
    if !r.success {
      TryAgain(s, i, t, next);
      if next - 1 < t.base {
        AcceptedAtSnapshot(s, i, r.server);
      } else {
        AcceptedInTheEnd(s, i, r.server, r.nextRetry);
        MoreTries(s, i, r.server, r.nextRetry, r.nextRetry, next - 1);
      }
    }
  }

  lemma {:induction false} MoreTries(s: Server, i: nat, t: Server, next: nat, k: nat, k': nat)
    requires AcceptedWithin(s, i, t, next, k) && k <= k'
    ensures AcceptedWithin(s, i, t, next, k')
    decreases k
  {
    var r := Try(s, i, t, next);
    if !r.success {
      MoreTries(s, i, r.server, r.nextRetry, k - 1, k' - 1);
    }
  }

  /**
    In every reachable state, a leader with its whole log that keeps sending a follower of no later term
    what it asks for is accepted, after no more refusals than the index it began with.
   */
  lemma FollowersCatchUp(n: nat, actions: seq<Action>, i: nat, j: nat, next: nat)
    requires IsRun(n, actions) && i < |After(n, actions).servers| && j < |After(n, actions).servers|
    requires var s, t := After(n, actions).servers[i], After(n, actions).servers[j];
             s.role == Leader && s.base == 0 && t.term <= s.term && 1 <= next <= |s.log|
    ensures AcceptedWithin(After(n, actions).servers[i], i, After(n, actions).servers[j], next, next)
  {
    var s, t := After(n, actions).servers[i], After(n, actions).servers[j];
    LogsBegin(n, actions, i);
    LogsBegin(n, actions, j);
    if t.base > 0 {
      assert actions[..|actions|] == actions;
      LeadersHoldCommitted(n, actions, |actions|, j, i, t.base);
    }
    AcceptedInTheEnd(s, i, t, next);
  }

  lemma LogsBegin(n: nat, actions: seq<Action>, i: nat)
    requires IsRun(n, actions) && i < |After(n, actions).servers|
    ensures var s := After(n, actions).servers[i];
            WellFormed(s) && s.log[0] == GENESIS && s.base <= s.commitIndex
  {
    RunInvariant(n, actions);
    assert ServerOk(n, Past(n, actions), i, After(n, actions).servers[i]);
  }

  // ---------- What a leader knows ----------

  lemma AcknowledgeOnlyRaises(s: Server, peer: nat, index: nat)
    requires peer < |s.nextIndex| && peer < |s.matchIndex|
    ensures var s' := Acknowledge(s, peer, index);
            && |s'.matchIndex| == |s.matchIndex| && s'.matchIndex[peer] == Max(s.matchIndex[peer], index)
            && (s'.matchIndex[peer] > s.matchIndex[peer] ==>
                  peer < |s'.nextIndex| && s'.nextIndex[peer] == s'.matchIndex[peer] + 1)
            && forall j: nat :: j < |s.matchIndex| && j != peer ==> s'.matchIndex[j] == s.matchIndex[j]
  {
  }

  // Nothing in s' is known to be held by less.
  ghost predicate KnowsAsMuch(s: Server, s': Server) {
    |s'.matchIndex| == |s.matchIndex| && forall j: nat :: j < |s.matchIndex| ==> s'.matchIndex[j] >= s.matchIndex[j]
  }

  lemma ReplyRaises(c: Cluster, a: Action)
    requires Enabled(c, a) && Safe(c, a) && (a.DeliverAppendReply? || a.DeliverHeartbeatReply?)
    ensures KnowsAsMuch(c.servers[Actor(a)], Next(c, a))
  {
    var s := c.servers[Actor(a)];
    if a.success && (a.DeliverHeartbeatReply? || IsCurrentReply(s, a.args)) {
      AcknowledgeOnlyRaises(SeeTerm(s, a.term), a.peer, a.args.prevIndex + |a.args.entries|);
    }
  }

  lemma CommandRaises(n: nat, c: Cluster, h: History, a: Action)
    requires Inv(n, c, h) && Enabled(c, a) && Safe(c, a) && a.ClientStart?
    ensures KnowsAsMuch(c.servers[a.i], Next(c, a))
  {
    var s := c.servers[a.i];
    assert ServerOk(n, h, a.i, s);
    if Serving(s) {
      HistoryAcks(n, h);
      OwnMatchGrows(n, h, a.i, s);
      StartRaises(s, a.i, a.command);
    }
  }

  lemma StartRaises(s: Server, i: nat, command: string)
    requires WellFormed(s) && Serving(s) && i < |s.nextIndex| && i < |s.matchIndex|
    requires s.matchIndex[i] <= LastIndex(s.log)
    ensures KnowsAsMuch(s, RaftServer.Start(s, i, command))
  {
  }

  /** As long as a leadership lasts, what it knows its peers to hold never gets less, in every run. */
  lemma MatchNeverFalls(n: nat, actions: seq<Action>, a: Action)
    requires IsRun(n, actions) && Enabled(After(n, actions), a) && Safe(After(n, actions), a) && !a.BeginLeadership?
    requires var s, s' := After(n, actions).servers[Actor(a)], Next(After(n, actions), a);
             Serving(s) && s'.role == Leader && s'.term == s.term
    ensures KnowsAsMuch(After(n, actions).servers[Actor(a)], Next(After(n, actions), a))
  {
    if a.DeliverAppendReply? || a.DeliverHeartbeatReply? {
      ReplyRaises(After(n, actions), a);
    } else if a.ClientStart? {
      RunInvariant(n, actions);
      CommandRaises(n, After(n, actions), Past(n, actions), a);
    } else {
      MatchUntouched(After(n, actions), a);
    }
  }

  lemma OwnMatchGrows(n: nat, h: History, i: nat, s: Server)
    requires TermsOk(n, h) && AcksWithin(h) && ServerOk(n, h, i, s) && Serving(s)
    ensures s.matchIndex[i] <= LastIndex(s.log)
  {
    assert ReignOk(n, h, s.term);
  }

  lemma MatchUntouched(c: Cluster, a: Action)
    requires Enabled(c, a) && Safe(c, a) && !a.BeginLeadership? && !a.ClientStart?
    requires !a.DeliverAppendReply? && !a.DeliverHeartbeatReply?
    requires Serving(c.servers[Actor(a)]) && Next(c, a).role == Leader
    ensures Next(c, a).matchIndex == c.servers[Actor(a)].matchIndex
  {
  }
}
