/**
  What holds in every reachable state of a cluster.

  The argument is about a record of the past that the servers themselves do not keep: for each
  term the elected leader, the log it started from and the log it ended with; every ballot with
  the voter's log at that moment; and how far each server ever agreed with each leader.
 */
module RaftInvariant {
  import opened RaftServer
  import opened RaftCluster

  datatype Reign = Reign(leader: nat, startLog: seq<Entry>, log: seq<Entry>, quorum: set<nat>)

  datatype Ballot = Ballot(candidate: nat, log: seq<Entry>)

  datatype History = History(
    terms: map<nat, Reign>,
    ballots: map<(nat, nat), Ballot>,  // (term, voter)
    acks: map<(nat, nat), nat>)        // (server, term) -> last index agreed on

  // ---------- Recording ----------

  ghost function Granters(h: History, n: nat, term: nat, candidate: nat): set<nat> {
    set v: nat | v < n && (term, v) in h.ballots && h.ballots[(term, v)].candidate == candidate
  }

  ghost function Voted(h: History, voter: nat, term: nat, candidate: nat, log: seq<Entry>): History {
    if (term, voter) in h.ballots then h else h.(ballots := h.ballots[(term, voter) := Ballot(candidate, log)])
  }

  ghost function Elected(h: History, n: nat, s: Server, i: nat): History {
    h.(terms := h.terms[s.term := Reign(i, s.log, s.log, Granters(h, n, s.term, i))])
  }

  ghost predicate Acked(h: History, v: nat, t: nat, k: nat) {
    (v, t) in h.acks && k <= h.acks[(v, t)]
  }

  ghost function Agreed(h: History, v: nat, t: nat, k: nat): History {
    if Acked(h, v, t, k) then h else h.(acks := h.acks[(v, t) := k])
  }

  ghost function Extended(h: History, t: nat, log: seq<Entry>): History
    requires t in h.terms
  {
    h.(terms := h.terms[t := h.terms[t].(log := log)])
  }

  // s took a command as leader and became s'.
  ghost function AfterCommand(h: History, i: nat, s: Server, s': Server): History
    requires s.term in h.terms
  {
    Agreed(Extended(h, s.term, s'.log), i, s.term, |s.log|)
  }

  // Server i accepted a request.
  ghost function AfterEntries(h: History, i: nat, args: AppendArgs): History {
    Agreed(h, i, args.term, args.prevIndex + |args.entries|)
  }

  ghost function Record(c: Cluster, h: History, a: Action): History
    requires Enabled(c, a) && Safe(c, a)
  {
    var s, s' := c.servers[Actor(a)], Next(c, a);
    match a
    case Campaign(i) => Voted(h, i, s'.term, i, s.log)
    case DeliverVoteRequest(i, vote) =>
      if OnRequestVote(s, vote).granted then Voted(h, i, s'.term, vote.candidate, s.log) else h
    case DeliverVoteReply(vote, _, _, _) =>
      if s'.role == Leader && s.role != Leader then Elected(h, |c.servers|, s', vote.candidate) else h
    case ClientStart(i, _) =>
      if Serving(s) && s.term in h.terms then AfterCommand(h, i, s, s') else h
    case DeliverAppend(i, args) =>
      if OnAppendEntries(s, args).success then AfterEntries(h, i, args) else h
    case _ => h
  }

  ghost function Past(n: nat, actions: seq<Action>): History
    requires IsRun(n, actions)
    decreases |actions|
  {
    if actions == [] then History(map[], map[], map[])
    else
      var earlier := actions[..|actions| - 1];
      Record(After(n, earlier), Past(n, earlier), actions[|actions| - 1])
  }

  // ---------- The invariant ----------

  // A log entry of term t stands where t's leader put it, after the entries that leader had before it.
  ghost predicate EntryOk(h: History, log: seq<Entry>, k: nat)
    requires k < |log|
  {
    log[k].term in h.terms && log[..k + 1] <= h.terms[log[k].term].log
  }

  ghost predicate LogOk(h: History, log: seq<Entry>) {
    && |log| >= 1 && log[0] == GENESIS
    && forall k: nat :: 1 <= k < |log| ==> EntryOk(h, log, k)
  }

  ghost predicate ReignOk(n: nat, h: History, t: nat)
    requires t in h.terms
  {
    var r := h.terms[t];
    && t >= 1 && r.leader < n
    && |r.startLog| >= 1 && r.startLog <= r.log && LogOk(h, r.log)
    && (forall k: nat :: k < |r.startLog| ==> r.log[k].term < t)
    && (forall k: nat :: |r.startLog| <= k < |r.log| ==> r.log[k].term == t)
    && 2 * |r.quorum| > n
    && forall v :: v in r.quorum ==> v < n && (t, v) in h.ballots && VotedInto(r, h.ballots[(t, v)])
  }

  ghost predicate VotedInto(r: Reign, b: Ballot) {
    b.candidate == r.leader && |b.log| >= 1 && AtLeast(r.startLog, b.log)
  }

  // Log a is at least as up-to-date as log b.
  ghost predicate AtLeast(a: seq<Entry>, b: seq<Entry>) {
    |a| >= 1 && |b| >= 1 && UpToDate(LastIndex(a), LastTerm(a), b)
  }

  ghost predicate TermsOk(n: nat, h: History) {
    forall t :: t in h.terms ==> ReignOk(n, h, t)
  }

  ghost function Ackers(h: History, n: nat, t: nat, k: nat): set<nat> {
    set v: nat | v < n && Acked(h, v, t, k)
  }

  // The leader of t replicated its own entry at k on a majority.
  ghost predicate Committed(n: nat, h: History, t: nat, k: nat) {
    && t in h.terms && k < |h.terms[t].log| && h.terms[t].log[k].term == t
    && 2 * |Ackers(h, n, t, k)| > n
  }

  ghost predicate CommitWitness(n: nat, h: History, log: seq<Entry>, commit: nat, term: nat, t: nat, k: nat) {
    && Committed(n, h, t, k) && t <= term
    && commit <= k && commit < |log| && log[..commit + 1] <= h.terms[t].log
  }

  ghost predicate CommitOk(n: nat, h: History, log: seq<Entry>, commit: nat, term: nat) {
    commit == 0 || exists t, k :: CommitWitness(n, h, log, commit, term, t, k)
  }

  ghost predicate PollOk(n: nat, h: History, i: nat, s: Server)
    requires s.poll.Polling?
  {
    var T := s.poll.term;
    && T <= s.term
    && (T, i) in h.ballots && h.ballots[(T, i)].candidate == i
    && s.poll.votes <= |Granters(h, n, T, i) * (s.poll.answered + {i})|
    && (T == s.term && T in h.terms && h.terms[T].leader == i ==> s.role == Leader)
  }

  ghost predicate LeaderOk(n: nat, h: History, i: nat, s: Server)
    requires s.leaderInitDone ==> |s.nextIndex| == n && |s.matchIndex| == n
  {
    && s.term in h.terms
    && h.terms[s.term].leader == i
    && s.log == h.terms[s.term].log
    && (!s.leaderInitDone ==> s.log == h.terms[s.term].startLog)
    && (s.leaderInitDone ==>
          forall j: nat :: j < n ==>
            s.matchIndex[j] < |h.terms[s.term].startLog| || Acked(h, j, s.term, s.matchIndex[j]))
    && (s.leaderInitDone ==> forall j: nat :: j < n ==> 1 <= s.nextIndex[j] <= |s.log|)
  }

  ghost predicate ServerOk(n: nat, h: History, i: nat, s: Server) {
    && i < n && WellFormed(s) && LogOk(h, s.log)
    && (forall k: nat :: k < |s.log| ==> s.log[k].term <= s.term)
    && s.base <= s.lastApplied <= s.commitIndex < |s.log|
    && (s.disk.Saved? ==> s.disk == Saved(s.term, s.votedFor, s.base, s.log))
    && (s.leaderInitDone ==> |s.nextIndex| == n && |s.matchIndex| == n)
    && (s.votedFor == NOBODY <==> (s.term, i) !in h.ballots)
    && ((s.term, i) in h.ballots ==> s.votedFor == h.ballots[(s.term, i)].candidate)
    && (s.role == Leader ==> LeaderOk(n, h, i, s))
    && (s.poll.Polling? ==> PollOk(n, h, i, s))
    && CommitOk(n, h, s.log, s.commitIndex, s.term)
  }

  // Until the election of T is decided, whoever voted for a candidate had a log no newer than its.
  ghost predicate BallotOk(n: nat, c: Cluster, h: History, T: nat, v: nat)
    requires |c.servers| == n && (T, v) in h.ballots
  {
    var b := h.ballots[(T, v)];
    && v < n && T <= c.servers[v].term
    && b.candidate < n && T <= c.servers[b.candidate].term
    && (T !in h.terms && c.servers[b.candidate].term == T ==> AtLeast(c.servers[b.candidate].log, b.log))
  }

  // Some leader strictly between the terms t and T started without P.
  ghost predicate Lost(h: History, P: seq<Entry>, t: nat, T: nat) {
    exists u :: u in h.terms && t < u < T && !(P <= h.terms[u].startLog)
  }

  // The leader of t's entries up to k are in `log`, unless a leader before T started without them.
  ghost predicate Kept(h: History, t: nat, k: nat, log: seq<Entry>, T: nat)
    requires t in h.terms && k < |h.terms[t].log|
  {
    var P := h.terms[t].log[..k + 1];
    P <= log || Lost(h, P, t, T)
  }

  ghost predicate KeptBy(h: History, t: nat, k: nat, s: Server)
    requires t in h.terms && k < |h.terms[t].log|
  {
    Kept(h, t, k, s.log, s.term + 1)
  }

  // A ballot that counts, or may still count, towards the election of T.
  ghost predicate Counts(h: History, T: nat, v: nat) {
    (T, v) in h.ballots && (T in h.terms ==> v in h.terms[T].quorum)
  }

  // What v agreed on with the leader of t is in its log at every later vote that counts ...
  ghost predicate AckKeptByVotes(n: nat, h: History, v: nat, t: nat)
    requires (v, t) in h.acks
  {
    && v < n && t in h.terms && h.acks[(v, t)] < |h.terms[t].log|
    && forall k: nat, T: nat :: k <= h.acks[(v, t)] && t < T && Counts(h, T, v) ==>
         Kept(h, t, k, h.ballots[(T, v)].log, T)
  }

  // ... and stays in its log now, unless some later leader started without it.
  ghost predicate AckKeptByServer(n: nat, c: Cluster, h: History, v: nat, t: nat)
    requires |c.servers| == n && (v, t) in h.acks
  {
    && v < n && t in h.terms && h.acks[(v, t)] < |h.terms[t].log| && t <= c.servers[v].term
    && forall k: nat :: k <= h.acks[(v, t)] ==> KeptBy(h, t, k, c.servers[v])
  }

  ghost predicate HistoryOk(n: nat, h: History) {
    && TermsOk(n, h)
    && (forall T, v :: (T, v) in h.ballots ==> 1 <= T && LogOk(h, h.ballots[(T, v)].log))
    && (forall v, t :: (v, t) in h.acks ==> AckKeptByVotes(n, h, v, t))
  }

  ghost predicate AppendOk(n: nat, c: Cluster, h: History, args: AppendArgs)
    requires |c.servers| == n
  {
    && args.term in h.terms
    && var r := h.terms[args.term];
    && args.leader == r.leader && r.leader < n
    && args.prevIndex + |args.entries| < |r.log|
    && args.prevTerm == r.log[args.prevIndex].term
    && args.entries == r.log[args.prevIndex + 1..args.prevIndex + 1 + |args.entries|]
    && args.leaderCommit <= args.prevIndex + |args.entries|
    && CommitOk(n, h, r.log, args.leaderCommit, args.term)
    && var s := c.servers[args.leader];
    && args.term <= s.term
    && (s.term == args.term && s.role == Leader ==> s.leaderInitDone)
  }

  ghost predicate MessageOk(n: nat, c: Cluster, h: History, m: Message)
    requires |c.servers| == n
  {
    match m
    case VoteRequest(vote) =>
      && vote.candidate < n && vote.term <= c.servers[vote.candidate].term
      && (vote.term, vote.candidate) in h.ballots
      && var s := c.servers[vote.candidate];
         (vote.term !in h.terms && s.term == vote.term && |s.log| >= 1 ==>
            vote.lastLogIndex == LastIndex(s.log) && vote.lastLogTerm == LastTerm(s.log))
    case VoteReply(vote, voter, term, granted) =>
      && voter < n && voter != vote.candidate
      && (granted ==> (vote.term, voter) in h.ballots && h.ballots[(vote.term, voter)].candidate == vote.candidate)
    case Append(to, args) =>
      to < n && AppendOk(n, c, h, args)
    case AppendReply(from, args, term, success, nextRetry) =>
      && from < n && AppendOk(n, c, h, args)
      && (success ==> Acked(h, from, args.term, args.prevIndex + |args.entries|))
      && (!success && term <= args.term ==> 1 <= nextRetry <= |h.terms[args.term].log|)
  }

  ghost predicate DeliveredOk(n: nat, h: History, m: ApplyMsg) {
    exists t, k :: Committed(n, h, t, k) && m.index <= k && h.terms[t].log[m.index].command == m.command
  }

  ghost predicate ServersOk(n: nat, c: Cluster, h: History)
    requires |c.servers| == n
  {
    forall i: nat :: i < n ==> ServerOk(n, h, i, c.servers[i])
  }

  ghost predicate BallotsOk(n: nat, c: Cluster, h: History)
    requires |c.servers| == n
  {
    forall T, v :: (T, v) in h.ballots ==> BallotOk(n, c, h, T, v)
  }

  ghost predicate AcksOk(n: nat, c: Cluster, h: History)
    requires |c.servers| == n
  {
    forall v, t :: (v, t) in h.acks ==> AckKeptByServer(n, c, h, v, t)
  }

  ghost predicate NetOk(n: nat, c: Cluster, h: History)
    requires |c.servers| == n
  {
    forall m :: m in c.net ==> MessageOk(n, c, h, m)
  }

  ghost predicate AllDeliveredOk(n: nat, c: Cluster, h: History) {
    forall m :: m in c.delivered ==> DeliveredOk(n, h, m)
  }

  ghost predicate Inv(n: nat, c: Cluster, h: History) {
    && |c.servers| == n
    && HistoryOk(n, h)
    && ServersOk(n, c, h)
    && BallotsOk(n, c, h)
    && AcksOk(n, c, h)
    && NetOk(n, c, h)
    && AllDeliveredOk(n, c, h)
  }
}
