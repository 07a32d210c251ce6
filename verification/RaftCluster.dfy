/**
  A cluster of Raft servers and a network that may lose, delay, reorder and repeat messages.

  A message, once sent, stays in `net`: never delivering it is loss, delivering it late or out of
  order is delay and reordering, delivering it twice is a retry.  Each lock-protected handler is
  one action.  All choices (who acts, which message arrives) are in the action, so a run is
  determined by its sequence of actions.
 */
module RaftCluster {
  import opened RaftServer

  datatype Message =
    | VoteRequest(vote: VoteArgs)
    | VoteReply(vote: VoteArgs, voter: nat, term: nat, granted: bool)
    | Append(to: nat, args: AppendArgs)
    | AppendReply(from: nat, args: AppendArgs, term: nat, success: bool, nextRetry: nat)

  // A command handed to the service above a server.
  datatype ApplyMsg = ApplyMsg(server: nat, index: nat, command: string)

  datatype Cluster = Cluster(servers: seq<Server>, net: set<Message>, delivered: set<ApplyMsg>)

  datatype Action =
    | Timeout(i: nat)
    | Campaign(i: nat)
    | SendVoteRequests(i: nat)
    | DeliverVoteRequest(i: nat, vote: VoteArgs)
    | DeliverVoteReply(vote: VoteArgs, voter: nat, term: nat, granted: bool)
    | BeginLeadership(i: nat)
    | ClientStart(i: nat, command: string)
    | SendAppend(i: nat, peer: nat)
    | SendHeartbeat(i: nat, peer: nat)
    | DeliverAppend(i: nat, args: AppendArgs)
    | DeliverAppendReply(peer: nat, args: AppendArgs, term: nat, success: bool, nextRetry: nat)
    | DeliverHeartbeatReply(peer: nat, args: AppendArgs, term: nat, success: bool, nextRetry: nat)
    | Commit(i: nat)
    | Apply(i: nat)
    | TakeSnapshot(i: nat, index: nat)
    | CrashRestart(i: nat)

  function Init(n: nat): Cluster {
    Cluster(seq(n, _ => Fresh()), {}, {})
  }

  // The server whose state the action changes.
  function Actor(a: Action): nat {
    match a
    case DeliverVoteReply(vote, _, _, _) => vote.candidate
    case DeliverAppendReply(_, args, _, _, _) => args.leader
    case DeliverHeartbeatReply(_, args, _, _, _) => args.leader
    case _ => a.i
  }

  // When an action may happen.
  predicate Possible(c: Cluster, a: Action) {
    && Actor(a) < |c.servers|
    && var s := c.servers[Actor(a)];
       match a
       case SendVoteRequests(_) => s.poll.Polling?
       case DeliverVoteRequest(i, vote) => VoteRequest(vote) in c.net && i != vote.candidate
       case DeliverVoteReply(vote, voter, term, granted) =>
         && VoteReply(vote, voter, term, granted) in c.net
         && s.poll.Polling? && s.poll.term == vote.term && voter !in s.poll.answered
       case SendAppend(_, peer) =>
         && Serving(s) && peer < |c.servers| && peer < |s.nextIndex|
         && |s.log| > s.nextIndex[peer] > s.base
       case SendHeartbeat(_, peer) => Serving(s) && peer < |c.servers|
       case DeliverAppend(i, args) => Append(i, args) in c.net && i != args.leader
       case DeliverAppendReply(peer, args, term, success, nextRetry) =>
         !args.heartbeat && AppendReply(peer, args, term, success, nextRetry) in c.net
       // Whoever waits for it has led since the server started, so there are indices for every peer.
       case DeliverHeartbeatReply(peer, args, term, success, nextRetry) =>
         && args.heartbeat && AppendReply(peer, args, term, success, nextRetry) in c.net
         && peer < |s.nextIndex| && peer < |s.matchIndex|
       case Apply(_) => s.commitIndex > s.lastApplied && s.base <= s.lastApplied + 1
       case _ => true
  }

  /**
    How far three steps that the code does not guard may go: a campaign may be started by a server
    that has meanwhile become leader; a restart may find no image on disk; a reply to a heartbeat of
    an earlier leadership may be counted up to so many indices past the last entry of an earlier term.
   */
  datatype Leeway = Leeway(lateElections: bool, lostImages: bool, staleBy: nat)

  const NO_LEEWAY := Leeway(false, false, 0)

  predicate Within(w: Leeway, c: Cluster, a: Action)
    requires Possible(c, a)
  {
    var s := c.servers[Actor(a)];
    match a
    case Campaign(_) => w.lateElections || s.role != Leader
    case CrashRestart(_) => w.lostImages || s.disk.Saved?
    case DeliverHeartbeatReply(_, args, _, success, _) => StaleWithin(w.staleBy, s, args, success)
    case _ => true
  }

  // The runs that keep Raft's promises have no leeway.
  predicate Enabled(c: Cluster, a: Action) {
    Possible(c, a) && Within(NO_LEEWAY, c, a)
  }

  // The action reads no index outside what the server stores, and reaches no log.Fatalf.
  predicate Safe(c: Cluster, a: Action)
    requires Possible(c, a)
  {
    var s := c.servers[Actor(a)];
    && WellFormed(s)
    && match a
       case ClientStart(i, _) => Serving(s) ==> i < |s.nextIndex| && i < |s.matchIndex|
       case SendAppend(_, peer) => s.nextIndex[peer] >= 1
       case DeliverAppend(i, args) => !OnAppendEntries(s, args).fatal
       case DeliverAppendReply(peer, args, term, success, nextRetry) =>
         && (IsCurrentReply(s, args) ==> peer < |s.nextIndex| && peer < |s.matchIndex|)
         && (Retries(s, args, term, success, nextRetry) ==> CanSendFrom(s, nextRetry))
         && (IsCurrentReply(s, args) && term <= s.term && !success ==> nextRetry != 0)
       case Apply(_) => s.base <= s.lastApplied && s.commitIndex < |s.log|
       case _ => true
  }

  // What the actor becomes.
  function Next(c: Cluster, a: Action): Server
    requires Possible(c, a) && Safe(c, a)
  {
    var s, n := c.servers[Actor(a)], |c.servers|;
    match a
    case Timeout(_) => OnTimeout(s)
    case Campaign(i) => DoElection(s, i)
    case SendVoteRequests(_) => s
    case DeliverVoteRequest(_, vote) => OnRequestVote(s, vote).server
    case DeliverVoteReply(_, voter, term, granted) => OnVoteReply(s, n, voter, term, granted)
    case BeginLeadership(_) => LeaderInit(s, n)
    case ClientStart(i, command) => Start(s, i, command)
    case SendAppend(_, _) => s
    case SendHeartbeat(_, _) => s
    case DeliverAppend(_, args) => OnAppendEntries(s, args).server
    case DeliverAppendReply(peer, args, term, success, nextRetry) =>
      OnAppendReply(s, args, peer, term, success, nextRetry)
    case DeliverHeartbeatReply(peer, args, term, success, _) => OnHeartbeatReply(s, args, peer, term, success)
    case Commit(_) => TryIncrementCommitIndex(s, n)
    case Apply(_) => s.(lastApplied := s.commitIndex)
    case TakeSnapshot(_, index) => OnSnapshot(s, index)
    case CrashRestart(_) => Restart(s)
  }

  // What the actor puts on the network.
  function Sent(c: Cluster, a: Action): set<Message>
    requires Possible(c, a) && Safe(c, a)
  {
    var s := c.servers[Actor(a)];
    match a
    case SendVoteRequests(i) => {VoteRequest(VoteArgs(s.poll.term, i, LastIndex(s.log), LastTerm(s.log)))}
    case DeliverVoteRequest(i, vote) =>
      var r := OnRequestVote(s, vote);
      {VoteReply(vote, i, r.term, r.granted)}
    case SendAppend(i, peer) => {Append(peer, AppendFrom(s, i, s.nextIndex[peer], s.commitIndex))}
    case SendHeartbeat(i, peer) => {Append(peer, HeartbeatArgs(s, i))}
    case DeliverAppend(i, args) =>
      var r := OnAppendEntries(s, args);
      {AppendReply(i, args, r.term, r.success, r.nextRetry)}
    case DeliverAppendReply(peer, args, term, success, nextRetry) =>
      if Retries(s, args, term, success, nextRetry)
      then {Append(peer, AppendFrom(s, args.leader, nextRetry, args.leaderCommit))}
      else {}
    case _ => {}
  }

  // What the actor hands to the service.
  function Handed(c: Cluster, a: Action): set<ApplyMsg>
    requires Possible(c, a) && Safe(c, a)
  {
    var s := c.servers[Actor(a)];
    match a
    case Apply(i) =>
      set k: nat | s.lastApplied < k <= s.commitIndex :: ApplyMsg(i, k, s.log[k].command)
    case _ => {}
  }

  function Do(c: Cluster, a: Action): Cluster
    requires Possible(c, a) && Safe(c, a)
  {
    Cluster(c.servers[Actor(a) := Next(c, a)], c.net + Sent(c, a), c.delivered + Handed(c, a))
  }

  // The actions are a run of a cluster of n servers ...
  predicate IsRun(n: nat, actions: seq<Action>)
    decreases |actions|, 0
  {
    actions == [] ||
    var earlier, last := actions[..|actions| - 1], actions[|actions| - 1];
    IsRun(n, earlier) && Enabled(After(n, earlier), last) && Safe(After(n, earlier), last)
  }

  // ... that ends in this state.
  function After(n: nat, actions: seq<Action>): Cluster
    requires IsRun(n, actions)
    decreases |actions|, 1
  {
    if actions == [] then Init(n)
    else Do(After(n, actions[..|actions| - 1]), actions[|actions| - 1])
  }
}
