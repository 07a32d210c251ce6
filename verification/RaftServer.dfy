/**
  One Raft server as a value, and what each lock-protected handler does to it.

  `log` is the whole log, position 0 being the unused entry that makes real entries start at 1.
  `base` is the last index folded into a snapshot: the entries at or below it are no longer
  stored one by one (module RaftNode shows how the stored, shifted log represents this value).
 */
module RaftServer {

  datatype Entry = Entry(term: nat, command: string)

  const GENESIS := Entry(0, "")

  datatype Role = Follower | Candidate | Leader

  // What the persister holds: nothing readable, or the last image written by persist.
  datatype Disk = Wiped | Saved(term: nat, votedFor: int, base: nat, log: seq<Entry>)

  // The goroutine that collects the votes of one election.  A peer is `answered` once an RPC
  // to it has returned; from then on its retry chain has ended.
  datatype Poll = NoPoll | Polling(term: nat, answered: set<nat>, votes: nat)

  datatype Server = Server(
    term: nat,
    votedFor: int,
    role: Role,
    log: seq<Entry>,
    base: nat,
    commitIndex: nat,
    lastApplied: nat,
    nextIndex: seq<nat>,
    matchIndex: seq<nat>,
    leaderInitDone: bool,
    disk: Disk,
    poll: Poll)

  const NOBODY := -1

  datatype VoteArgs = VoteArgs(term: nat, candidate: nat, lastLogIndex: nat, lastLogTerm: nat)

  datatype AppendArgs = AppendArgs(
    term: nat,
    leader: nat,
    entries: seq<Entry>,
    prevIndex: nat,
    prevTerm: nat,
    leaderCommit: nat,
    heartbeat: bool)

  datatype VoteOutcome = VoteOutcome(server: Server, term: nat, granted: bool)

  // `fatal` marks the runs that stop the process with log.Fatalf.
  datatype AppendOutcome = AppendOutcome(server: Server, term: nat, success: bool, nextRetry: nat, fatal: bool)

  predicate WellFormed(s: Server) {
    s.base < |s.log|
  }

  function LastIndex(log: seq<Entry>): nat
    requires |log| >= 1
  {
    |log| - 1
  }

  function LastTerm(log: seq<Entry>): nat
    requires |log| >= 1
  {
    log[|log| - 1].term
  }

  function Fresh(): Server {
    Server(0, NOBODY, Follower, [GENESIS], 0, 0, 0, [], [], false, Saved(0, NOBODY, 0, [GENESIS]), NoPoll)
  }

  function Persist(s: Server): Server {
    s.(disk := Saved(s.term, s.votedFor, s.base, s.log))
  }

  // A higher term was seen.
  function StepDown(s: Server, term: nat): Server {
    Persist(s.(term := term, votedFor := NOBODY, role := Follower))
  }

  function SeeTerm(s: Server, term: nat): Server {
    if term > s.term then StepDown(s, term) else s
  }

  // The log described by (lastIndex, lastTerm) is at least as up-to-date as `log`.
  predicate UpToDate(lastIndex: nat, lastTerm: nat, log: seq<Entry>)
    requires |log| >= 1
  {
    || |log| == 1
    || lastTerm > LastTerm(log)
    || (lastTerm == LastTerm(log) && lastIndex >= LastIndex(log))
  }

  function OnRequestVote(s: Server, args: VoteArgs): VoteOutcome
    requires WellFormed(s)
  {
    var s1 := SeeTerm(s, args.term);
    if && args.term >= s.term
       && (s1.votedFor == NOBODY || s1.votedFor == args.candidate)
       && UpToDate(args.lastLogIndex, args.lastLogTerm, s1.log)
    then
      VoteOutcome(Persist(s1.(votedFor := args.candidate)), s1.term, true)
    else
      VoteOutcome(s1, s1.term, false)
  }

  // The entry-by-entry append/truncate loop, from position `at` on.
  function Merge(log: seq<Entry>, at: nat, entries: seq<Entry>): (merged: seq<Entry>)
    requires at <= |log|
    ensures |merged| >= at + |entries|
    decreases |entries|
  {
    if entries == [] then log
    else if at == |log| then Merge(log + [entries[0]], at + 1, entries[1..])
    else if log[at].term != entries[0].term then Merge(log[..at] + [entries[0]], at + 1, entries[1..])
    else Merge(log, at + 1, entries[1..])
  }

  // Walks back over the entries of the conflicting term.
  function Backoff(log: seq<Entry>, base: nat, at: nat, conflictTerm: nat): (index: nat)
    requires at < |log|
    ensures index <= at
    ensures at >= 1 ==> index >= 1
  {
    if at > 1 && at >= base && log[at].term == conflictTerm
    then Backoff(log, base, at - 1, conflictTerm)
    else at
  }

  predicate Matches(log: seq<Entry>, args: AppendArgs) {
    args.prevIndex < |log| && log[args.prevIndex].term == args.prevTerm
  }

  function Min(a: nat, b: nat): nat {
    if a < b then a else b
  }

  function TakeEntries(s: Server, args: AppendArgs): Server
    requires Matches(s.log, args)
  {
    if args.entries == [] then s
    else Persist(s.(log := Merge(s.log, args.prevIndex + 1, args.entries)))
  }

  function FollowCommit(s: Server, leaderCommit: nat): Server
    requires |s.log| >= 1
  {
    if leaderCommit > s.commitIndex then s.(commitIndex := Min(leaderCommit, LastIndex(s.log))) else s
  }

  // A current leader exists: a candidate of the same term gives up.
  function YieldToLeader(s: Server, term: nat): Server {
    if s.role == Candidate && term >= s.term then s.(role := Follower) else s
  }

  function OnAppendEntries(s: Server, args: AppendArgs): AppendOutcome
    requires WellFormed(s)
  {
    var s2 := YieldToLeader(SeeTerm(s, args.term), args.term);
    if args.term < s2.term then
      AppendOutcome(s2, s2.term, false, 0, false)
    else if s2.base > args.prevIndex then
      AppendOutcome(s2, s2.term, false, s2.base + 1, false)
    else if args.prevIndex > LastIndex(s2.log) then
      AppendOutcome(s2, s2.term, false, |s2.log|, false)
    else if s2.log[args.prevIndex].term != args.prevTerm then
      AppendOutcome(s2, s2.term, false,
                    Backoff(s2.log, s2.base, args.prevIndex, s2.log[args.prevIndex].term),
                    args.prevIndex == 0)
    else
      AppendOutcome(FollowCommit(TakeEntries(s2, args), args.leaderCommit), s2.term, true, 0, false)
  }

  // The election timer ran out.
  function OnTimeout(s: Server): Server {
    if s.role == Follower then s.(role := Candidate) else s
  }

  function DoElection(s: Server, me: nat): Server {
    Persist(s.(term := s.term + 1, votedFor := me, poll := Polling(s.term + 1, {}, 1)))
  }

  // One more vote, which may be the one that makes a majority.
  function CountGrant(s: Server, cluster: nat): Server
    requires s.poll.Polling?
  {
    var s1 := s.(poll := s.poll.(votes := s.poll.votes + 1));
    if s1.poll.votes > cluster / 2 && s1.role == Candidate
    then s1.(role := Leader, leaderInitDone := false)
    else s1
  }

  function OnVoteReply(s: Server, cluster: nat, voter: nat, term: nat, granted: bool): Server
    requires s.poll.Polling?
  {
    if s.term > s.poll.term || s.role != Candidate then s.(poll := NoPoll)
    else
      var s1 := SeeTerm(s.(poll := s.poll.(answered := s.poll.answered + {voter})), term);
      if granted then CountGrant(s1, cluster) else s1
  }

  function LeaderInit(s: Server, cluster: nat): Server {
    s.(nextIndex := seq(cluster, _ => |s.log|), matchIndex := seq(cluster, _ => 0), leaderInitDone := true)
  }

  predicate Serving(s: Server) {
    s.role == Leader && s.leaderInitDone
  }

  function Start(s: Server, me: nat, command: string): Server
    requires WellFormed(s)
    requires Serving(s) ==> me < |s.nextIndex| && me < |s.matchIndex|
  {
    if Serving(s) then
      var s1 := Persist(s.(log := s.log + [Entry(s.term, command)]));
      s1.(matchIndex := s1.matchIndex[me := LastIndex(s1.log)], nextIndex := s1.nextIndex[me := |s1.log|])
    else s
  }

  // Entries are only sent while they are still stored one by one.
  predicate CanSendFrom(s: Server, next: nat) {
    1 <= next <= |s.log| && s.base < next
  }

  function AppendFrom(s: Server, me: nat, next: nat, leaderCommit: nat): AppendArgs
    requires CanSendFrom(s, next)
  {
    AppendArgs(s.term, me, s.log[next..], next - 1, s.log[next - 1].term, leaderCommit, false)
  }

  function HeartbeatArgs(s: Server, me: nat): AppendArgs
    requires WellFormed(s)
  {
    AppendArgs(s.term, me, [], LastIndex(s.log), LastTerm(s.log), s.commitIndex, true)
  }

  // An acknowledgement only ever moves the two indices forward.
  function Acknowledge(s: Server, peer: nat, index: nat): Server
    requires peer < |s.nextIndex| && peer < |s.matchIndex|
  {
    if index > s.matchIndex[peer]
    then s.(matchIndex := s.matchIndex[peer := index], nextIndex := s.nextIndex[peer := index + 1])
    else s
  }

  // The reply is for the leadership that sent the request.
  predicate IsCurrentReply(s: Server, args: AppendArgs) {
    s.term == args.term && s.role == Leader
  }

  function OnAppendReply(s: Server, args: AppendArgs, peer: nat, term: nat, success: bool, nextRetry: nat): Server
    requires IsCurrentReply(s, args) ==> peer < |s.nextIndex| && peer < |s.matchIndex|
  {
    if !IsCurrentReply(s, args) then s
    else
      var s1 := SeeTerm(s, term);
      if success then Acknowledge(s1, peer, args.prevIndex + |args.entries|)
      else if s1.term == s.term && nextRetry > s.base
      then s1.(nextIndex := s1.nextIndex[peer := nextRetry])
      else s1
  }

  // A refused request is sent again from nextRetry with its old leaderCommit.
  predicate Retries(s: Server, args: AppendArgs, term: nat, success: bool, nextRetry: nat) {
    IsCurrentReply(s, args) && term <= s.term && !success && nextRetry > s.base
  }

  // A heartbeat reply is counted without another look at term and role.
  function OnHeartbeatReply(s: Server, args: AppendArgs, peer: nat, term: nat, success: bool): Server
    requires peer < |s.nextIndex| && peer < |s.matchIndex|
  {
    if success then Acknowledge(SeeTerm(s, term), peer, args.prevIndex + |args.entries|) else SeeTerm(s, term)
  }

  // The last index whose entry is of an earlier term.
  function LastBefore(log: seq<Entry>, term: nat): nat {
    if |log| <= 1 then 0
    else if log[|log| - 1].term < term then |log| - 1
    else LastBefore(log[..|log| - 1], term)
  }

  // A serving leader counts what an earlier leadership was told only up to d indices past that one.
  predicate StaleWithin(d: nat, s: Server, args: AppendArgs, success: bool) {
    Serving(s) && success && !IsCurrentReply(s, args) ==>
      args.prevIndex + |args.entries| <= LastBefore(s.log, s.term) + d
  }

  // The servers whose matchIndex has reached i.
  function Holders(s: Server, i: nat): set<nat> {
    set j: nat | j < |s.matchIndex| && s.matchIndex[j] >= i
  }

  predicate Committable(s: Server, cluster: nat, i: nat) {
    i < |s.log| && s.log[i].term == s.term && |Holders(s, i)| > cluster / 2
  }

  // The largest committable index from i on, or `found`.
  function CommitScan(s: Server, cluster: nat, i: nat, found: nat): nat
    decreases |s.log| - i
  {
    if i >= |s.log| then found
    else CommitScan(s, cluster, i + 1, if Committable(s, cluster, i) then i else found)
  }

  function TryIncrementCommitIndex(s: Server, cluster: nat): Server {
    if s.role == Leader
    then s.(commitIndex := CommitScan(s, cluster, s.commitIndex + 1, s.commitIndex))
    else s
  }

  function OnSnapshot(s: Server, index: nat): Server {
    if s.base < index <= s.commitIndex && index <= s.lastApplied
    then s.(base := index, disk := Wiped)
    else s
  }

  // What Make builds from the disk; without a readable image it starts from scratch.
  function Restart(s: Server): Server {
    if s.disk.Wiped? then Fresh()
    else Server(s.disk.term, s.disk.votedFor, Follower, s.disk.log, s.disk.base, s.disk.base, s.disk.base,
           [], [], false, s.disk, NoPoll)
  }
}
