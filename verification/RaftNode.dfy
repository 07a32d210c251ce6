/**
  One Raft server as the program keeps it: fields updated in place, and a log whose beginning has
  been folded into snapshots, so that every index is shifted by lastIncludedIndex.

  `whole` is the log without compaction.  Each handler is proved to do to View(), which shows the
  whole log, exactly what module RaftServer says: the accessors never leave the stored part, and
  compaction changes no decision.
 */
module RaftNode {
  import opened RaftServer

  // The bytes written by persist.
  datatype Image = Nothing | Image(term: nat, votedFor: int, lastIncludedIndex: nat, lastIncludedTerm: nat,
                                   log: seq<Entry>)

  class Raft {
    const me: nat
    const peers: nat
    var currentTerm: nat
    var votedFor: int
    var role: Role
    var log: seq<Entry>
    var lastIncludedIndex: nat
    var lastIncludedTerm: nat
    var commitIndex: nat
    var lastApplied: nat
    var nextIndex: seq<nat>
    var matchIndex: seq<nat>
    var leaderInitDone: bool
    var persisted: Image
    var poll: Poll
    ghost var whole: seq<Entry>

    // The stored log is the whole log from lastIncludedIndex on.
    ghost predicate Represents()
      reads this
    {
      && lastIncludedIndex < |whole|
      && log == whole[lastIncludedIndex..]
      && lastIncludedTerm == whole[lastIncludedIndex].term
    }

    // A handler leaves the lock with its term, vote and log saved.
    ghost predicate Valid()
      reads this
    {
      && Represents()
      && (persisted.Image? ==> persisted == Image(currentTerm, votedFor, lastIncludedIndex, lastIncludedTerm, log))
    }

    ghost function View(): Server
      reads this
    {
      Server(currentTerm, votedFor, role, whole, lastIncludedIndex, commitIndex, lastApplied,
             nextIndex, matchIndex, leaderInitDone,
             if persisted.Nothing? then Wiped else Saved(currentTerm, votedFor, lastIncludedIndex, whole), poll)
    }

    // ---------- Make ----------

    constructor (me: nat, peers: nat)
      ensures Valid() && View() == Fresh() && this.me == me && this.peers == peers
    {
      this.me, this.peers := me, peers;
      currentTerm, votedFor, role := 0, NOBODY, Follower;
      log, lastIncludedIndex, lastIncludedTerm := [GENESIS], 0, 0;
      commitIndex, lastApplied := 0, 0;
      nextIndex, matchIndex, leaderInitDone := [], [], false;
      persisted := Image(0, NOBODY, 0, 0, [GENESIS]);
      poll := NoPoll;
      whole := [GENESIS];
    }

    // A new process that reads the image its predecessor wrote.
    constructor FromImage(before: Raft)
      requires before.Valid() && before.persisted.Image?
      ensures Valid() && View() == RaftServer.Restart(before.View()) && me == before.me && peers == before.peers
    {
      me, peers := before.me, before.peers;
      var image := before.persisted;
      currentTerm, votedFor, role := image.term, image.votedFor, Follower;
      lastIncludedIndex, lastIncludedTerm, log := image.lastIncludedIndex, image.lastIncludedTerm, image.log;
      commitIndex, lastApplied := 0, 0;
      if image.lastIncludedIndex > 0 {
        commitIndex, lastApplied := image.lastIncludedIndex, image.lastIncludedIndex;
      }
      nextIndex, matchIndex, leaderInitDone := [], [], false;
      persisted := image;
      poll := NoPoll;
      whole := before.whole;
    }

    // ---------- Accessors: indices are those of the whole log ----------

    function GetLogLength(): (length: nat)
      requires Represents()
      reads this
      ensures length == |whole|
    {
      lastIncludedIndex + |log|
    }

    function GetTermOfLog(index: nat): (term: nat)
      requires Represents()
      requires lastIncludedIndex <= index < GetLogLength()
      reads this
      ensures term == whole[index].term
    {
      if index == lastIncludedIndex then lastIncludedTerm else log[index - lastIncludedIndex].term
    }

    function GetLog(index: nat): (entry: Entry)
      requires Represents()
      requires lastIncludedIndex < index < GetLogLength()
      reads this
      ensures entry == whole[index]
    {
      log[index - lastIncludedIndex]
    }

    function GetLogs(start: nat, end: nat): (entries: seq<Entry>)
      requires Represents()
      requires lastIncludedIndex < start <= end <= GetLogLength()
      reads this
      ensures entries == whole[start..end]
    {
      log[start - lastIncludedIndex..end - lastIncludedIndex]
    }

    // ---------- persist ----------

    method Save()
      requires Represents()
      modifies this`persisted
      ensures Valid() && View() == Persist(old(View()))
    {
      persisted := Image(currentTerm, votedFor, lastIncludedIndex, lastIncludedTerm, log);
    }

    method NoticeTerm(term: nat)
      requires Valid()
      modifies this
      ensures Valid() && View() == SeeTerm(old(View()), term)
    {
      if term > currentTerm {
        currentTerm := term;
        votedFor := NOBODY;
        role := Follower;
        Save();
      }
    }

    // ---------- RequestVote ----------

    method IsNewerThanMe(args: VoteArgs) returns (isNewer: bool)
      requires Represents()
      ensures isNewer == UpToDate(args.lastLogIndex, args.lastLogTerm, whole)
    {
      isNewer := false;
      if GetLogLength() == 1 || args.lastLogTerm > GetTermOfLog(GetLogLength() - 1) {
        isNewer := true;
      } else if args.lastLogTerm == GetTermOfLog(GetLogLength() - 1) {
        if args.lastLogIndex >= GetLogLength() - 1 {
          isNewer := true;
        }
      }
    }

    method RequestVote(args: VoteArgs) returns (term: nat, granted: bool)
      requires Valid()
      modifies this
      ensures Valid() && VoteOutcome(View(), term, granted) == OnRequestVote(old(View()), args)
    {
      granted := false;
      if args.term >= currentTerm {
        NoticeTerm(args.term);
        if votedFor == NOBODY || votedFor == args.candidate {
          var isNewerThanMe := IsNewerThanMe(args);
          if isNewerThanMe {
            granted := true;
            votedFor := args.candidate;
            Save();
          }
        }
      }
      term := currentTerm;
    }

    // ---------- AppendEntries ----------

    method BackOff(prevIndex: nat) returns (nextRetry: nat)
      requires Represents() && lastIncludedIndex <= prevIndex < GetLogLength()
      ensures nextRetry == Backoff(whole, lastIncludedIndex, prevIndex, whole[prevIndex].term)
    {
      var conflictTerm := GetTermOfLog(prevIndex);
      var tempIndex: nat := prevIndex;
      while tempIndex > 1 && tempIndex >= lastIncludedIndex && GetTermOfLog(tempIndex) == conflictTerm
        invariant tempIndex <= prevIndex
        invariant Backoff(whole, lastIncludedIndex, tempIndex, conflictTerm) ==
                  Backoff(whole, lastIncludedIndex, prevIndex, conflictTerm)
      {
        tempIndex := tempIndex - 1;
      }
      nextRetry := tempIndex;
    }

    // The append/truncate loop; the entries at or below prevIndex stay as they are.
    method CopyEntries(prevIndex: nat, entries: seq<Entry>)
      requires Represents() && lastIncludedIndex <= prevIndex < GetLogLength()
      modifies this`log, this`whole
      ensures Represents() && whole == Merge(old(whole), prevIndex + 1, entries)
    {
      var i := 0;
      while i < |entries|
        invariant 0 <= i <= |entries| && Represents() && prevIndex + 1 + i <= |whole|
        invariant Merge(whole, prevIndex + 1 + i, entries[i..]) == Merge(old(whole), prevIndex + 1, entries)
      {
        var at := prevIndex + 1 + i;
        assert entries[i..][0] == entries[i] && entries[i..][1..] == entries[i + 1..];
        if at > GetLogLength() - 1 {
          log := log + [entries[i]];
          whole := whole + [entries[i]];
        } else if GetTermOfLog(at) != entries[i].term {
          log := log[0..at - lastIncludedIndex];
          log := log + [entries[i]];
          whole := whole[..at] + [entries[i]];
        }
        i := i + 1;
      }
    }

    method MeetLeader(term: nat)
      requires Valid()
      modifies this
      ensures Valid() && View() == YieldToLeader(SeeTerm(old(View()), term), term)
    {
      NoticeTerm(term);
      if role == Candidate && term >= currentTerm {
        role := Follower;
      }
    }

    method FollowLeader(args: AppendArgs)
      requires Valid() && Matches(whole, args) && lastIncludedIndex <= args.prevIndex
      modifies this
      ensures Valid() && View() == FollowCommit(TakeEntries(old(View()), args), args.leaderCommit)
    {
      if args.entries != [] {
        CopyEntries(args.prevIndex, args.entries);
        Save();
      }
      FollowCommitIndex(args.leaderCommit);
    }

    method FollowCommitIndex(leaderCommit: nat)
      requires Valid()
      modifies this`commitIndex
      ensures Valid() && View() == FollowCommit(old(View()), leaderCommit)
    {
      if leaderCommit > commitIndex {
        if leaderCommit < GetLogLength() - 1 {
          commitIndex := leaderCommit;
        } else {
          commitIndex := GetLogLength() - 1;
        }
      }
    }

    method AppendEntries(args: AppendArgs) returns (term: nat, success: bool, nextRetry: nat)
      requires Valid() && !OnAppendEntries(View(), args).fatal
      modifies this
      ensures Valid()
      ensures AppendOutcome(View(), term, success, nextRetry, false) == OnAppendEntries(old(View()), args)
    {
      MeetLeader(args.term);
      term, success, nextRetry := currentTerm, true, 0;
      if args.term < currentTerm {
        return term, false, 0;
      }
      if lastIncludedIndex > args.prevIndex {
        return term, false, lastIncludedIndex + 1;
      }
      if args.prevIndex > GetLogLength() - 1 {
        return term, false, GetLogLength();
      }
      if GetTermOfLog(args.prevIndex) != args.prevTerm {
        success := false;
        nextRetry := BackOff(args.prevIndex);
        return;
      }
      FollowLeader(args);
    }

    // ---------- Elections ----------

    method BecomeCandidate()
      requires Valid()
      modifies this
      ensures Valid() && View() == OnTimeout(old(View()))
    {
      if role == Follower {
        role := Candidate;
      }
    }

    method Campaign()
      requires Valid()
      modifies this
      ensures Valid() && View() == DoElection(old(View()), me)
    {
      currentTerm := currentTerm + 1;
      votedFor := me;
      Save();
      poll := Polling(currentTerm, {}, 1);
    }

    method CountReply(voter: nat, term: nat, granted: bool)
      requires Valid() && poll.Polling?
      modifies this
      ensures Valid() && View() == OnVoteReply(old(View()), peers, voter, term, granted)
    {
      if currentTerm > poll.term || role != Candidate {
        poll := NoPoll;
        return;
      }
      poll := poll.(answered := poll.answered + {voter});
      NoticeTerm(term);
      if granted {
        CountVote();
      }
    }

    method CountVote()
      requires Valid() && poll.Polling?
      modifies this
      ensures Valid() && View() == CountGrant(old(View()), peers)
    {
      poll := poll.(votes := poll.votes + 1);
      if poll.votes > peers / 2 && role == Candidate {
        role := Leader;
        leaderInitDone := false;
      }
    }

    // ---------- Leading ----------

    method BeginLeadership()
      requires Valid()
      modifies this
      ensures Valid() && View() == LeaderInit(old(View()), peers)
    {
      var next: seq<nat>, matched: seq<nat>, i := [], [], 0;
      while i < peers
        invariant i <= peers && |next| == |matched| == i
        invariant forall k :: 0 <= k < i ==> next[k] == |whole| && matched[k] == 0
      {
        next := next + [GetLogLength()];
        matched := matched + [0];
        i := i + 1;
      }
      assert next == LeaderInit(View(), peers).nextIndex && matched == LeaderInit(View(), peers).matchIndex;
      nextIndex, matchIndex, leaderInitDone := next, matched, true;
    }

    method Start(command: string) returns (index: nat, term: nat, isLeader: bool)
      requires Valid() && (Serving(View()) ==> me < |nextIndex| && me < |matchIndex|)
      modifies this
      ensures Valid() && View() == RaftServer.Start(old(View()), me, command)
      ensures isLeader == old(Serving(View())) && term == old(currentTerm)
      ensures isLeader ==> index == |old(whole)| && whole == old(whole) + [Entry(term, command)]
    {
      isLeader := role == Leader && leaderInitDone;
      if isLeader {
        log := log + [Entry(currentTerm, command)];
        whole := whole + [Entry(currentTerm, command)];
        Save();
        matchIndex := matchIndex[me := GetLogLength() - 1];
        nextIndex := nextIndex[me := GetLogLength()];
      }
      index := GetLogLength() - 1;
      term := currentTerm;
    }

    method MakeAppend(next: nat, leaderCommit: nat) returns (args: AppendArgs)
      requires Valid() && CanSendFrom(View(), next)
      ensures args == AppendFrom(View(), me, next, leaderCommit)
    {
      args := AppendArgs(currentTerm, me, GetLogs(next, GetLogLength()), next - 1, GetTermOfLog(next - 1),
                         leaderCommit, false);
    }

    method MakeHeartbeat() returns (args: AppendArgs)
      requires Valid()
      ensures args == HeartbeatArgs(View(), me)
    {
      var prevIndex := GetLogLength() - 1;
      args := AppendArgs(currentTerm, me, [], prevIndex, GetTermOfLog(prevIndex), commitIndex, true);
    }

    method HandleAppendReply(args: AppendArgs, peer: nat, term: nat, success: bool, nextRetry: nat)
      returns (retry: bool, again: AppendArgs)
      requires Valid()
      requires IsCurrentReply(View(), args) ==> peer < |nextIndex| && peer < |matchIndex|
      requires Retries(View(), args, term, success, nextRetry) ==> CanSendFrom(View(), nextRetry)
      modifies this
      ensures Valid() && View() == OnAppendReply(old(View()), args, peer, term, success, nextRetry)
      ensures retry == Retries(old(View()), args, term, success, nextRetry)
      ensures retry ==> again == AppendFrom(old(View()), me, nextRetry, args.leaderCommit)
    {
      retry, again := false, args;
      if currentTerm != args.term || role != Leader {
        return;
      }
      var leaderTermSmaller := term > currentTerm;
      NoticeTerm(term);
      if success {
        if args.prevIndex + |args.entries| > matchIndex[peer] {
          matchIndex := matchIndex[peer := args.prevIndex + |args.entries|];
          nextIndex := nextIndex[peer := matchIndex[peer] + 1];
        }
      } else if !leaderTermSmaller {
        if nextRetry > lastIncludedIndex {
          nextIndex := nextIndex[peer := nextRetry];
          again := MakeAppend(nextRetry, args.leaderCommit);
          retry := true;
        }
      }
    }

    method HandleHeartbeatReply(args: AppendArgs, peer: nat, term: nat, success: bool)
      requires Valid() && peer < |nextIndex| && peer < |matchIndex|
      modifies this
      ensures Valid() && View() == OnHeartbeatReply(old(View()), args, peer, term, success)
    {
      NoticeTerm(term);
      if success {
        if args.prevIndex + |args.entries| > matchIndex[peer] {
          matchIndex := matchIndex[peer := args.prevIndex + |args.entries|];
          nextIndex := nextIndex[peer := matchIndex[peer] + 1];
        }
      }
    }

    // How many servers hold index i.
    method CountHolders(i: nat) returns (count: nat)
      ensures count == |Holders(View(), i)|
    {
      count := 0;
      var j := 0;
      while j < |matchIndex|
        invariant j <= |matchIndex|
        invariant count == |set k: nat | k < j && matchIndex[k] >= i|
      {
        ghost var counted := set k: nat | k < j && matchIndex[k] >= i;
        if matchIndex[j] >= i {
          assert (set k: nat | k < j + 1 && matchIndex[k] >= i) == counted + {j};
          count := count + 1;
        } else {
          assert (set k: nat | k < j + 1 && matchIndex[k] >= i) == counted;
        }
        j := j + 1;
      }
      assert Holders(View(), i) == set k: nat | k < j && matchIndex[k] >= i;
    }

    method TryCommit()
      requires Valid() && lastIncludedIndex <= commitIndex
      modifies this`commitIndex
      ensures Valid() && View() == TryIncrementCommitIndex(old(View()), peers)
    {
      if role != Leader {
        return;
      }
      ghost var before := View();
      var i := commitIndex + 1;
      while i < GetLogLength()
        invariant commitIndex < i
        invariant CommitScan(before, peers, i, commitIndex) ==
                  CommitScan(before, peers, before.commitIndex + 1, before.commitIndex)
        invariant View() == before.(commitIndex := commitIndex)
      {
        if GetTermOfLog(i) == currentTerm {
          var count := CountHolders(i);
          assert Holders(View(), i) == Holders(before, i);
          if count > peers / 2 && i > commitIndex {
            commitIndex := i;
          }
        }
        i := i + 1;
      }
    }

    // ---------- Applying and compacting ----------

    method TakeCommitted() returns (entries: seq<Entry>)
      requires Valid() && lastIncludedIndex <= lastApplied <= commitIndex < |whole|
      modifies this`lastApplied
      ensures Valid() && View() == old(View()).(lastApplied := commitIndex)
      ensures entries == whole[old(lastApplied) + 1..commitIndex + 1]
    {
      entries := GetLogs(lastApplied + 1, commitIndex + 1);
      lastApplied := lastApplied + |entries|;
    }

    method Snapshot(index: nat)
      requires Valid() && commitIndex < |whole|
      modifies this
      ensures Valid() && View() == OnSnapshot(old(View()), index) && whole == old(whole)
    {
      if lastIncludedIndex >= index || commitIndex < index || lastApplied < index {
        return;
      }
      var leftLog := [];
      var startIndex := index;
      while startIndex < GetLogLength()
        invariant index <= startIndex <= |whole| && leftLog == whole[index..startIndex]
      {
        leftLog := leftLog + [GetLog(startIndex)];
        startIndex := startIndex + 1;
      }
      lastIncludedTerm := GetTermOfLog(index);
      lastIncludedIndex := index;
      log := leftLog;
      persisted := Nothing;
    }
  }
}
