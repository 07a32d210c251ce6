/**
  The replicated key/value server: what a committed log makes of the storage, and the loop that
  applies commands and installs snapshots.
 */
module KvServer {

  datatype OpType = GET | PUT | APPEND

  datatype Op = Op(kind: OpType, key: string, value: string, clientId: int, requestId: int)

  datatype State = State(storage: map<string, string>, latestAppliedRequest: map<int, int>)

  const NEW_STATE := State(map[], map[])

  datatype Err = NoErr | OK | ErrNoKey

  // ---------- What a log means ----------

  function Latest(st: State, clientId: int): int {
    if clientId in st.latestAppliedRequest then st.latestAppliedRequest[clientId] else -1
  }

  predicate IsNew(st: State, op: Op) {
    op.requestId > Latest(st, op.clientId)
  }

  function Written(storage: map<string, string>, op: Op): map<string, string> {
    if op.kind == APPEND && op.key in storage then storage[op.key := storage[op.key] + op.value]
    else storage[op.key := op.value]
  }

  function Apply(st: State, op: Op): State {
    State(if op.kind != GET && IsNew(st, op) then Written(st.storage, op) else st.storage,
          st.latestAppliedRequest[op.clientId := if IsNew(st, op) then op.requestId else Latest(st, op.clientId)])
  }

  function Fold(log: seq<Op>): State {
    if log == [] then NEW_STATE else Apply(Fold(log[..|log| - 1]), log[|log| - 1])
  }

  // ---------- Each request at most once ----------

  // The i-th operation changes the storage.
  ghost predicate Effective(log: seq<Op>, i: nat)
    requires i < |log|
  {
    log[i].kind != GET && IsNew(Fold(log[..i]), log[i])
  }

  // The table holds the highest request of each client.
  lemma {:induction false} LatestIsHighest(log: seq<Op>, clientId: int)
    ensures Latest(Fold(log), clientId) >= -1
    ensures forall k: nat :: k < |log| && log[k].clientId == clientId ==>
            log[k].requestId <= Latest(Fold(log), clientId)
    ensures Latest(Fold(log), clientId) == -1 ||
            exists k: nat :: k < |log| && log[k].clientId == clientId && log[k].requestId == Latest(Fold(log), clientId)
  {
    if log != [] {
      var n := |log| - 1;
      LatestIsHighest(log[..n], clientId);
      var before := Latest(Fold(log[..n]), clientId);
      if before != -1 {
        var k: nat :| k < n && log[..n][k].clientId == clientId && log[..n][k].requestId == before;
        assert log[k].clientId == clientId && log[k].requestId == before;
      }
      forall k: nat | k < |log| && log[k].clientId == clientId
        ensures log[k].requestId <= Latest(Fold(log), clientId)
      {
        assert k < n ==> log[..n][k] == log[k];
      }
      assert log[n].clientId == clientId && IsNew(Fold(log[..n]), log[n]) ==>
             log[n].requestId == Latest(Fold(log), clientId);
    }
  }

  /** A write takes effect exactly when its client has asked for nothing as late before it. */
  lemma EffectiveExactly(log: seq<Op>, i: nat)
    requires i < |log|
    ensures Effective(log, i) <==>
            && log[i].kind != GET && log[i].requestId >= 0
            && forall k: nat :: k < i && log[k].clientId == log[i].clientId ==> log[k].requestId < log[i].requestId
  {
    LatestIsHighest(log[..i], log[i].clientId);
    assert forall k: nat :: k < i ==> log[..i][k] == log[k];
  }

  /** Each client's writes take effect in the order of their requests, so each at most once. */
  lemma EffectiveInOrder(log: seq<Op>, i: nat, j: nat)
    requires i < j < |log| && Effective(log, i) && Effective(log, j) && log[i].clientId == log[j].clientId
    ensures log[i].requestId < log[j].requestId
  {
    EffectiveExactly(log, j);
  }

  ghost function EffectiveWrites(log: seq<Op>): seq<Op> {
    if log == [] then []
    else
      var n := |log| - 1;
      EffectiveWrites(log[..n]) + (if Effective(log, n) then [log[n]] else [])
  }

  // Writes without any table of requests.
  ghost function Plain(writes: seq<Op>): map<string, string> {
    if writes == [] then map[] else Written(Plain(writes[..|writes| - 1]), writes[|writes| - 1])
  }

  /** The storage is what the writes that took effect, and nothing else, make of it. */
  lemma {:induction false} StorageIsPlain(log: seq<Op>)
    ensures Fold(log).storage == Plain(EffectiveWrites(log))
  {
    if log != [] {
      var n := |log| - 1;
      StorageIsPlain(log[..n]);
      var before := EffectiveWrites(log[..n]);
      if Effective(log, n) {
        assert (before + [log[n]])[..|before|] == before;
      } else {
        assert before + [] == before;
      }
    }
  }

  // ---------- Deliveries ----------

  datatype Image = NoImage | Image(latestAppliedRaftIndex: nat, state: State)

  // Commands and snapshots as they come from the log; the first command has index 1.
  datatype ApplyMsg =
    | Command(index: nat, op: Op)
    | Snapshot(snapshotIndex: nat, image: Image)

  datatype Server = Server(state: State, latestAppliedRaftIndex: nat)

  const NEW_SERVER := Server(NEW_STATE, 0)

  function Install(s: Server, image: Image): Server {
    if image.NoImage? then s else Server(image.state, image.latestAppliedRaftIndex)
  }

  function Deliver(s: Server, msg: ApplyMsg): Server {
    match msg
    case Command(index, op) =>
      if index <= s.latestAppliedRaftIndex then s else Server(Apply(s.state, op), index)
    case Snapshot(snapshotIndex, image) =>
      if snapshotIndex > s.latestAppliedRaftIndex then Install(s, image) else s
  }

  function Serialize(s: Server): Image {
    Image(s.latestAppliedRaftIndex, s.state)
  }

  // What may arrive: the next command of the log or an old one, and snapshots that some server
  // took after some prefix of it.
  ghost predicate Comes(log: seq<Op>, s: Server, msg: ApplyMsg) {
    match msg
    case Command(index, op) => index <= s.latestAppliedRaftIndex + 1 && 0 < index <= |log| && op == log[index - 1]
    case Snapshot(_, image) => TakenFrom(log, image)
  }

  ghost predicate TakenFrom(log: seq<Op>, image: Image) {
    image.Image? ==> image.latestAppliedRaftIndex <= |log| && image.state == Fold(log[..image.latestAppliedRaftIndex])
  }

  ghost predicate InStep(log: seq<Op>, s: Server) {
    s.latestAppliedRaftIndex <= |log| && s.state == Fold(log[..s.latestAppliedRaftIndex])
  }

  ghost predicate AllCome(log: seq<Op>, msgs: seq<ApplyMsg>) {
    msgs == [] || (AllCome(log, msgs[..|msgs| - 1]) && Comes(log, After(msgs[..|msgs| - 1]), msgs[|msgs| - 1]))
  }

  ghost function After(msgs: seq<ApplyMsg>): Server {
    if msgs == [] then NEW_SERVER else Deliver(After(msgs[..|msgs| - 1]), msgs[|msgs| - 1])
  }

  lemma DeliverInStep(log: seq<Op>, s: Server, msg: ApplyMsg)
    requires InStep(log, s) && Comes(log, s, msg)
    ensures InStep(log, Deliver(s, msg))
    ensures msg.Command? && msg.index <= s.latestAppliedRaftIndex ==> Deliver(s, msg) == s
  {
    if msg.Command? && msg.index == s.latestAppliedRaftIndex + 1 {
      assert log[..msg.index][..s.latestAppliedRaftIndex] == log[..s.latestAppliedRaftIndex];
    }
  }

  /** Whatever is delivered, the state is what the log up to the last applied index means. */
  lemma {:induction false} Replay(log: seq<Op>, msgs: seq<ApplyMsg>)
    requires AllCome(log, msgs)
    ensures InStep(log, After(msgs))
    decreases |msgs|
  {
    if msgs != [] {
      Replay(log, msgs[..|msgs| - 1]);
      DeliverInStep(log, After(msgs[..|msgs| - 1]), msgs[|msgs| - 1]);
    }
  }

  // ---------- How far a server gets ----------

  // The index the message is about.
  function IndexOf(msg: ApplyMsg): nat {
    match msg
    case Command(index, _) => index
    case Snapshot(snapshotIndex, _) => snapshotIndex
  }

  // A snapshot is handed over with the index it was taken at.
  predicate Labelled(msg: ApplyMsg) {
    msg.Snapshot? ==> msg.image.Image? && msg.image.latestAppliedRaftIndex == msg.snapshotIndex
  }

  /** An old message, command or snapshot, changes nothing, and a new one takes the server to its index. */
  lemma DeliverReaches(s: Server, msg: ApplyMsg)
    ensures IndexOf(msg) <= s.latestAppliedRaftIndex ==> Deliver(s, msg) == s
    ensures IndexOf(msg) > s.latestAppliedRaftIndex && Labelled(msg) ==>
              Deliver(s, msg).latestAppliedRaftIndex == IndexOf(msg)
  {
  }

  // m is the highest of `from` and the indices of the messages.
  ghost predicate IsHighest(from: nat, msgs: seq<ApplyMsg>, m: nat) {
    && from <= m && (forall k: nat :: k < |msgs| ==> IndexOf(msgs[k]) <= m)
    && (m == from || exists k: nat :: k < |msgs| && IndexOf(msgs[k]) == m)
  }

  /** A server has applied exactly up to the highest index it was ever handed, so it never falls back. */
  lemma {:induction false} AppliedIsHighest(msgs: seq<ApplyMsg>)
    requires forall k: nat :: k < |msgs| ==> Labelled(msgs[k])
    ensures IsHighest(0, msgs, After(msgs).latestAppliedRaftIndex)
    decreases |msgs|
  {
    if msgs != [] {
      var n := |msgs| - 1;
      AppliedIsHighest(msgs[..n]);
      DeliverReaches(After(msgs[..n]), msgs[n]);
      OneMoreHighest(0, msgs, After(msgs[..n]).latestAppliedRaftIndex, After(msgs).latestAppliedRaftIndex);
    }
  }

  lemma OneMoreHighest(from: nat, msgs: seq<ApplyMsg>, m: nat, m': nat)
    requires msgs != [] && IsHighest(from, msgs[..|msgs| - 1], m)
    requires var index := IndexOf(msgs[|msgs| - 1]); m' == if index > m then index else m
    ensures IsHighest(from, msgs, m')
  {
    var n := |msgs| - 1;
    assert forall k: nat :: k < n ==> msgs[..n][k] == msgs[k];
    if m' == m != from {
      var k: nat :| k < n && IndexOf(msgs[..n][k]) == m;
      assert IndexOf(msgs[k]) == m;
    }
  }

  // A snapshot taken by any server in step, at any time, may be delivered to any other, and makes it the same.
  lemma SnapshotsCome(log: seq<Op>, from: Server, to: Server, snapshotIndex: nat)
    requires InStep(log, from)
    ensures Comes(log, to, Snapshot(snapshotIndex, Serialize(from)))
    ensures snapshotIndex > to.latestAppliedRaftIndex ==> Deliver(to, Snapshot(snapshotIndex, Serialize(from))) == from
  {
  }

  class KVServer {
    var storage: map<string, string>
    var latestAppliedRequest: map<int, int>
    var latestAppliedRaftIndex: nat

    function View(): Server
      reads this
    {
      Server(State(storage, latestAppliedRequest), latestAppliedRaftIndex)
    }

    constructor ()
      ensures View() == NEW_SERVER
    {
      storage, latestAppliedRequest := map[], map[];
      latestAppliedRaftIndex := 0;
    }

    // One turn of the loop.  A command is answered from the state it leads to.
    method ApplyLoopBody(msg: ApplyMsg) returns (err: Err, value: string)
      modifies this
      ensures View() == Deliver(old(View()), msg)
      ensures msg.Command? && msg.index > old(latestAppliedRaftIndex) ==>
                && err == (if msg.op.kind != GET || msg.op.key in storage then OK else ErrNoKey)
                && value == (if msg.op.kind == GET && msg.op.key in storage then storage[msg.op.key] else "")
    {
      err, value := NoErr, "";
      match msg {
        case Command(index, op) =>
          if index <= latestAppliedRaftIndex {
            return;
          }
          var isNew := NoteRequest(op);
          match op.kind {
            case GET =>
              if op.key !in storage {
                err := ErrNoKey;
              } else {
                err, value := OK, storage[op.key];
              }
            case PUT =>
              if isNew {
                storage := storage[op.key := op.value];
              }
              err := OK;
            case APPEND =>
              if isNew {
                if op.key in storage {
                  storage := storage[op.key := storage[op.key] + op.value];
                } else {
                  storage := storage[op.key := op.value];
                }
              }
              err := OK;
          }
          latestAppliedRaftIndex := index;
        case Snapshot(snapshotIndex, image) =>
          if snapshotIndex > latestAppliedRaftIndex {
            Deserialize(image);
          }
      }
    }

    method NoteRequest(op: Op) returns (isNew: bool)
      modifies this`latestAppliedRequest
      ensures var st := old(View()).state;
              isNew == IsNew(st, op) && latestAppliedRequest == Apply(st, op).latestAppliedRequest
    {
      if op.clientId !in latestAppliedRequest {
        latestAppliedRequest := latestAppliedRequest[op.clientId := -1];
      }
      isNew := op.requestId > latestAppliedRequest[op.clientId];
      if isNew {
        latestAppliedRequest := latestAppliedRequest[op.clientId := op.requestId];
      }
    }

    method Deserialize(image: Image)
      modifies this
      ensures View() == Install(old(View()), image)
    {
      if image.Image? {
        latestAppliedRaftIndex := image.latestAppliedRaftIndex;
        storage := image.state.storage;
        latestAppliedRequest := image.state.latestAppliedRequest;
      }
    }
  }
}
