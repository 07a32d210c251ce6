/**
  A replica group of the sharded key/value service as a state machine: what applying each kind of
  committed operation does to its shards.
 */
module ShardServer {
  import opened ShardConfig

  type Storage = map<string, string>

  // Working: in service.  Pulling: waiting for the contents from the previous group.
  // Leaving: waiting for the next group to have the contents.  Waiting: in service, waiting for the
  // previous group to delete its copy.
  datatype Status = Working | Pulling | Leaving | Waiting

  datatype Shard = Shard(storage: Storage, status: Status)

  datatype Op =
    | Get(key: string, clientId: int, requestId: int)
    | Put(key: string, value: string, clientId: int, requestId: int)
    | Append(key: string, value: string, clientId: int, requestId: int)
    | UpdateConfig(config: Config)
    | PullShard(shard: ShardId, version: nat, storage: Storage)
    | LeaveShard(shard: ShardId, version: nat)
    | TransferDone(shard: ShardId, version: nat)

  datatype Err = NoErr | OK | ErrNoKey | ErrWrongGroup | ErrConfigVersion | ErrWrongLeader

  datatype Group = Group(
    shards: map<ShardId, Shard>,
    prevConfig: Config,
    currConfig: Config,
    latestAppliedRequest: map<int, int>)
  {
    function Num(): nat {
      currConfig.num
    }

    // The group serves requests for shard s.
    predicate Serves(s: ShardId) {
      s in shards && (shards[s].status == Working || shards[s].status == Waiting)
    }

    predicate AllWorking() {
      forall s :: s in shards ==> shards[s].status == Working
    }
  }

  const NEW_GROUP: Group := Group(map[], FIRST_CONFIG, FIRST_CONFIG, map[])

  // `panics`: the server would follow a nil pointer.
  datatype Outcome = Outcome(group: Group, err: Err, value: string, panics: bool)

  function KeyToShard(key: string): ShardId {
    if key == "" then 0 else (key[0] as int) % N_SHARDS
  }

  function Latest(g: Group, clientId: int): int {
    if clientId in g.latestAppliedRequest then g.latestAppliedRequest[clientId] else -1
  }

  function Noted(g: Group, clientId: int, requestId: int): map<int, int> {
    g.latestAppliedRequest[clientId := if requestId > Latest(g, clientId) then requestId else Latest(g, clientId)]
  }

  // The operation changes the contents of a shard.
  predicate Writes(g: Group, op: Op) {
    (op.Put? || op.Append?) && g.Serves(KeyToShard(op.key)) && op.requestId > Latest(g, op.clientId)
  }

  function Written(storage: Storage, op: Op): Storage
    requires op.Put? || op.Append?
  {
    if op.Put? || op.key !in storage then storage[op.key := op.value]
    else storage[op.key := storage[op.key] + op.value]
  }

  function Update(gid: int, shards: map<ShardId, Shard>, config: Config): map<ShardId, Shard> {
    if config.num == 1 then
      map s: ShardId | s < N_SHARDS && (s in shards || config.shards[s] == gid) ::
        if config.shards[s] == gid then Shard(map[], Working) else shards[s]
    else
      map s: ShardId | s < N_SHARDS && (s in shards || config.shards[s] == gid) ::
        if s !in shards then Shard(map[], Pulling)
        else if config.shards[s] != gid then shards[s].(status := Leaving)
        else shards[s]
  }

  // What applying a committed operation does to group gid.
  function Apply(gid: int, g: Group, op: Op): (out: Outcome) {
    match op
    case Get(key, clientId, requestId) =>
      var s := KeyToShard(key);
      if !g.Serves(s) then Outcome(g, ErrWrongGroup, "", false)
      else
        var storage := g.shards[s].storage;
        Outcome(g.(latestAppliedRequest := Noted(g, clientId, requestId)),
                if key in storage then OK else ErrNoKey, if key in storage then storage[key] else "", false)
    case Put(key, _, clientId, requestId) => ApplyWrite(g, op)
    case Append(key, _, clientId, requestId) => ApplyWrite(g, op)
    case UpdateConfig(config) =>
      if g.currConfig.num != config.num - 1 then Outcome(g, NoErr, "", false)
      else Outcome(g.(prevConfig := g.currConfig, currConfig := config, shards := Update(gid, g.shards, config)),
                   NoErr, "", false)
    case PullShard(s, version, storage) =>
      if g.currConfig.num != version then Outcome(g, NoErr, "", false)
      else if s !in g.shards then Outcome(g, NoErr, "", true)
      else if g.shards[s].status != Pulling then Outcome(g, NoErr, "", false)
      else Outcome(g.(shards := g.shards[s := Shard(storage, Waiting)]), NoErr, "", false)
    case LeaveShard(s, version) =>
      if g.currConfig.num == version then Outcome(g.(shards := g.shards - {s}), OK, "", false)
      else Outcome(g, if g.currConfig.num > version then OK else ErrConfigVersion, "", false)
    case TransferDone(s, version) =>
      if g.currConfig.num != version then Outcome(g, NoErr, "", false)
      else if s !in g.shards then Outcome(g, NoErr, "", true)
      else if g.shards[s].status != Waiting then Outcome(g, NoErr, "", false)
      else Outcome(g.(shards := g.shards[s := g.shards[s].(status := Working)]), NoErr, "", false)
  }

  function ApplyWrite(g: Group, op: Op): Outcome
    requires op.Put? || op.Append?
  {
    var s := KeyToShard(op.key);
    if !g.Serves(s) then Outcome(g, ErrWrongGroup, "", false)
    else
      var noted := g.(latestAppliedRequest := Noted(g, op.clientId, op.requestId));
      if Writes(g, op) then
        Outcome(noted.(shards := g.shards[s := g.shards[s].(storage := Written(g.shards[s].storage, op))]), OK, "",
                false)
      else Outcome(noted, OK, "", false)
  }
}
