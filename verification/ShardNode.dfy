/**
  A replica of a group: its fields change in place as committed operations arrive, exactly as the
  state machine says.
 */
module ShardNode {
  import opened ShardConfig
  import opened ShardServer

  class ShardKV {
    const gid: int
    var shards: map<ShardId, Shard>
    var prevConfig: Config
    var currConfig: Config
    var latestAppliedRequest: map<int, int>
    var latestAppliedRaftIndex: int

    function View(): Group
      reads this
    {
      Group(shards, prevConfig, currConfig, latestAppliedRequest)
    }

    constructor (gid: int)
      ensures this.gid == gid && View() == NEW_GROUP && latestAppliedRaftIndex == 0
    {
      this.gid := gid;
      shards := map[];
      prevConfig, currConfig := FIRST_CONFIG, FIRST_CONFIG;
      latestAppliedRequest := map[];
      latestAppliedRaftIndex := 0;
    }

    // One turn of the loop that takes committed operations.  Old ones are skipped.
    method ApplyCommand(index: int, op: Op) returns (err: Err, value: string)
      requires index > latestAppliedRaftIndex ==> !Apply(gid, View(), op).panics
      modifies this
      ensures index <= old(latestAppliedRaftIndex) ==>
                View() == old(View()) && latestAppliedRaftIndex == old(latestAppliedRaftIndex) && err == NoErr &&
                value == ""
      ensures index > old(latestAppliedRaftIndex) ==>
                var out := Apply(gid, old(View()), op);
                View() == out.group && err == out.err && value == out.value && latestAppliedRaftIndex == index
    {
      err, value := NoErr, "";
      if index <= latestAppliedRaftIndex {
        return;
      }
      match op {
        case Get(_, _, _) => err, value := ApplyGet(op);
        case Put(_, _, _, _) => err := ApplyPutAppend(op);
        case Append(_, _, _, _) => err := ApplyPutAppend(op);
        case UpdateConfig(config) => ApplyUpdateConfig(config);
        case PullShard(s, version, storage) =>
          if currConfig.num == version {
            if shards[s].status == Pulling {
              shards := shards[s := Shard(storage, Waiting)];
            }
          }
        case LeaveShard(s, version) =>
          if currConfig.num == version {
            if s in shards {
              shards := shards - {s};
            } else {
              assert shards - {s} == shards;
            }
            err := OK;
          } else if currConfig.num > version {
            err := OK;
          } else {
            err := ErrConfigVersion;
          }
        case TransferDone(s, version) =>
          if currConfig.num == version {
            if shards[s].status == Waiting {
              shards := shards[s := shards[s].(status := Working)];
            }
          }
      }
      latestAppliedRaftIndex := index;
    }

    // Notes the request; it is new when no later one of the client has been noted.
    method NoteRequest(clientId: int, requestId: int) returns (isNew: bool)
      modifies this`latestAppliedRequest
      ensures isNew == (requestId > Latest(old(View()), clientId))
      ensures latestAppliedRequest == Noted(old(View()), clientId, requestId)
    {
      if clientId !in latestAppliedRequest {
        latestAppliedRequest := latestAppliedRequest[clientId := -1];
      }
      isNew := requestId > latestAppliedRequest[clientId];
      if isNew {
        latestAppliedRequest := latestAppliedRequest[clientId := requestId];
      }
    }

    method ApplyGet(op: Op) returns (err: Err, value: string)
      requires op.Get?
      modifies this`latestAppliedRequest
      ensures var out := Apply(gid, old(View()), op); View() == out.group && err == out.err && value == out.value
    {
      var s := KeyToShard(op.key);
      value := "";
      if s !in shards || (shards[s].status != Working && shards[s].status != Waiting) {
        err := ErrWrongGroup;
      } else {
        var isNew := NoteRequest(op.clientId, op.requestId);
        if op.key !in shards[s].storage {
          err := ErrNoKey;
        } else {
          err, value := OK, shards[s].storage[op.key];
        }
      }
    }

    method ApplyPutAppend(op: Op) returns (err: Err)
      requires op.Put? || op.Append?
      modifies this`latestAppliedRequest, this`shards
      ensures var out := Apply(gid, old(View()), op); View() == out.group && err == out.err
    {
      var s := KeyToShard(op.key);
      if s !in shards || (shards[s].status != Working && shards[s].status != Waiting) {
        err := ErrWrongGroup;
      } else {
        var isNew := NoteRequest(op.clientId, op.requestId);
        if isNew {
          var storage := shards[s].storage;
          if op.Append? && op.key in storage {
            storage := storage[op.key := storage[op.key] + op.value];
          } else {
            storage := storage[op.key := op.value];
          }
          shards := shards[s := shards[s].(storage := storage)];
        }
        err := OK;
      }
    }

    method ApplyUpdateConfig(config: Config)
      modifies this`shards, this`prevConfig, this`currConfig
      ensures View() == Apply(gid, old(View()), UpdateConfig(config)).group
    {
      if currConfig.num == config.num - 1 {
        prevConfig := currConfig;
        currConfig := config;
        if config.num == 1 {
          CreateShards(config);
        } else {
          RequestShards(config);
          ReleaseShards(config);
          assert shards == Update(gid, old(shards), config);
        }
      }
    }

    // In the first configuration the group's shards are there, empty.
    method CreateShards(config: Config)
      requires config.num == 1
      modifies this`shards
      ensures shards == Update(gid, old(shards), config)
    {
      for s := 0 to N_SHARDS
        invariant shards.Keys == old(shards.Keys) + (set t: ShardId | t < s && config.shards[t] == gid)
        invariant forall t :: t in shards ==>
          shards[t] == if t < s && config.shards[t] == gid then Shard(map[], Working) else old(shards)[t]
      {
        if config.shards[s] == gid {
          shards := shards[s := Shard(map[], Working)];
        }
      }
    }

    // Shards the group is given and does not have are to be pulled.
    method RequestShards(config: Config)
      modifies this`shards
      ensures shards.Keys == old(shards.Keys) + (set t: ShardId | t < N_SHARDS && config.shards[t] == gid)
      ensures forall t :: t in shards ==>
                shards[t] == if t in old(shards) then old(shards)[t] else Shard(map[], Pulling)
    {
      for s := 0 to N_SHARDS
        invariant shards.Keys == old(shards.Keys) + (set t: ShardId | t < s && config.shards[t] == gid)
        invariant forall t :: t in shards ==>
                    shards[t] == if t in old(shards) then old(shards)[t] else Shard(map[], Pulling)
      {
        if config.shards[s] == gid && s !in shards {
          shards := shards[s := Shard(map[], Pulling)];
        }
      }
    }

    // Shards the group has and no longer keeps are to be handed over, in whatever order they come.
    method ReleaseShards(config: Config)
      modifies this`shards
      ensures shards.Keys == old(shards.Keys)
      ensures forall t :: t in shards ==>
        shards[t] == if config.shards[t] != gid then old(shards)[t].(status := Leaving) else old(shards)[t]
    {
      var todo := shards.Keys;
      while todo != {}
        invariant shards.Keys == old(shards.Keys) && todo <= shards.Keys
        invariant forall t :: t in shards ==>
          shards[t] == if t !in todo && config.shards[t] != gid
                       then old(shards)[t].(status := Leaving) else old(shards)[t]
      {
        var s :| s in todo;
        if config.shards[s] != gid {
          shards := shards[s := shards[s].(status := Leaving)];
        }
        todo := todo - {s};
      }
    }

    // The answer to a group that asks for a shard's contents: a copy of them.
    method Pull(isLeader: bool, version: nat, s: ShardId) returns (err: Err, storage: Storage)
      ensures err == if !isLeader then ErrWrongLeader
                     else if currConfig.num == version && s in shards then OK else ErrConfigVersion
      ensures storage == if err == OK then shards[s].storage else map[]
    {
      storage := map[];
      if !isLeader {
        err := ErrWrongLeader;
      } else if currConfig.num != version || s !in shards {
        err := ErrConfigVersion;
      } else {
        var from := shards[s].storage;
        var todo := from.Keys;
        while todo != {}
          invariant todo <= from.Keys && storage.Keys == from.Keys - todo
          invariant forall key :: key in storage ==> storage[key] == from[key]
        {
          var key :| key in todo;
          storage := storage[key := from[key]];
          todo := todo - {key};
        }
        err := OK;
      }
    }

    // Whether the group may ask for the next configuration.
    method ReadyForNext() returns (ready: bool)
      ensures ready <==> View().AllWorking()
    {
      ready := true;
      var todo := shards.Keys;
      while todo != {}
        invariant todo <= shards.Keys
        invariant ready <==> forall s :: s in shards && s !in todo ==> shards[s].status == Working
      {
        var s :| s in todo;
        if shards[s].status != Working {
          ready := false;
        }
        todo := todo - {s};
      }
    }
  }
}
