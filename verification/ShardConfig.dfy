/**
  Configurations: which group is responsible for each shard.
 */
module ShardConfig {

  const N_SHARDS: nat := 10

  type ShardId = s: nat | s < N_SHARDS

  // The group of each shard; 0 is no group.
  type Assignment = a: seq<int> | |a| == N_SHARDS witness [0, 0, 0, 0, 0, 0, 0, 0, 0, 0]

  datatype Config = Config(num: nat, shards: Assignment, groups: map<int, seq<string>>)

  const NO_SHARDS: Assignment := [0, 0, 0, 0, 0, 0, 0, 0, 0, 0]

  const FIRST_CONFIG: Config := Config(0, NO_SHARDS, map[])
}
