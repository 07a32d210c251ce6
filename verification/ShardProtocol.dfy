/**
  Groups moving through the configurations and handing shards over to one another.

  Each group is one committed log; a replica acts on the state some prefix of that log gives, which
  may be an old one.  What a replica proposes may be committed at any later time, any number of
  times, or never, and messages may be handled late, repeatedly or not at all.
 */
module ShardProtocol {
  import opened ShardConfig
  import opened ShardServer

  // Configuration n of the controller.
  type Configs = nat -> Config

  ghost predicate GoodConfigs(configs: Configs) {
    && (forall n: nat :: configs(n).num == n)
    && configs(0) == FIRST_CONFIG
  }

  function Owner(configs: Configs, n: nat, s: ShardId): int {
    configs(n).shards[s]
  }

  // Pull or Leave: group `from`, in configuration `version`, to the shard's group before it.
  datatype Message = Message(from: int, to: int, shard: ShardId, version: nat)

  datatype World = World(
    groups: map<int, Group>,
    // The states the replicas of a group may be in.
    views: map<int, set<Group>>,
    proposed: map<int, set<Op>>,
    pulls: set<Message>,
    leaves: set<Message>,
    // What the writes that took effect, in the order they did, make of each shard.
    contents: AllContents)

  type AllContents = c: seq<Storage> | |c| == N_SHARDS witness seq(N_SHARDS, _ => map[])

  datatype Action =
    | Request(gid: int, op: Op)
    | FetchConfig(gid: int, view: Group)
    | SendPull(gid: int, view: Group, shard: ShardId)
    | HandlePull(msg: Message, view: Group)
    | SendLeave(gid: int, view: Group, shard: ShardId)
    | HandleLeave(msg: Message, view: Group)
    | LeaveAnswered(msg: Message)
    | Commit(gid: int, op: Op)

  ghost function Init(gids: set<int>): World {
    World(map g | g in gids :: NEW_GROUP, map g | g in gids :: {NEW_GROUP}, map g | g in gids :: {}, {}, {},
          seq(N_SHARDS, _ => map[]))
  }

  ghost predicate IsView(w: World, gid: int, view: Group) {
    gid in w.views && view in w.views[gid]
  }

  // A replica in this state, with a transfer of s under way in this status, addresses its previous group.
  ghost predicate Asks(view: Group, s: ShardId, status: Status) {
    s in view.shards && view.shards[s].status == status && view.prevConfig.shards[s] in view.prevConfig.groups
  }

  ghost predicate Possible(w: World, a: Action) {
    match a
    case Request(gid, op) => gid in w.proposed && (op.Get? || op.Put? || op.Append?)
    case FetchConfig(gid, view) => IsView(w, gid, view) && gid in w.proposed && view.AllWorking()
    case SendPull(gid, view, s) => IsView(w, gid, view) && Asks(view, s, Pulling)
    case HandlePull(msg, view) =>
      && msg in w.pulls && IsView(w, msg.to, view) && msg.from in w.proposed
      && view.Num() == msg.version && msg.shard in view.shards
    case SendLeave(gid, view, s) => IsView(w, gid, view) && Asks(view, s, Waiting)
    case HandleLeave(msg, view) => msg in w.leaves && IsView(w, msg.to, view) && msg.to in w.proposed
    case LeaveAnswered(msg) => msg in w.leaves && msg.from in w.proposed
    case Commit(gid, op) => gid in w.groups && gid in w.views && gid in w.proposed && op in w.proposed[gid]
  }

  // The receiver of a Leave stamps the operation with its own configuration number; this says that
  // it has not gone past the sender's.
  ghost predicate InTime(a: Action) {
    a.HandleLeave? ==> a.view.Num() <= a.msg.version
  }

  ghost function Propose(w: World, gid: int, op: Op): World
    requires gid in w.proposed
  {
    w.(proposed := w.proposed[gid := w.proposed[gid] + {op}])
  }

  ghost function Ask(gid: int, view: Group, s: ShardId): Message {
    Message(gid, view.prevConfig.shards[s], s, view.Num())
  }

  ghost function Contents(contents: AllContents, g: Group, op: Op): AllContents {
    if Writes(g, op) then
      contents[KeyToShard(op.key) := Written(contents[KeyToShard(op.key)], op)]
    else contents
  }

  ghost function Next(configs: Configs, w: World, a: Action): World
    requires Possible(w, a)
  {
    match a
    case Request(gid, op) => Propose(w, gid, op)
    case FetchConfig(gid, view) => Propose(w, gid, UpdateConfig(configs(view.Num() + 1)))
    case SendPull(gid, view, s) => w.(pulls := w.pulls + {Ask(gid, view, s)})
    case HandlePull(msg, view) =>
      Propose(w, msg.from, PullShard(msg.shard, msg.version, view.shards[msg.shard].storage))
    case SendLeave(gid, view, s) => w.(leaves := w.leaves + {Ask(gid, view, s)})
    case HandleLeave(msg, view) => Propose(w, msg.to, LeaveShard(msg.shard, view.Num()))
    case LeaveAnswered(msg) => Propose(w, msg.from, TransferDone(msg.shard, msg.version))
    case Commit(gid, op) => Committed(w, gid, op)
  }

  ghost function Committed(w: World, gid: int, op: Op): World
    requires gid in w.groups && gid in w.views
  {
    var g' := Apply(gid, w.groups[gid], op).group;
    w.(groups := w.groups[gid := g'], views := w.views[gid := w.views[gid] + {g'}],
       contents := Contents(w.contents, w.groups[gid], op))
  }

  ghost predicate IsRun(configs: Configs, gids: set<int>, actions: seq<Action>)
    decreases |actions|, 0
  {
    actions == [] || (IsRun(configs, gids, actions[..|actions| - 1]) &&
      Possible(After(configs, gids, actions[..|actions| - 1]), actions[|actions| - 1]))
  }

  ghost function After(configs: Configs, gids: set<int>, actions: seq<Action>): World
    requires IsRun(configs, gids, actions)
    decreases |actions|, 1
  {
    if actions == [] then Init(gids)
    else Next(configs, After(configs, gids, actions[..|actions| - 1]), actions[|actions| - 1])
  }

  ghost predicate AllInTime(actions: seq<Action>) {
    forall i: nat :: i < |actions| ==> InTime(actions[i])
  }
}
