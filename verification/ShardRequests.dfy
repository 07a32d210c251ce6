/**
  What becomes of the requests in a group's log: which are refused, which writes take effect and what
  they do, by the requests alone.
 */
module ShardRequests {
  import opened ShardConfig
  import opened ShardServer
  import opened ShardProtocol
  import opened ShardProgress

  ghost predicate IsRequest(op: Op) {
    op.Get? || op.Put? || op.Append?
  }

  /** Every shard has keys, and keys that begin with neighbouring characters are in different shards. */
  lemma KeysSpread(s: ShardId, a: char, b: char)
    ensures exists key :: KeyToShard(key) == s
    ensures 0 < a as int - b as int < N_SHARDS ==> KeyToShard([a]) != KeyToShard([b])
    ensures forall rest: string :: KeyToShard([a] + rest) == KeyToShard([a])
  {
    assert KeyToShard([s as char]) == s;
  }

  // The i-th operation is a request for a shard that the group serves at that point.
  ghost predicate Served(gid: int, g: Group, ops: seq<Op>, i: nat)
    requires i < |ops|
  {
    IsRequest(ops[i]) && ApplyAll(gid, g, ops[..i]).Serves(KeyToShard(ops[i].key))
  }

  ghost predicate ServedTo(gid: int, g: Group, ops: seq<Op>, clientId: int, k: nat) {
    k < |ops| && Served(gid, g, ops, k) && ops[k].clientId == clientId
  }

  // The i-th request is above all of its client that were served before, and that the table began with.
  ghost predicate IsNew(gid: int, g: Group, ops: seq<Op>, i: nat)
    requires i < |ops| && IsRequest(ops[i])
  {
    var op := ops[i];
    && op.requestId > (if op.clientId in g.latestAppliedRequest then g.latestAppliedRequest[op.clientId] else -1)
    && forall k: nat :: k < i && ServedTo(gid, g, ops, op.clientId, k) ==> ops[k].requestId < op.requestId
  }

  lemma PrefixServed(gid: int, g: Group, ops: seq<Op>, n: nat, clientId: int, k: nat)
    requires k < n <= |ops|
    ensures ServedTo(gid, g, ops[..n], clientId, k) <==> ServedTo(gid, g, ops, clientId, k)
  {
    assert ops[..n][..k] == ops[..k] && ops[..n][k] == ops[k];
  }

  // A served request is noted if it is higher; nothing else is.
  lemma NotesServed(gid: int, g: Group, op: Op, clientId: int)
    ensures Latest(Apply(gid, g, op).group, clientId) ==
            if IsRequest(op) && g.Serves(KeyToShard(op.key)) && op.clientId == clientId &&
               op.requestId > Latest(g, clientId)
            then op.requestId else Latest(g, clientId)
  {
  }

  // The table holds the highest served request of each client.
  ghost predicate HoldsHighest(gid: int, g: Group, ops: seq<Op>, clientId: int, m: int) {
    && Latest(g, clientId) <= m
    && (forall k: nat :: ServedTo(gid, g, ops, clientId, k) ==> ops[k].requestId <= m)
    && (m == Latest(g, clientId) || exists k: nat :: ServedTo(gid, g, ops, clientId, k) && ops[k].requestId == m)
  }

  lemma OneMoreHighest(gid: int, g: Group, ops: seq<Op>, clientId: int, m: int, m': int)
    requires ops != [] && HoldsHighest(gid, g, ops[..|ops| - 1], clientId, m)
    requires var n := |ops| - 1;
             m' == if ServedTo(gid, g, ops, clientId, n) && ops[n].requestId > m then ops[n].requestId else m
    ensures HoldsHighest(gid, g, ops, clientId, m')
  {
    var n := |ops| - 1;
    forall k: nat | ServedTo(gid, g, ops, clientId, k)
      ensures ops[k].requestId <= m'
    {
      if k < n {
        PrefixServed(gid, g, ops, n, clientId, k);
        assert ops[..n][k].requestId <= m;
      }
    }
    if m' == m != Latest(g, clientId) {
      var k: nat :| ServedTo(gid, g, ops[..n], clientId, k) && ops[..n][k].requestId == m;
      PrefixServed(gid, g, ops, n, clientId, k);
    }
  }

  lemma {:induction false} TableHoldsHighest(gid: int, g: Group, ops: seq<Op>, clientId: int)
    ensures HoldsHighest(gid, g, ops, clientId, Latest(ApplyAll(gid, g, ops), clientId))
    decreases |ops|
  {
    if ops != [] {
      var before, op := ops[..|ops| - 1], ops[|ops| - 1];
      TableHoldsHighest(gid, g, before, clientId);
      NotesServed(gid, ApplyAll(gid, g, before), op, clientId);
      OneMoreHighest(gid, g, ops, clientId, Latest(ApplyAll(gid, g, before), clientId),
                     Latest(ApplyAll(gid, g, ops), clientId));
    }
  }

  lemma NewExactly(gid: int, g: Group, ops: seq<Op>, i: nat)
    requires i < |ops| && IsRequest(ops[i])
    ensures IsNew(gid, g, ops, i) <==> ops[i].requestId > Latest(ApplyAll(gid, g, ops[..i]), ops[i].clientId)
  {
    var client, before := ops[i].clientId, ops[..i];
    var m := Latest(ApplyAll(gid, g, before), client);
    TableHoldsHighest(gid, g, before, client);
    forall k: nat | k < i && ServedTo(gid, g, ops, client, k)
      ensures ops[k].requestId <= m
    {
      PrefixServed(gid, g, ops, i, client, k);
      assert before[k].requestId <= m;
    }
    if m != Latest(g, client) {
      var k: nat :| ServedTo(gid, g, before, client, k) && before[k].requestId == m;
      PrefixServed(gid, g, ops, i, client, k);
    }
  }

  // What a write leaves under its key.
  ghost function NewValue(storage: Storage, op: Op): string
    requires op.Put? || op.Append?
  {
    if op.Append? && op.key in storage then storage[op.key] + op.value else op.value
  }

  /**
    A write to a served shard is answered with OK, and puts its value, or appends it to the old one,
    exactly when its request is new; otherwise no shard changes.
   */
  lemma WriteExactly(gid: int, g: Group, ops: seq<Op>, i: nat)
    requires i < |ops| && (ops[i].Put? || ops[i].Append?) && Served(gid, g, ops, i)
    ensures var before, op := ApplyAll(gid, g, ops[..i]), ops[i];
            var shard := before.shards[KeyToShard(op.key)];
            && ApplyAll(gid, g, ops[..i + 1]).shards ==
               (if IsNew(gid, g, ops, i)
                then before.shards[KeyToShard(op.key) :=
                                   Shard(shard.storage[op.key := NewValue(shard.storage, op)], shard.status)]
                else before.shards)
            && Apply(gid, before, op).err == OK
  {
    NewExactly(gid, g, ops, i);
    assert ops[..i + 1][..i] == ops[..i];
  }

  /** A read of a served shard is answered with what is stored, or that nothing is, and changes no shard. */
  lemma ReadExactly(gid: int, g: Group, ops: seq<Op>, i: nat)
    requires i < |ops| && ops[i].Get? && Served(gid, g, ops, i)
    ensures var before := ApplyAll(gid, g, ops[..i]);
            var storage, out := before.shards[KeyToShard(ops[i].key)].storage, Apply(gid, before, ops[i]);
            && ApplyAll(gid, g, ops[..i + 1]).shards == before.shards
            && (if ops[i].key in storage then out.err == OK && out.value == storage[ops[i].key]
                else out.err == ErrNoKey && out.value == "")
  {
    assert ops[..i + 1][..i] == ops[..i];
  }

  /** A request for a shard that is not served is refused, and changes nothing at all. */
  lemma RefusedExactly(gid: int, g: Group, ops: seq<Op>, i: nat)
    requires i < |ops| && IsRequest(ops[i])
    ensures Apply(gid, ApplyAll(gid, g, ops[..i]), ops[i]).err == ErrWrongGroup <==> !Served(gid, g, ops, i)
    ensures !Served(gid, g, ops, i) ==> ApplyAll(gid, g, ops[..i + 1]) == ApplyAll(gid, g, ops[..i])
  {
    assert ops[..i + 1][..i] == ops[..i];
  }

  // ---------- In every run ----------

  // What the actions committed in group gid, in order.
  ghost function LogOf(actions: seq<Action>, gid: int): seq<Op> {
    if actions == [] then []
    else
      var a := actions[|actions| - 1];
      LogOf(actions[..|actions| - 1], gid) + if a.Commit? && a.gid == gid then [a.op] else []
  }

  /** A group is what its own log makes of a new one, so the above holds for every request in every run. */
  lemma {:induction false} GroupIsItsLog(configs: Configs, gids: set<int>, actions: seq<Action>, gid: int)
    requires IsRun(configs, gids, actions) && gid in gids
    ensures var w := After(configs, gids, actions);
            gid in w.groups && w.groups[gid] == ApplyAll(gid, NEW_GROUP, LogOf(actions, gid))
    decreases |actions|
  {
    if actions != [] {
      var before, a := actions[..|actions| - 1], actions[|actions| - 1];
      GroupIsItsLog(configs, gids, before, gid);
      var log := LogOf(before, gid);
      if a.Commit? && a.gid == gid {
        assert (log + [a.op])[..|log|] == log;
      } else {
        assert log + [] == log;
      }
    }
  }
}
