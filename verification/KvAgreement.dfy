/**
  The servers do what the sequential model of a key says: what they store for a key, and what they
  answer, is what the model makes of the operations that took effect, in the order of the log.
 */
module KvAgreement {
  import opened KvModel
  import KvServer
  import ShardServer

  // An operation that took effect, with its answer.
  datatype Served = Served(input: KvInput, output: KvOutput)

  function ValueOf(storage: map<string, string>, key: string): string {
    if key in storage then storage[key] else ""
  }

  // The model's code for the kind of operation.
  function Code(kind: KvServer.OpType): nat {
    match kind
    case GET => 0
    case PUT => 1
    case APPEND => 2
  }

  // The reads and the writes that took effect, with what a client is told.
  ghost function ServedBy(log: seq<KvServer.Op>): seq<Served> {
    if log == [] then []
    else
      var n := |log| - 1;
      var op, st := log[n], KvServer.Fold(log[..n]);
      var input := KvInput(Code(op.kind), op.key, op.value);
      ServedBy(log[..n]) +
        (if op.kind == KvServer.GET then [Served(input, KvOutput(ValueOf(st.storage, op.key)))]
         else if KvServer.Effective(log, n) then [Served(input, KvOutput(""))]
         else [])
  }

  // What the model makes of the operations on one key, and whether it accepts them all.
  ghost function ModelState(served: seq<Served>, key: string): (bool, string) {
    if served == [] then (true, "")
    else
      var n := |served| - 1;
      var (ok, s) := ModelState(served[..n], key);
      if served[n].input.key != key then (ok, s)
      else
        var (accepted, s') := Step(s, served[n].input, served[n].output);
        (ok && accepted, s')
  }

  /** For every log and every key the model accepts what was served and ends with what is stored. */
  lemma {:induction false} LogFollowsModel(log: seq<KvServer.Op>, key: string)
    ensures ModelState(ServedBy(log), key) == (true, ValueOf(KvServer.Fold(log).storage, key))
  {
    if log != [] {
      var n := |log| - 1;
      var before, all := ServedBy(log[..n]), ServedBy(log);
      LogFollowsModel(log[..n], key);
      assert before + [] == before;
      assert all[..|before|] == before;
      assert "" + log[n].value == log[n].value;
    }
  }

  /** A write to a shard changes its key as the model says and leaves the other keys alone. */
  lemma ShardWritesFollowModel(storage: ShardServer.Storage, op: ShardServer.Op, key: string)
    requires op.Put? || op.Append?
    ensures var input := KvInput(if op.Put? then 1 else 2, op.key, op.value);
            ValueOf(ShardServer.Written(storage, op), key) ==
            if key == op.key then Step(ValueOf(storage, key), input, KvOutput("")).1 else ValueOf(storage, key)
  {
    if op.key !in storage {
      assert "" + op.value == op.value;
    }
  }
}
