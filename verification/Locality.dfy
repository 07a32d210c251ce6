/**
  Many independent objects, one per key: a history is linearizable against all of them together
  exactly when the operations on each key are linearizable on their own.
 */
module Locality {
  import opened Linearizability
  import opened Operations
  import opened Sorting

  ghost function Look<K, S, I, O>(m: Model<S, I, O>, st: map<K, S>, k: K): S {
    if k in st then st[k] else m.init
  }

  // One object that behaves like m per key.
  ghost function Store<K, S, I, O>(m: Model<S, I, O>, keyOf: I -> K): Model<map<K, S>, I, O> {
    Model(map[], (st: map<K, S>, input, output) =>
      var (ok, s') := m.step(Look(m, st, keyOf(input)), input, output);
      (ok, st[keyOf(input) := s']))
  }

  lemma StoreStep<K, S, I, O>(m: Model<S, I, O>, keyOf: I -> K, st: map<K, S>, input: I, output: O, k: K)
    requires keyOf(input) == k
    ensures var r := m.step(Look(m, st, k), input, output);
            Store(m, keyOf).step(st, input, output) == (r.0, st[k := r.1])
  {
  }

  // What is left to do on key k, from state s, can be done in the order `rest`.
  ghost predicate KeyRest<K, S, I, O>(m: Model<S, I, O>, h: History<I, O>, keyOf: I -> K, k: K, done: set<nat>, s: S,
                                      rest: seq<nat>)
    requires Regular(h)
  {
    && IsKeyRest(h, keyOf, k, done, rest)
    && RespectsTime(h, rest) && Accepts(m, h, s, rest)
  }

  ghost predicate OnKey<K, I, O>(h: History<I, O>, keyOf: I -> K, k: K, x: nat)
    requires Regular(h)
  {
    x < |h.calls| && keyOf(h.inputs[x]) == k
  }

  ghost predicate IsKeyRest<K, I, O>(h: History<I, O>, keyOf: I -> K, k: K, done: set<nat>, rest: seq<nat>)
    requires Regular(h)
  {
    && (forall i: nat :: i < |rest| ==> OnKey(h, keyOf, k, rest[i]) && rest[i] !in done)
    && (forall i: nat, j: nat :: i < j < |rest| ==> rest[i] != rest[j])
    && forall x: nat :: OnKey(h, keyOf, k, x) && x !in done ==> x in rest
  }

  // ---------- From all keys to one ----------

  ghost function Filter<K, I, O>(h: History<I, O>, keyOf: I -> K, k: K, order: seq<nat>): seq<nat>
    requires Regular(h)
  {
    if order == [] then []
    else (if OnKey(h, keyOf, k, order[0]) then [order[0]] else []) + Filter(h, keyOf, k, order[1..])
  }

  lemma {:induction false} Project<K, S, I, O>(m: Model<S, I, O>, h: History<I, O>, keyOf: I -> K, k: K,
                                               done: set<nat>, st: map<K, S>, order: seq<nat>)
    requires Regular(h) && Completes(Store(m, keyOf), h, done, st, order)
    ensures KeyRest(m, h, keyOf, k, done, Look(m, st, k), Filter(h, keyOf, k, order))
    decreases |order|
  {
    if order != [] {
      var x := order[0];
      var (_, st') := Store(m, keyOf).step(st, h.inputs[x], h.outputs[x]);
      var tail := Filter(h, keyOf, k, order[1..]);
      Project(m, h, keyOf, k, done + {x}, st', order[1..]);
      if OnKey(h, keyOf, k, x) {
        Prepend(m, h, keyOf, k, done, Look(m, st, k), x, tail);
      } else {
        OtherKey(m, h, keyOf, k, done, Look(m, st, k), tail, x);
        assert [] + tail == tail;
      }
    }
  }

  // x first, then the rest.
  lemma Prepend<K, S, I, O>(m: Model<S, I, O>, h: History<I, O>, keyOf: I -> K, k: K, done: set<nat>, s: S, x: nat,
                            tail: seq<nat>)
    requires Regular(h) && OnKey(h, keyOf, k, x) && MayBeNext(h, done, x)
    requires m.step(s, h.inputs[x], h.outputs[x]).0
    requires KeyRest(m, h, keyOf, k, done + {x}, m.step(s, h.inputs[x], h.outputs[x]).1, tail)
    ensures KeyRest(m, h, keyOf, k, done, s, [x] + tail)
  {
    var rest := [x] + tail;
    assert rest[1..] == tail;
    forall i: nat | 0 < i < |rest|
      ensures rest[i] == tail[i - 1]
    {
    }
    forall y: nat | OnKey(h, keyOf, k, y) && y !in done
      ensures y in rest
    {
      assert y != x ==> y in tail;
    }
  }

  // ---------- From each key to all ----------

  ghost function Left<I, O>(h: History<I, O>, done: set<nat>): set<nat> {
    set x: nat | x < |h.calls| && x !in done
  }

  // The operation among those left that returns first.
  lemma {:induction false} ReturnsFirst<I, O>(h: History<I, O>, left: set<nat>) returns (y: nat)
    requires Regular(h) && left != {} && forall x :: x in left ==> x < |h.calls|
    ensures y in left && forall x :: x in left ==> h.rets[y] <= h.rets[x]
    decreases left
  {
    y :| y in left;
    if left != {y} {
      var z := ReturnsFirst(h, left - {y});
      assert forall x :: x in left ==> x == y || x in left - {y};
      if h.rets[z] < h.rets[y] {
        y := z;
      }
    }
  }

  // The first operation of that one's key may be next.
  lemma HeadMayBeNext<K, S, I, O>(m: Model<S, I, O>, h: History<I, O>, keyOf: I -> K, done: set<nat>, s: S,
                                  rest: seq<nat>, y: nat)
    requires Regular(h) && y < |h.calls| && y !in done && forall x :: x in Left(h, done) ==> h.rets[y] <= h.rets[x]
    requires KeyRest(m, h, keyOf, keyOf(h.inputs[y]), done, s, rest)
    ensures rest != [] && MayBeNext(h, done, rest[0])
  {
    assert OnKey(h, keyOf, keyOf(h.inputs[y]), y);
    assert y in rest;
    var i :| 0 <= i < |rest| && rest[i] == y;
    assert !Precedes(h, rest[i], rest[0]);
    forall z: nat | z < |h.calls| && z !in done
      ensures !Precedes(h, z, rest[0])
    {
      assert z in Left(h, done);
    }
  }

  // Doing the first operation leaves the others of its key.
  lemma AfterHead<K, S, I, O>(m: Model<S, I, O>, h: History<I, O>, keyOf: I -> K, k: K, done: set<nat>, s: S,
                              rest: seq<nat>)
    requires Regular(h) && KeyRest(m, h, keyOf, k, done, s, rest) && rest != []
    ensures OnKey(h, keyOf, k, rest[0]) && m.step(s, h.inputs[rest[0]], h.outputs[rest[0]]).0
    ensures KeyRest(m, h, keyOf, k, done + {rest[0]}, m.step(s, h.inputs[rest[0]], h.outputs[rest[0]]).1, rest[1..])
  {
    var tail := rest[1..];
    forall i: nat | i < |tail|
      ensures tail[i] == rest[i + 1]
    {
    }
    forall y: nat | OnKey(h, keyOf, k, y) && y !in done + {rest[0]}
      ensures y in tail
    {
      assert y in rest;
    }
  }

  // Doing an operation on another key leaves this key as it is.
  lemma OtherKey<K, S, I, O>(m: Model<S, I, O>, h: History<I, O>, keyOf: I -> K, k: K, done: set<nat>, s: S,
                             rest: seq<nat>, x: nat)
    requires Regular(h) && x < |h.calls| && keyOf(h.inputs[x]) != k
    ensures KeyRest(m, h, keyOf, k, done, s, rest) <==> KeyRest(m, h, keyOf, k, done + {x}, s, rest)
  {
  }

  ghost predicate KeysRest<K, S, I, O>(m: Model<S, I, O>, h: History<I, O>, keyOf: I -> K, done: set<nat>,
                                       st: map<K, S>, rests: map<K, seq<nat>>)
    requires Regular(h)
  {
    && (forall x: nat :: x < |h.calls| ==> keyOf(h.inputs[x]) in rests)
    && forall k :: k in rests ==> KeyRest(m, h, keyOf, k, done, Look(m, st, k), rests[k])
  }

  lemma StepKey<K, S, I, O>(m: Model<S, I, O>, h: History<I, O>, keyOf: I -> K, done: set<nat>, st: map<K, S>,
                            rests: map<K, seq<nat>>, k: K)
    requires Regular(h) && KeysRest(m, h, keyOf, done, st, rests) && k in rests && rests[k] != []
    ensures var x := rests[k][0];
            && x < |h.calls| && x !in done
            && var (ok, st') := Store(m, keyOf).step(st, h.inputs[x], h.outputs[x]);
               ok && KeysRest(m, h, keyOf, done + {x}, st', rests[k := rests[k][1..]])
  {
    var x := rests[k][0];
    AfterHead(m, h, keyOf, k, done, Look(m, st, k), rests[k]);
    forall k' | k' in rests && k' != k
      ensures KeyRest(m, h, keyOf, k', done + {x}, Look(m, st, k'), rests[k'])
    {
      OtherKey(m, h, keyOf, k', done, Look(m, st, k'), rests[k'], x);
    }
  }

  // The orders of the keys can be merged into one.
  lemma {:induction false} Merge<K, S, I, O>(m: Model<S, I, O>, h: History<I, O>, keyOf: I -> K, done: set<nat>,
                                             st: map<K, S>, rests: map<K, seq<nat>>) returns (order: seq<nat>)
    requires Regular(h) && KeysRest(m, h, keyOf, done, st, rests)
    ensures Completes(Store(m, keyOf), h, done, st, order)
    decreases Left(h, done)
  {
    if Left(h, done) == {} {
      assert forall x: nat :: x < |h.calls| && x !in done ==> x in Left(h, done);
      order := [];
    } else {
      var y := ReturnsFirst(h, Left(h, done));
      var k := keyOf(h.inputs[y]);
      HeadMayBeNext(m, h, keyOf, done, Look(m, st, k), rests[k], y);
      StepKey(m, h, keyOf, done, st, rests, k);
      var x := rests[k][0];
      var (_, st') := Store(m, keyOf).step(st, h.inputs[x], h.outputs[x]);
      assert x in Left(h, done) && x !in Left(h, done + {x});
      var tail := Merge(m, h, keyOf, done + {x}, st', rests[k := rests[k][1..]]);
      order := [x] + tail;
      assert order[1..] == tail;
    }
  }

  // ---------- The operations on one key ----------

  function OfKey<K(==), I, O>(keyOf: I -> K, ops: seq<Operation<I, O>>, k: K): seq<Operation<I, O>> {
    if ops == [] then []
    else
      var last := ops[|ops| - 1];
      OfKey(keyOf, ops[..|ops| - 1], k) + (if keyOf(last.input) == k then [last] else [])
  }

  // Where they stand among all.
  ghost function Indices<K, I, O>(keyOf: I -> K, ops: seq<Operation<I, O>>, k: K): seq<nat> {
    if ops == [] then []
    else
      var n := |ops| - 1;
      Indices(keyOf, ops[..n], k) + (if keyOf(ops[n].input) == k then [n] else [])
  }

  // `part` holds, in increasing order, the operations on key k of `ops`, which stand there at idx.
  ghost predicate Picks<K, I, O>(keyOf: I -> K, ops: seq<Operation<I, O>>, k: K, part: seq<Operation<I, O>>,
                                 idx: seq<nat>) {
    && |part| == |idx|
    && (forall i: nat :: i < |idx| ==> idx[i] < |ops| && keyOf(ops[idx[i]].input) == k && part[i] == ops[idx[i]])
    && (forall i: nat, j: nat :: i < j < |idx| ==> idx[i] < idx[j])
    && forall x: nat :: x < |ops| && keyOf(ops[x].input) == k ==> x in idx
  }

  lemma {:induction false} KeyPicks<K, I, O>(keyOf: I -> K, ops: seq<Operation<I, O>>, k: K)
    ensures Picks(keyOf, ops, k, OfKey(keyOf, ops, k), Indices(keyOf, ops, k))
  {
    if ops != [] {
      var n := |ops| - 1;
      KeyPicks(keyOf, ops[..n], k);
      PickOne(keyOf, ops, k, OfKey(keyOf, ops[..n], k), Indices(keyOf, ops[..n], k));
    }
  }

  lemma {:induction false} PickOne<K, I, O>(keyOf: I -> K, ops: seq<Operation<I, O>>, k: K, part: seq<Operation<I, O>>,
                                            idx: seq<nat>)
    requires ops != [] && Picks(keyOf, ops[..|ops| - 1], k, part, idx)
    ensures var n := |ops| - 1;
            if keyOf(ops[n].input) == k then Picks(keyOf, ops, k, part + [ops[n]], idx + [n])
            else Picks(keyOf, ops, k, part + [], idx + [])
  {
    var n := |ops| - 1;
    var before := ops[..n];
    if keyOf(ops[n].input) == k {
      forall x: nat | x < |ops| && keyOf(ops[x].input) == k
        ensures x in idx + [n]
      {
        assert x < n ==> before[x] == ops[x];
      }
    } else {
      assert part + [] == part && idx + [] == idx;
      forall x: nat | x < |ops| && keyOf(ops[x].input) == k
        ensures x in idx
      {
        assert before[x] == ops[x];
      }
    }
  }

  ghost function Mapped(idx: seq<nat>, order: seq<nat>): (r: seq<nat>)
    requires Within(|idx|, order)
  {
    seq(|order|, i requires 0 <= i < |order| => idx[order[i]])
  }

  lemma {:induction false} SameAccepts<K, S, I, O>(m: Model<S, I, O>, keyOf: I -> K, ops: seq<Operation<I, O>>, k: K,
                                                   part: seq<Operation<I, O>>, idx: seq<nat>, s: S, order: seq<nat>)
    requires Timely(ops) && Timely(part) && Picks(keyOf, ops, k, part, idx) && Within(|part|, order)
    ensures Within(|ops|, Mapped(idx, order))
    ensures Accepts(m, HistoryOf(part), s, order) <==> Accepts(m, HistoryOf(ops), s, Mapped(idx, order))
    decreases |order|
  {
    if order != [] {
      assert Mapped(idx, order)[1..] == Mapped(idx, order[1..]);
      var (_, s') := m.step(s, part[order[0]].input, part[order[0]].output);
      SameAccepts(m, keyOf, ops, k, part, idx, s', order[1..]);
    }
  }

  lemma PartTimely<K, I, O>(keyOf: I -> K, ops: seq<Operation<I, O>>, k: K, part: seq<Operation<I, O>>, idx: seq<nat>)
    requires Timely(ops) && Picks(keyOf, ops, k, part, idx)
    ensures Timely(part)
  {
  }

  lemma SameTimes<K, I, O>(keyOf: I -> K, ops: seq<Operation<I, O>>, k: K, part: seq<Operation<I, O>>, idx: seq<nat>,
                           order: seq<nat>)
    requires Timely(ops) && Timely(part) && Picks(keyOf, ops, k, part, idx) && Within(|part|, order)
    ensures Within(|ops|, Mapped(idx, order))
    ensures RespectsTime(HistoryOf(part), order) <==> RespectsTime(HistoryOf(ops), Mapped(idx, order))
  {
    var h, g, rest := HistoryOf(ops), HistoryOf(part), Mapped(idx, order);
    forall i: nat, j: nat | i < j < |order|
      ensures Precedes(g, order[j], order[i]) <==> Precedes(h, rest[j], rest[i])
    {
    }
  }

  lemma SameNumbers<K, I, O>(keyOf: I -> K, ops: seq<Operation<I, O>>, k: K, part: seq<Operation<I, O>>, idx: seq<nat>,
                             order: seq<nat>)
    requires Timely(ops) && Picks(keyOf, ops, k, part, idx) && Within(|part|, order)
    ensures IsPermutation(|part|, order) <==> IsKeyRest(HistoryOf(ops), keyOf, k, {}, Mapped(idx, order))
  {
    var h, rest := HistoryOf(ops), Mapped(idx, order);
    forall i: nat | i < |order|
      ensures rest[i] == idx[order[i]] && OnKey(h, keyOf, k, rest[i])
    {
    }
    if IsPermutation(|part|, order) {
      forall x: nat | OnKey(h, keyOf, k, x)
        ensures x in rest
      {
        assert x in idx;
        var i :| 0 <= i < |idx| && idx[i] == x;
        var p := WhereIs(|part|, order, i);
        assert rest[p] == x;
      }
    }
    if IsKeyRest(h, keyOf, k, {}, rest) {
      forall i: nat | i < |part|
        ensures i in order
      {
        assert OnKey(h, keyOf, k, idx[i]);
        var p :| 0 <= p < |rest| && rest[p] == idx[i];
        assert order[p] == i;
      }
    }
  }

  // An order of the key's operations, by their numbers in the part and by their numbers in the whole.
  lemma SameOrders<K, S, I, O>(m: Model<S, I, O>, keyOf: I -> K, ops: seq<Operation<I, O>>, k: K,
                               part: seq<Operation<I, O>>, idx: seq<nat>, order: seq<nat>)
    requires Timely(ops) && Timely(part) && Picks(keyOf, ops, k, part, idx) && Within(|part|, order)
    ensures IsLinearization(m, HistoryOf(part), order) <==>
            KeyRest(m, HistoryOf(ops), keyOf, k, {}, m.init, Mapped(idx, order))
  {
    SameAccepts(m, keyOf, ops, k, part, idx, m.init, order);
    SameTimes(keyOf, ops, k, part, idx, order);
    SameNumbers(keyOf, ops, k, part, idx, order);
  }

  // Every order of the whole's numbers for one key comes from one of the part's.
  lemma Unmapped<K, I, O>(keyOf: I -> K, ops: seq<Operation<I, O>>, k: K, part: seq<Operation<I, O>>, idx: seq<nat>,
                          rest: seq<nat>)
    returns (order: seq<nat>)
    requires Timely(ops) && Picks(keyOf, ops, k, part, idx) && IsKeyRest(HistoryOf(ops), keyOf, k, {}, rest)
    ensures Within(|part|, order) && Mapped(idx, order) == rest
  {
    forall p: nat | p < |rest|
      ensures exists i: nat :: i < |idx| && idx[i] == rest[p]
    {
      assert OnKey(HistoryOf(ops), keyOf, k, rest[p]);
      assert rest[p] in idx;
    }
    order := seq(|rest|, p requires 0 <= p < |rest| => var i: nat :| i < |idx| && idx[i] == rest[p]; i);
  }

  // The operations on key k can be put in order.
  ghost predicate KeyLinearizable<K, S, I, O>(m: Model<S, I, O>, h: History<I, O>, keyOf: I -> K, k: K)
    requires Regular(h)
  {
    exists rest :: KeyRest(m, h, keyOf, k, {}, m.init, rest)
  }

  ghost predicate PartLinearizable<K, S, I, O>(m: Model<S, I, O>, keyOf: I -> K, ops: seq<Operation<I, O>>, k: K) {
    var part := OfKey(keyOf, ops, k);
    Timely(part) && Linearizable(m, HistoryOf(part))
  }

  lemma PartIsKey<K, S, I, O>(m: Model<S, I, O>, keyOf: I -> K, ops: seq<Operation<I, O>>, k: K)
    requires Timely(ops)
    ensures PartLinearizable(m, keyOf, ops, k) <==> KeyLinearizable(m, HistoryOf(ops), keyOf, k)
  {
    var part, idx := OfKey(keyOf, ops, k), Indices(keyOf, ops, k);
    KeyPicks(keyOf, ops, k);
    PartTimely(keyOf, ops, k, part, idx);
    if order :| IsLinearization(m, HistoryOf(part), order) {
      SameOrders(m, keyOf, ops, k, part, idx, order);
    }
    if rest :| KeyRest(m, HistoryOf(ops), keyOf, k, {}, m.init, rest) {
      var order := Unmapped(keyOf, ops, k, part, idx, rest);
      SameOrders(m, keyOf, ops, k, part, idx, order);
    }
  }

  lemma MergeAll<K(!new), S, I, O>(m: Model<S, I, O>, keyOf: I -> K, h: History<I, O>)
    requires Regular(h) && forall k :: KeyLinearizable(m, h, keyOf, k)
    ensures Linearizable(Store(m, keyOf), h)
  {
    var keys := set x: nat | x < |h.calls| :: keyOf(h.inputs[x]);
    forall k | k in keys
      ensures exists rest :: KeyRest(m, h, keyOf, k, {}, m.init, rest)
    {
      assert KeyLinearizable(m, h, keyOf, k);
    }
    var rests := map k | k in keys :: var rest :| KeyRest(m, h, keyOf, k, {}, m.init, rest); rest;
    var order := Merge(m, h, keyOf, {}, map[], rests);
    SearchDecides(Store(m, keyOf), h);
  }

  /**
    A history is linearizable against the store exactly when each key's part is against one object.
   */
  lemma PartsDecide<K(!new), S, I, O>(m: Model<S, I, O>, keyOf: I -> K, ops: seq<Operation<I, O>>)
    requires Timely(ops)
    ensures Linearizable(Store(m, keyOf), HistoryOf(ops)) <==> forall k :: PartLinearizable(m, keyOf, ops, k)
  {
    var h := HistoryOf(ops);
    forall k
      ensures PartLinearizable(m, keyOf, ops, k) <==> KeyLinearizable(m, h, keyOf, k)
    {
      PartIsKey(m, keyOf, ops, k);
    }
    SearchDecides(Store(m, keyOf), h);
    if order :| Completes(Store(m, keyOf), h, {}, map[], order) {
      forall k
        ensures KeyLinearizable(m, h, keyOf, k)
      {
        Project(m, h, keyOf, k, {}, map[], order);
      }
    }
    if forall k :: KeyLinearizable(m, h, keyOf, k) {
      MergeAll(m, keyOf, h);
    }
  }
}
