/**
  The key/value model, its partition by key, and the answer the checker gives for it.
 */
module KvModel {
  import opened Sequences
  import opened Linearizability
  import opened Operations
  import opened Locality
  import opened Sorting
  import CheckSingle

  // op is 0 for get, 1 for put, anything else for append.
  datatype KvInput = KvInput(op: nat, key: string, value: string)

  datatype KvOutput = KvOutput(value: string)

  type KvOperation = Operation<KvInput, KvOutput>

  function KeyOf(input: KvInput): string {
    input.key
  }

  // The value of a single key.
  function Step(state: string, input: KvInput, output: KvOutput): (bool, string) {
    if input.op == 0 then (output.value == state, state)
    else if input.op == 1 then (true, input.value)
    else (true, state + input.value)
  }

  const MODEL: Model<string, KvInput, KvOutput> := Model("", Step)

  // The whole store: a value for every key, "" to begin with.
  ghost function KvStore(): Model<map<string, string>, KvInput, KvOutput> {
    Store(MODEL, KeyOf)
  }

  // ---------- What a history may answer ----------

  // One more than the position of the last put, 0 if there is none.
  ghost function AfterLastPut(inputs: seq<KvInput>): (p: nat)
    ensures p <= |inputs| && (p > 0 ==> inputs[p - 1].op == 1)
    ensures forall j: nat :: p <= j < |inputs| ==> inputs[j].op != 1
  {
    if inputs == [] then 0
    else if inputs[|inputs| - 1].op == 1 then |inputs|
    else AfterLastPut(inputs[..|inputs| - 1])
  }

  // The values of the appends, one after the other.
  ghost function Appended(inputs: seq<KvInput>): string {
    if inputs == [] then ""
    else
      var last := inputs[|inputs| - 1];
      Appended(inputs[..|inputs| - 1]) + if last.op >= 2 then last.value else ""
  }

  // What the last put wrote, followed by what was appended since.
  ghost function ValueAfter(inputs: seq<KvInput>): string {
    var p := AfterLastPut(inputs);
    (if p == 0 then "" else inputs[p - 1].value) + Appended(inputs[p..])
  }

  ghost function OnlyKey(inputs: seq<KvInput>, key: string): seq<KvInput> {
    if inputs == [] then []
    else
      var last := inputs[|inputs| - 1];
      OnlyKey(inputs[..|inputs| - 1], key) + if last.key == key then [last] else []
  }

  ghost function InputsOf(h: History<KvInput, KvOutput>, order: seq<nat>): (inputs: seq<KvInput>)
    requires Regular(h) && Within(|h.calls|, order)
    ensures |inputs| == |order| && forall i: nat :: i < |order| ==> inputs[i] == h.inputs[order[i]]
  {
    seq(|order|, i requires 0 <= i < |order| => h.inputs[order[i]])
  }

  // What the first i operations in the order leave.
  ghost function ValueAt(h: History<KvInput, KvOutput>, order: seq<nat>, i: nat): string
    requires Regular(h) && Within(|h.calls|, order) && i <= |order|
  {
    ValueAfter(InputsOf(h, order[..i]))
  }

  // The i-th operation in the order, if it is a get, answers with what the operations before it leave.
  ghost predicate AnswersValue(h: History<KvInput, KvOutput>, order: seq<nat>, i: nat)
    requires Regular(h) && Within(|h.calls|, order) && i < |order|
  {
    h.inputs[order[i]].op == 0 ==> h.outputs[order[i]].value == ValueAt(h, order, i)
  }

  ghost predicate AllAnswer(h: History<KvInput, KvOutput>, order: seq<nat>, i: nat)
    requires Regular(h) && Within(|h.calls|, order)
  {
    forall j: nat :: i <= j < |order| ==> AnswersValue(h, order, j)
  }

  // The same with those on its key.
  ghost predicate AnswersOfKey(h: History<KvInput, KvOutput>, order: seq<nat>, i: nat)
    requires Regular(h) && Within(|h.calls|, order) && i < |order|
  {
    var input := h.inputs[order[i]];
    input.op == 0 ==> h.outputs[order[i]].value == ValueAfter(OnlyKey(InputsOf(h, order[..i]), input.key))
  }

  ghost predicate AllOfKey(h: History<KvInput, KvOutput>, order: seq<nat>, i: nat)
    requires Regular(h) && Within(|h.calls|, order)
  {
    forall j: nat :: i <= j < |order| ==> AnswersOfKey(h, order, j)
  }

  lemma OneMoreSince(inputs: seq<KvInput>, input: KvInput)
    ensures AfterLastPut(inputs + [input]) == if input.op == 1 then |inputs| + 1 else AfterLastPut(inputs)
    ensures Appended(inputs + [input]) == Appended(inputs) + if input.op >= 2 then input.value else ""
  {
    assert (inputs + [input])[..|inputs|] == inputs;
  }

  lemma AfterPut(inputs: seq<KvInput>, input: KvInput)
    requires input.op == 1
    ensures ValueAfter(inputs + [input]) == input.value
  {
    var more := inputs + [input];
    OneMoreSince(inputs, input);
    assert more[|more|..] == [];
    assert input.value + "" == input.value;
  }

  lemma AfterOther(inputs: seq<KvInput>, input: KvInput)
    requires input.op != 1
    ensures ValueAfter(inputs + [input]) == ValueAfter(inputs) + if input.op >= 2 then input.value else ""
  {
    var more, p := inputs + [input], AfterLastPut(inputs);
    OneMoreSince(inputs, input);
    assert more[p..] == inputs[p..] + [input];
    OneMoreSince(inputs[p..], input);
    var start := if p == 0 then "" else inputs[p - 1].value;
    var end := if input.op >= 2 then input.value else "";
    assert start + (Appended(inputs[p..]) + end) == (start + Appended(inputs[p..])) + end;
  }

  lemma OneMoreInput(inputs: seq<KvInput>, input: KvInput, output: KvOutput)
    ensures Step(ValueAfter(inputs), input, output) ==
            (input.op == 0 ==> output.value == ValueAfter(inputs), ValueAfter(inputs + [input]))
  {
    if input.op == 1 {
      AfterPut(inputs, input);
    } else {
      AfterOther(inputs, input);
      assert ValueAfter(inputs) + "" == ValueAfter(inputs);
    }
  }

  // The order up to i, and one more.
  lemma OneMoreOf(h: History<KvInput, KvOutput>, order: seq<nat>, i: nat)
    requires Regular(h) && Within(|h.calls|, order) && i < |order|
    ensures InputsOf(h, order[..i + 1]) == InputsOf(h, order[..i]) + [h.inputs[order[i]]]
  {
  }

  lemma ModelStep(h: History<KvInput, KvOutput>, order: seq<nat>, i: nat)
    requires Regular(h) && Within(|h.calls|, order) && i < |order|
    ensures MODEL.step(ValueAt(h, order, i), h.inputs[order[i]], h.outputs[order[i]]) ==
            (AnswersValue(h, order, i), ValueAt(h, order, i + 1))
  {
    OneMoreOf(h, order, i);
    OneMoreInput(InputsOf(h, order[..i]), h.inputs[order[i]], h.outputs[order[i]]);
  }

  lemma AcceptsNext<S, I, O>(m: Model<S, I, O>, h: History<I, O>, s: S, order: seq<nat>, i: nat, ok: bool, s': S)
    requires Regular(h) && Within(|h.calls|, order) && i < |order|
    requires m.step(s, h.inputs[order[i]], h.outputs[order[i]]) == (ok, s')
    ensures Accepts(m, h, s, order[i..]) <==> ok && Accepts(m, h, s', order[i + 1..])
  {
    assert order[i..][0] == order[i] && order[i..][1..] == order[i + 1..];
  }

  /** The model accepts an order of operations on one key exactly when each get answers with the value then. */
  lemma {:induction false} ModelAcceptsExactly(h: History<KvInput, KvOutput>, order: seq<nat>, i: nat)
    requires Regular(h) && Within(|h.calls|, order) && i <= |order|
    ensures Accepts(MODEL, h, ValueAt(h, order, i), order[i..]) <==> AllAnswer(h, order, i)
    decreases |order| - i
  {
    if i < |order| {
      ModelStep(h, order, i);
      var s, s', ok := ValueAt(h, order, i), ValueAt(h, order, i + 1), AnswersValue(h, order, i);
      AcceptsNext(MODEL, h, s, order, i, ok, s');
      ModelAcceptsExactly(h, order, i + 1);
      AllAnswerNext(h, order, i);
    }
  }

  lemma AllAnswerNext(h: History<KvInput, KvOutput>, order: seq<nat>, i: nat)
    requires Regular(h) && Within(|h.calls|, order) && i < |order|
    ensures AllAnswer(h, order, i) <==> AnswersValue(h, order, i) && AllAnswer(h, order, i + 1)
  {
  }

  // The store's state is the value of every key.
  ghost predicate Stores(st: map<string, string>, inputs: seq<KvInput>) {
    forall key :: Look(MODEL, st, key) == ValueAfter(OnlyKey(inputs, key))
  }

  lemma OneMoreOnKey(inputs: seq<KvInput>, input: KvInput, key: string)
    ensures OnlyKey(inputs + [input], key) ==
            if input.key == key then OnlyKey(inputs, key) + [input] else OnlyKey(inputs, key)
  {
    assert (inputs + [input])[..|inputs|] == inputs;
    assert OnlyKey(inputs, key) + [] == OnlyKey(inputs, key);
  }

  lemma StoreAnswers(st: map<string, string>, inputs: seq<KvInput>, input: KvInput, output: KvOutput)
    requires Stores(st, inputs)
    ensures KvStore().step(st, input, output) ==
            (input.op == 0 ==> output.value == ValueAfter(OnlyKey(inputs, input.key)),
             st[input.key := ValueAfter(OnlyKey(inputs + [input], input.key))])
  {
    StoreStep(MODEL, KeyOf, st, input, output, input.key);
    OneMoreOnKey(inputs, input, input.key);
    OneMoreInput(OnlyKey(inputs, input.key), input, output);
    assert Look(MODEL, st, input.key) == ValueAfter(OnlyKey(inputs, input.key));
  }

  lemma StoresMore(st: map<string, string>, inputs: seq<KvInput>, input: KvInput)
    requires Stores(st, inputs)
    ensures Stores(st[input.key := ValueAfter(OnlyKey(inputs + [input], input.key))], inputs + [input])
  {
    var value := ValueAfter(OnlyKey(inputs + [input], input.key));
    forall key
      ensures Look(MODEL, st[input.key := value], key) == ValueAfter(OnlyKey(inputs + [input], key))
    {
      if key != input.key {
        OneMoreOnKey(inputs, input, key);
        assert Look(MODEL, st, key) == ValueAfter(OnlyKey(inputs, key));
      }
    }
  }

  lemma {:induction false} StoreAcceptsExactly(h: History<KvInput, KvOutput>, order: seq<nat>, i: nat,
                                               st: map<string, string>)
    requires Regular(h) && Within(|h.calls|, order) && i <= |order| && Stores(st, InputsOf(h, order[..i]))
    ensures Accepts(KvStore(), h, st, order[i..]) <==> AllOfKey(h, order, i)
    decreases |order| - i
  {
    if i < |order| {
      var inputs, input, output := InputsOf(h, order[..i]), h.inputs[order[i]], h.outputs[order[i]];
      var st' := st[input.key := ValueAfter(OnlyKey(inputs + [input], input.key))];
      StoreAnswers(st, inputs, input, output);
      StoresMore(st, inputs, input);
      AcceptsNext(KvStore(), h, st, order, i, AnswersOfKey(h, order, i), st');
      OneMoreOf(h, order, i);
      StoreAcceptsExactly(h, order, i + 1, st');
      AllOfKeyNext(h, order, i);
    }
  }

  lemma AllOfKeyNext(h: History<KvInput, KvOutput>, order: seq<nat>, i: nat)
    requires Regular(h) && Within(|h.calls|, order) && i < |order|
    ensures AllOfKey(h, order, i) <==> AnswersOfKey(h, order, i) && AllOfKey(h, order, i + 1)
  {
  }

  // Every operation once, in an order that time allows.
  ghost predicate Orders(h: History<KvInput, KvOutput>, order: seq<nat>)
    requires Regular(h)
  {
    IsPermutation(|h.calls|, order) && RespectsTime(h, order)
  }

  /** Operations on one key are linearizable exactly when in some order each get answers with the value then. */
  lemma PartLinearizableExactly(h: History<KvInput, KvOutput>)
    requires Regular(h)
    ensures Linearizable(MODEL, h) <==> exists order :: Orders(h, order) && AllAnswer(h, order, 0)
  {
    forall order
      ensures IsLinearization(MODEL, h, order) <==> Orders(h, order) && AllAnswer(h, order, 0)
    {
      if Orders(h, order) {
        assert order[..0] == [] && order[0..] == order && ValueAt(h, order, 0) == "";
        ModelAcceptsExactly(h, order, 0);
      }
    }
    if Linearizable(MODEL, h) {
      var order :| IsLinearization(MODEL, h, order);
      assert Orders(h, order) && AllAnswer(h, order, 0);
    }
    if order :| Orders(h, order) && AllAnswer(h, order, 0) {
      assert IsLinearization(MODEL, h, order);
    }
  }

  // In this order every get answers with what was last put to its key and appended since.
  ghost predicate Explains(h: History<KvInput, KvOutput>, order: seq<nat>)
    requires Regular(h)
  {
    Orders(h, order) && AllOfKey(h, order, 0)
  }

  /** A history is linearizable against the store exactly when some order explains every get. */
  lemma LinearizableExactly(h: History<KvInput, KvOutput>)
    requires Regular(h)
    ensures Linearizable(KvStore(), h) <==> exists order :: Explains(h, order)
  {
    forall order
      ensures IsLinearization(KvStore(), h, order) <==> Explains(h, order)
    {
      if Orders(h, order) {
        assert InputsOf(h, order[..0]) == [] && order[0..] == order;
        assert Stores(map[], []);
        StoreAcceptsExactly(h, order, 0, map[]);
      }
    }
    if Linearizable(KvStore(), h) {
      var order :| IsLinearization(KvStore(), h, order);
      assert Explains(h, order);
    }
    if order :| Explains(h, order) {
      assert IsLinearization(KvStore(), h, order);
    }
  }

  // Operation x is a get, and no order that time allows has its answer as the value then.
  ghost predicate Inexplicable(h: History<KvInput, KvOutput>, x: nat)
    requires Regular(h)
  {
    && x < |h.calls| && h.inputs[x].op == 0
    && forall order, i: nat :: Orders(h, order) && i < |order| && order[i] == x ==> !AnswersOfKey(h, order, i)
  }

  lemma NothingExplains(h: History<KvInput, KvOutput>, x: nat)
    requires Regular(h) && Inexplicable(h, x)
    ensures !Linearizable(KvStore(), h)
  {
    LinearizableExactly(h);
    forall order
      ensures !Explains(h, order)
    {
      if Orders(h, order) {
        var i := WhereIs(|h.calls|, order, x);
        assert !AnswersOfKey(h, order, i);
      }
    }
  }

  // ---------- Partition ----------

  ghost predicate Appears(history: seq<KvOperation>, k: string) {
    OfKey(KeyOf, history, k) != []
  }

  ghost predicate Groups(history: seq<KvOperation>, m: map<string, seq<KvOperation>>) {
    forall k :: if k in m then Appears(history, k) && m[k] == OfKey(KeyOf, history, k) else !Appears(history, k)
  }

  // The key of the operations of a part.
  function PartKey(part: seq<KvOperation>): string {
    if part == [] then "" else part[0].input.key
  }

  // The operations on each key that appears, in the order of the history; the parts by increasing key.
  ghost predicate IsPartition(history: seq<KvOperation>, parts: seq<seq<KvOperation>>) {
    && (forall i: nat :: i < |parts| ==> parts[i] != [] && parts[i] == OfKey(KeyOf, history, PartKey(parts[i])))
    && (forall i: nat, j: nat :: i < j < |parts| ==> LexLess(PartKey(parts[i]), PartKey(parts[j])))
    && forall k :: Appears(history, k) ==> exists i: nat :: i < |parts| && PartKey(parts[i]) == k
  }

  method Partition(history: seq<KvOperation>) returns (parts: seq<seq<KvOperation>>)
    ensures IsPartition(history, parts)
  {
    var m := Group(history);
    var found := Listed(m.Keys);
    LexOrders();
    var keys;
    ghost var perm;
    keys, perm := Sort(LexLess, found);
    StrictlySorted(found, keys, perm);
    parts := [];
    for i := 0 to |keys|
      invariant |parts| == i
      invariant forall j: nat :: j < i ==>
                  parts[j] == OfKey(KeyOf, history, keys[j]) && parts[j] != [] && PartKey(parts[j]) == keys[j]
    {
      assert keys[i] in m;
      KeyPicks(KeyOf, history, keys[i]);
      parts := parts + [m[keys[i]]];
    }
    forall k | Appears(history, k)
      ensures exists i: nat :: i < |parts| && PartKey(parts[i]) == k
    {
      assert k in keys;
      var i :| 0 <= i < |keys| && keys[i] == k;
      assert PartKey(parts[i]) == k;
    }
  }

  method Group(history: seq<KvOperation>) returns (m: map<string, seq<KvOperation>>)
    ensures Groups(history, m)
  {
    m := map[];
    assert history[..0] == [];
    for n := 0 to |history|
      invariant Groups(history[..n], m)
    {
      var v := history[n];
      ghost var before := history[..n];
      assert history[..n + 1][..n] == before;
      assert forall k ::
          OfKey(KeyOf, history[..n + 1], k) == OfKey(KeyOf, before, k) + (if v.input.key == k then [v] else []);
      assert forall k :: Appears(history[..n + 1], k) <==> Appears(before, k) || v.input.key == k;
      m := m[v.input.key := (if v.input.key in m then m[v.input.key] else []) + [v]];
    }
    assert history[..|history|] == history;
  }

  // Different strings, sorted, are strictly increasing.
  lemma StrictlySorted(from: seq<string>, to: seq<string>, perm: seq<nat>)
    requires Rearranges(from, to, perm) && Sorted(LexLess, to)
    requires Distinct(from)
    ensures forall i: nat, j: nat :: i < j < |to| ==> LexLess(to[i], to[j])
    ensures forall x :: x in to <==> x in from
  {
    forall i: nat, j: nat | i < j < |to|
      ensures LexLess(to[i], to[j])
    {
      LexTotal(to[i], to[j]);
    }
    forall x | x in from
      ensures x in to
    {
      var i :| 0 <= i < |from| && from[i] == x;
      assert to[WhereIs(|from|, perm, i)] == x;
    }
  }

  // NoAnswer: with nothing to check, the collecting loop waits for a result that never comes.
  datatype Verdict = Ok | Illegal | NoAnswer

  lemma PartitionDecides(history: seq<KvOperation>, parts: seq<seq<KvOperation>>)
    requires Timely(history) && IsPartition(history, parts)
    ensures Linearizable(KvStore(), HistoryOf(history)) <==>
            forall i: nat :: i < |parts| ==> Timely(parts[i]) && Linearizable(MODEL, HistoryOf(parts[i]))
    ensures forall i: nat :: i < |parts| ==> Timely(parts[i])
    ensures parts == [] <==> history == []
  {
    PartsDecide(MODEL, KeyOf, history);
    forall i: nat | i < |parts|
      ensures Timely(parts[i])
      ensures PartLinearizable(MODEL, KeyOf, history, PartKey(parts[i])) <==> Linearizable(MODEL, HistoryOf(parts[i]))
    {
      KeyPicks(KeyOf, history, PartKey(parts[i]));
      PartTimely(KeyOf, history, PartKey(parts[i]), parts[i], Indices(KeyOf, history, PartKey(parts[i])));
    }
    forall k
      ensures PartLinearizable(MODEL, KeyOf, history, k) || exists i: nat :: i < |parts| && PartKey(parts[i]) == k
    {
      if !Appears(history, k) {
        assert IsLinearization(MODEL, HistoryOf(OfKey(KeyOf, history, k)), []);
      }
    }
    assert parts != [] ==> Appears(history, PartKey(parts[0]));
    if history != [] {
      assert Appears(history, history[|history| - 1].input.key);
    }
  }

  // Whether the operations on one key are linearizable.
  method CheckPart(part: seq<KvOperation>) returns (ok: bool)
    requires Timely(part)
    ensures ok <==> Linearizable(MODEL, HistoryOf(part))
    ensures ok <==> exists order :: Orders(HistoryOf(part), order) && AllAnswer(HistoryOf(part), order, 0)
  {
    PartLinearizableExactly(HistoryOf(part));
    var entries;
    ghost var h;
    entries, h := MakeEntries(part);
    var order;
    ok, order := CheckSingle.CheckSingle(MODEL, entries, h);
    SamePrecedence(MODEL, HistoryOf(part), h);
  }

  lemma MeaningOfVerdict(history: seq<KvOperation>)
    requires Timely(history)
    ensures Linearizable(KvStore(), HistoryOf(history)) <==> exists order :: Explains(HistoryOf(history), order)
    ensures (exists x: nat :: Inexplicable(HistoryOf(history), x)) ==>
              history != [] && !Linearizable(KvStore(), HistoryOf(history))
  {
    LinearizableExactly(HistoryOf(history));
    if x: nat :| Inexplicable(HistoryOf(history), x) {
      NothingExplains(HistoryOf(history), x);
    }
  }

  /**
    The parts are checked in parallel, so their results come in any order; the first failure
    settles the answer.  The answer is right for the store as a whole.
   */
  method CheckOperations(history: seq<KvOperation>) returns (verdict: Verdict)
    requires Timely(history)
    ensures verdict == if history == [] then NoAnswer
                       else if Linearizable(KvStore(), HistoryOf(history)) then Ok else Illegal
    ensures verdict == Ok <==> history != [] && exists order :: Explains(HistoryOf(history), order)
    ensures (exists x: nat :: Inexplicable(HistoryOf(history), x)) ==> verdict == Illegal
  {
    MeaningOfVerdict(history);
    var parts := Partition(history);
    PartitionDecides(history, parts);
    if |parts| == 0 {
      return NoAnswer;
    }
    var pending := set part | part in parts;
    while pending != {}
      invariant forall part :: part in pending ==> part in parts
      invariant forall i: nat :: i < |parts| && parts[i] !in pending ==> Linearizable(MODEL, HistoryOf(parts[i]))
    {
      var part :| part in pending;
      var ok := CheckPart(part);
      if !ok {
        return Illegal;
      }
      pending := pending - {part};
    }
    return Ok;
  }
}
