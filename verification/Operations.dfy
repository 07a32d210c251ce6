/**
  From the operations clients record to the entries the checker reads.
 */
module Operations {
  import opened Linearizability
  import opened LiveEntries
  import Sorting

  datatype Operation<I, O> = Operation(clientId: int, input: I, call: int, output: O, ret: int)

  // Nothing returns before it is called.
  ghost predicate Timely<I, O>(ops: seq<Operation<I, O>>) {
    forall x: nat :: x < |ops| ==> ops[x].call <= ops[x].ret
  }

  ghost function HistoryOf<I, O>(ops: seq<Operation<I, O>>): (h: History<I, O>) {
    History(seq(|ops|, x requires 0 <= x < |ops| => ops[x].input),
            seq(|ops|, x requires 0 <= x < |ops| => ops[x].output),
            seq(|ops|, x requires 0 <= x < |ops| => ops[x].call), seq(|ops|, x requires 0 <= x < |ops| => ops[x].ret))
  }

  // By time, calls before returns at the same time.
  predicate Less<I, O>(a: Entry<I, O>, b: Entry<I, O>) {
    if a.time != b.time then a.time < b.time else a.CallEntry? && b.ReturnEntry?
  }

  ghost predicate SameOrder<I, O>(h: History<I, O>, g: History<I, O>) {
    && Regular(h) && Regular(g) && g.inputs == h.inputs && g.outputs == h.outputs
    && forall a: nat, b: nat :: a < |h.calls| && b < |h.calls| ==> (Precedes(h, a, b) <==> Precedes(g, a, b))
  }

  // Operation x's call and return stand next to each other.
  ghost predicate IsPair<I, O>(ops: seq<Operation<I, O>>, entries: seq<Entry<I, O>>, x: nat)
    requires x < |ops| && 2 * x + 1 < |entries|
  {
    && entries[2 * x] == CallEntry(x, ops[x].input, ops[x].call, ops[x].clientId)
    && entries[2 * x + 1] == ReturnEntry(x, ops[x].output, ops[x].ret, ops[x].clientId)
  }

  ghost predicate ArePairs<I, O>(ops: seq<Operation<I, O>>, entries: seq<Entry<I, O>>, n: nat) {
    n <= |ops| && |entries| == 2 * n && forall x: nat :: x < n ==> IsPair(ops, entries, x)
  }

  /**
    The entries, in order of time, lay out a history in which operations do what they do in `ops`
    and precede one another exactly when they do there, whatever the sort makes of ties.
   */
  method MakeEntries<I(!new), O(!new)>(ops: seq<Operation<I, O>>)
    returns (entries: seq<Entry<I, O>>, ghost h: History<I, O>)
    requires Timely(ops)
    ensures Sorting.Sorted(Less, entries) && |entries| == 2 * |ops|
    ensures forall x: nat :: x < |ops| ==>
      && CallEntry(x, ops[x].input, ops[x].call, ops[x].clientId) in entries
      && ReturnEntry(x, ops[x].output, ops[x].ret, ops[x].clientId) in entries
    ensures Laid(entries, h) && SameOrder(HistoryOf(ops), h)
  {
    entries := [];
    for id := 0 to |ops|
      invariant ArePairs(ops, entries, id)
    {
      var elem, before := ops[id], entries;
      entries := entries + [CallEntry(id, elem.input, elem.call, elem.clientId)];
      entries := entries + [ReturnEntry(id, elem.output, elem.ret, elem.clientId)];
      forall x: nat | x < id
        ensures IsPair(ops, entries, x)
      {
        assert IsPair(ops, before, x);
      }
    }
    ghost var pairs := entries;
    ghost var perm;
    entries, perm := Sorting.Sort(Less, entries);
    h := Positions(ops, perm);
    forall x: nat | x < |ops|
      ensures entries[h.calls[x]] == CallEntry(x, ops[x].input, ops[x].call, ops[x].clientId)
      ensures entries[h.rets[x]] == ReturnEntry(x, ops[x].output, ops[x].ret, ops[x].clientId)
    {
      EntriesOf(ops, pairs, entries, perm, h, x);
    }
    Laying(ops, pairs, entries, perm, h);
  }

  // h says where the sort has put each operation's call and return.
  ghost predicate Follows<I, O>(ops: seq<Operation<I, O>>, perm: seq<nat>, h: History<I, O>) {
    && h.inputs == HistoryOf(ops).inputs && h.outputs == HistoryOf(ops).outputs && |h.calls| == |h.rets| == |ops|
    && forall x: nat :: x < |ops| ==>
         0 <= h.calls[x] < |perm| && 0 <= h.rets[x] < |perm| && perm[h.calls[x]] == 2 * x &&
         perm[h.rets[x]] == 2 * x + 1
  }

  // The entries, sorted, of the operations.
  ghost predicate Arranged<I, O>(ops: seq<Operation<I, O>>, pairs: seq<Entry<I, O>>, entries: seq<Entry<I, O>>,
                                 perm: seq<nat>) {
    && Timely(ops) && ArePairs(ops, pairs, |ops|)
    && Sorting.Rearranges(pairs, entries, perm) && Sorting.Sorted(Less, entries)
  }

  lemma Positions<I, O>(ops: seq<Operation<I, O>>, perm: seq<nat>) returns (h: History<I, O>)
    requires Sorting.IsPermutation(2 * |ops|, perm)
    ensures Follows(ops, perm, h)
  {
    var g, n := HistoryOf(ops), 2 * |ops|;
    var calls: seq<int> := seq(|ops|, x requires 0 <= x < |ops| => Sorting.WhereIs(n, perm, 2 * x));
    var rets: seq<int> := seq(|ops|, x requires 0 <= x < |ops| => Sorting.WhereIs(n, perm, 2 * x + 1));
    h := History(g.inputs, g.outputs, calls, rets);
  }

  // What stands where the sort has put operation x.
  lemma EntriesOf<I, O>(ops: seq<Operation<I, O>>, pairs: seq<Entry<I, O>>, entries: seq<Entry<I, O>>, perm: seq<nat>,
                        h: History<I, O>, x: nat)
    requires Arranged(ops, pairs, entries, perm) && Follows(ops, perm, h) && x < |ops|
    ensures 0 <= h.calls[x] < h.rets[x] < |entries|
    ensures entries[h.calls[x]] == CallEntry(x, ops[x].input, ops[x].call, ops[x].clientId)
    ensures entries[h.rets[x]] == ReturnEntry(x, ops[x].output, ops[x].ret, ops[x].clientId)
  {
    assert IsPair(ops, pairs, x);
    assert Less(entries[h.calls[x]], entries[h.rets[x]]);
  }

  lemma OperationAt<I, O>(ops: seq<Operation<I, O>>, pairs: seq<Entry<I, O>>, entries: seq<Entry<I, O>>,
                          perm: seq<nat>, h: History<I, O>, p: nat)
    requires Arranged(ops, pairs, entries, perm) && Follows(ops, perm, h) && p < |entries|
    ensures entries[p].id < |ops|
    ensures p == if entries[p].CallEntry? then h.calls[entries[p].id] else h.rets[entries[p].id]
  {
    var x := perm[p] / 2;
    assert IsPair(ops, pairs, x);
  }

  lemma PrecedenceKept<I, O>(ops: seq<Operation<I, O>>, pairs: seq<Entry<I, O>>, entries: seq<Entry<I, O>>,
                             perm: seq<nat>, h: History<I, O>, a: nat, b: nat)
    requires Arranged(ops, pairs, entries, perm) && Follows(ops, perm, h) && a < |ops| && b < |ops|
    ensures ops[a].ret < ops[b].call <==> h.rets[a] < h.calls[b]
  {
    EntriesOf(ops, pairs, entries, perm, h, a);
    EntriesOf(ops, pairs, entries, perm, h, b);
  }

  lemma Laying<I, O>(ops: seq<Operation<I, O>>, pairs: seq<Entry<I, O>>, entries: seq<Entry<I, O>>, perm: seq<nat>,
                     h: History<I, O>)
    requires Arranged(ops, pairs, entries, perm) && Follows(ops, perm, h)
    ensures Laid(entries, h) && SameOrder(HistoryOf(ops), h)
  {
    forall x: nat | x < |ops|
      ensures h.calls[x] < h.rets[x]
    {
      EntriesOf(ops, pairs, entries, perm, h, x);
    }
    forall x: nat | x < |ops|
      ensures LaidAt(entries, h, x)
    {
      EntriesOf(ops, pairs, entries, perm, h, x);
    }
    forall p: nat | p < |entries|
      ensures entries[p].id < |h.calls|
      ensures p == if entries[p].CallEntry? then h.calls[entries[p].id] else h.rets[entries[p].id]
    {
      OperationAt(ops, pairs, entries, perm, h, p);
    }
    forall a: nat, b: nat | a < |ops| && b < |ops|
      ensures Precedes(HistoryOf(ops), a, b) <==> Precedes(h, a, b)
    {
      PrecedenceKept(ops, pairs, entries, perm, h, a, b);
    }
  }
}
