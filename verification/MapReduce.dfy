/**
  Map output bucketed by a hash of the key, then sorted and grouped bucket by bucket, gives the same
  lines as sorting and grouping it all in one place.
 */
module MapReduce {
  import opened Sequences
  import opened Sorting

  datatype KeyValue = KeyValue(key: string, value: string)

  datatype Line = Line(key: string, output: string)

  type Reducer = (string, seq<string>) -> string

  // The order of the values does not matter.
  ghost predicate OrderInsensitive(reducef: Reducer) {
    forall k, vs, ws :: multiset(vs) == multiset(ws) ==> reducef(k, vs) == reducef(k, ws)
  }

  predicate ByKey(a: KeyValue, b: KeyValue) {
    LexLess(a.key, b.key)
  }

  function ValuesOf(kvs: seq<KeyValue>, k: string): seq<string> {
    if kvs == [] then []
    else
      var last := kvs[|kvs| - 1];
      ValuesOf(kvs[..|kvs| - 1], k) + (if last.key == k then [last.value] else [])
  }

  ghost predicate HasKey(kvs: seq<KeyValue>, k: string) {
    exists i: nat :: i < |kvs| && kvs[i].key == k
  }

  // One line for each key, with what the values of the key reduce to.
  ghost predicate AreLines(reducef: Reducer, kvs: seq<KeyValue>, lines: seq<Line>) {
    && (forall a: nat, b: nat :: a < b < |lines| ==> lines[a].key != lines[b].key)
    && (forall a: nat :: a < |lines| ==>
          HasKey(kvs, lines[a].key) && lines[a].output == reducef(lines[a].key, ValuesOf(kvs, lines[a].key)))
    && forall i: nat :: i < |kvs| ==> HasLine(lines, kvs[i].key)
  }

  ghost predicate HasLine(lines: seq<Line>, k: string) {
    exists a: nat :: a < |lines| && lines[a].key == k
  }

  // ---------- Grouping ----------

  lemma {:induction false} ValuesAppend(a: seq<KeyValue>, b: seq<KeyValue>, k: string)
    ensures ValuesOf(a + b, k) == ValuesOf(a, k) + ValuesOf(b, k)
    decreases |b|
  {
    if b == [] {
      assert a + b == a;
    } else {
      var n := |b| - 1;
      assert (a + b)[..|a| + n] == a + b[..n];
      ValuesAppend(a, b[..n], k);
    }
  }

  lemma {:induction false} ValuesOfOthers(kvs: seq<KeyValue>, k: string)
    requires !HasKey(kvs, k)
    ensures ValuesOf(kvs, k) == []
  {
    if kvs != [] {
      var n := |kvs| - 1;
      assert kvs[n].key != k;
      assert forall i: nat :: i < n ==> kvs[..n][i] == kvs[i];
      ValuesOfOthers(kvs[..n], k);
    }
  }

  // What a line says stays right when a run of another key follows.
  lemma {:induction false} LineStays(before: seq<KeyValue>, group: seq<KeyValue>, k: string, key: string)
    requires HasKey(before, key) && key != k && forall i: nat :: i < |group| ==> group[i].key == k
    ensures HasKey(before + group, key) && ValuesOf(before + group, key) == ValuesOf(before, key)
  {
    var i: nat :| i < |before| && before[i].key == key;
    assert (before + group)[i].key == key;
    ValuesAppend(before, group, key);
    ValuesOfOthers(group, key);
    assert ValuesOf(before, key) + [] == ValuesOf(before, key);
  }

  lemma {:induction false} LineComes(before: seq<KeyValue>, group: seq<KeyValue>, k: string)
    requires !HasKey(before, k) && group != [] && forall i: nat :: i < |group| ==> group[i].key == k
    ensures HasKey(before + group, k) && ValuesOf(before + group, k) == ValuesOf(group, k)
  {
    assert (before + group)[|before|].key == k;
    ValuesAppend(before, group, k);
    ValuesOfOthers(before, k);
    assert [] + ValuesOf(group, k) == ValuesOf(group, k);
  }

  // A run of one key that does not occur before it adds one line.
  lemma {:induction false} AddGroup(reducef: Reducer, before: seq<KeyValue>, group: seq<KeyValue>, lines: seq<Line>,
                                    k: string)
    requires AreLines(reducef, before, lines) && !HasKey(before, k) && group != []
    requires forall i: nat :: i < |group| ==> group[i].key == k
    ensures AreLines(reducef, before + group, lines + [Line(k, reducef(k, ValuesOf(group, k)))])
  {
    var all, lines' := before + group, lines + [Line(k, reducef(k, ValuesOf(group, k)))];
    LineComes(before, group, k);
    forall a: nat | a < |lines|
      ensures HasKey(all, lines[a].key) && ValuesOf(all, lines[a].key) == ValuesOf(before, lines[a].key)
    {
      LineStays(before, group, k, lines[a].key);
    }
    forall i: nat | i < |all|
      ensures HasLine(lines', all[i].key)
    {
      if i < |before| {
        assert HasLine(lines, before[i].key);
        var a: nat :| a < |lines| && lines[a].key == before[i].key;
        assert lines'[a].key == all[i].key;
      } else {
        assert lines'[|lines|].key == all[i].key;
      }
    }
  }

  // In sorted order a key's values stand together.
  lemma NewKey(kvs: seq<KeyValue>, i: nat)
    requires Sorted(ByKey, kvs) && 0 < i < |kvs| && kvs[i - 1].key != kvs[i].key
    ensures !HasKey(kvs[..i], kvs[i].key)
  {
    LexTotal(kvs[i - 1].key, kvs[i].key);
    forall p: nat | p < i
      ensures kvs[p].key != kvs[i].key
    {
      assert p < i - 1 ==> !ByKey(kvs[i - 1], kvs[p]);
    }
  }

  lemma {:induction false} AddRun(reducef: Reducer, kvs: seq<KeyValue>, i: nat, j: nat, lines: seq<Line>)
    requires Sorted(ByKey, kvs) && i < j <= |kvs| && AreLines(reducef, kvs[..i], lines)
    requires 0 < i ==> kvs[i - 1].key != kvs[i].key
    requires forall k: nat :: i <= k < j ==> kvs[k].key == kvs[i].key
    ensures AreLines(reducef, kvs[..j],
                     lines + [Line(kvs[i].key, reducef(kvs[i].key, ValuesOf(kvs[i..j], kvs[i].key)))])
  {
    if i > 0 {
      NewKey(kvs, i);
    }
    assert kvs[..i] + kvs[i..j] == kvs[..j];
    AddGroup(reducef, kvs[..i], kvs[i..j], lines, kvs[i].key);
  }

  // The loop over the sorted pairs.
  method Group(reducef: Reducer, kvs: seq<KeyValue>) returns (lines: seq<Line>)
    requires Sorted(ByKey, kvs)
    ensures AreLines(reducef, kvs, lines)
  {
    lines := [];
    var i := 0;
    while i < |kvs|
      invariant i <= |kvs| && AreLines(reducef, kvs[..i], lines)
      invariant 0 < i < |kvs| ==> kvs[i - 1].key != kvs[i].key
    {
      var j := i + 1;
      while j < |kvs| && kvs[j].key == kvs[i].key
        invariant i < j <= |kvs| && forall k: nat :: i <= k < j ==> kvs[k].key == kvs[i].key
      {
        j := j + 1;
      }
      var values := Values(kvs, i, j);
      var output := reducef(kvs[i].key, values);
      AddRun(reducef, kvs, i, j, lines);
      lines := lines + [Line(kvs[i].key, output)];
      i := j;
    }
    assert kvs[..|kvs|] == kvs;
  }

  method Values(kvs: seq<KeyValue>, i: nat, j: nat) returns (values: seq<string>)
    requires i < j <= |kvs| && forall k: nat :: i <= k < j ==> kvs[k].key == kvs[i].key
    ensures values == ValuesOf(kvs[i..j], kvs[i].key)
  {
    values := [];
    for k := i to j
      invariant values == ValuesOf(kvs[i..k], kvs[i].key)
    {
      assert kvs[i..k + 1][..k - i] == kvs[i..k];
      values := values + [kvs[k].value];
    }
  }

  // ---------- Sorting ----------

  lemma {:induction false} ValuesCount(kvs: seq<KeyValue>, k: string, v: string)
    ensures multiset(ValuesOf(kvs, k))[v] == multiset(kvs)[KeyValue(k, v)]
  {
    if kvs != [] {
      var n := |kvs| - 1;
      ValuesCount(kvs[..n], k, v);
      assert kvs == kvs[..n] + [kvs[n]];
      OneMore(kvs[..n], kvs[n], KeyValue(k, v));
      OneMore(ValuesOf(kvs[..n], k), kvs[n].value, v);
    }
  }

  lemma OneMore<T>(s: seq<T>, x: T, y: T)
    ensures multiset(s + [x])[y] == multiset(s)[y] + if x == y then 1 else 0
  {
  }

  lemma SameValues(a: seq<KeyValue>, b: seq<KeyValue>, k: string)
    requires multiset(a) == multiset(b)
    ensures multiset(ValuesOf(a, k)) == multiset(ValuesOf(b, k))
  {
    forall v
      ensures multiset(ValuesOf(a, k))[v] == multiset(ValuesOf(b, k))[v]
    {
      ValuesCount(a, k, v);
      ValuesCount(b, k, v);
    }
  }

  lemma SameKeys(a: seq<KeyValue>, b: seq<KeyValue>, k: string)
    requires multiset(a) == multiset(b) && HasKey(a, k)
    ensures HasKey(b, k)
  {
    var i: nat :| i < |a| && a[i].key == k;
    assert a[i] in multiset(b);
    assert a[i] in b;
  }

  // Sorting first changes nothing about the lines.
  lemma SortedLines(reducef: Reducer, kvs: seq<KeyValue>, sorted: seq<KeyValue>, lines: seq<Line>)
    requires OrderInsensitive(reducef) && multiset(kvs) == multiset(sorted) && AreLines(reducef, sorted, lines)
    ensures AreLines(reducef, kvs, lines)
  {
    forall a: nat | a < |lines|
      ensures HasKey(kvs, lines[a].key) && lines[a].output == reducef(lines[a].key, ValuesOf(kvs, lines[a].key))
    {
      SameKeys(sorted, kvs, lines[a].key);
      SameValues(sorted, kvs, lines[a].key);
    }
    forall i: nat | i < |kvs|
      ensures HasLine(lines, kvs[i].key)
    {
      SameKeys(kvs, sorted, kvs[i].key);
      var j: nat :| j < |sorted| && sorted[j].key == kvs[i].key;
    }
  }

  lemma ByKeyOrders()
    ensures Orders(ByKey)
  {
    LexOrders();
  }

  // Sort, group and reduce.
  method Reduce(reducef: Reducer, kvs: seq<KeyValue>) returns (lines: seq<Line>)
    requires OrderInsensitive(reducef)
    ensures AreLines(reducef, kvs, lines)
  {
    ByKeyOrders();
    var sorted;
    ghost var perm;
    sorted, perm := Sort(ByKey, kvs);
    lines := Group(reducef, sorted);
    SortedLines(reducef, kvs, sorted, lines);
  }

  // ---------- Buckets ----------

  type Hash = string -> nat

  function InBucket(kvs: seq<KeyValue>, hash: Hash, nReduce: nat, b: nat): seq<KeyValue>
    requires nReduce > 0
  {
    if kvs == [] then []
    else
      var last := kvs[|kvs| - 1];
      InBucket(kvs[..|kvs| - 1], hash, nReduce, b) + (if hash(last.key) % nReduce == b then [last] else [])
  }

  // A map task writes each pair to the bucket of its key.
  method Bucketize(kvs: seq<KeyValue>, hash: Hash, nReduce: nat) returns (buckets: seq<seq<KeyValue>>)
    requires nReduce > 0
    ensures |buckets| == nReduce && forall b: nat :: b < nReduce ==> buckets[b] == InBucket(kvs, hash, nReduce, b)
  {
    buckets := [];
    for i := 0 to nReduce
      invariant |buckets| == i && forall b: nat :: b < i ==> buckets[b] == []
    {
      buckets := buckets + [[]];
    }
    assert kvs[..0] == [];
    for i := 0 to |kvs|
      invariant |buckets| == nReduce && forall b: nat :: b < nReduce ==>
                buckets[b] == InBucket(kvs[..i], hash, nReduce, b)
    {
      assert kvs[..i + 1][..i] == kvs[..i];
      var b := hash(kvs[i].key) % nReduce;
      buckets := buckets[b := buckets[b] + [kvs[i]]];
    }
    assert kvs[..|kvs|] == kvs;
  }

  function Concat<T>(parts: seq<seq<T>>): seq<T> {
    if parts == [] then [] else Concat(parts[..|parts| - 1]) + parts[|parts| - 1]
  }

  // A key's values are all in its bucket, in order.
  lemma {:induction false} BucketValues(kvs: seq<KeyValue>, hash: Hash, nReduce: nat, b: nat, k: string)
    requires nReduce > 0
    ensures ValuesOf(InBucket(kvs, hash, nReduce, b), k) == if hash(k) % nReduce == b then ValuesOf(kvs, k) else []
  {
    if kvs != [] {
      var n := |kvs| - 1;
      var before, last := InBucket(kvs[..n], hash, nReduce, b), kvs[n];
      BucketValues(kvs[..n], hash, nReduce, b, k);
      if hash(last.key) % nReduce == b {
        assert (before + [last])[..|before|] == before;
      } else {
        assert before + [] == before;
      }
    }
  }

  lemma {:induction false} KeyHasValues(kvs: seq<KeyValue>, k: string)
    ensures HasKey(kvs, k) <==> ValuesOf(kvs, k) != []
  {
    if kvs != [] {
      var n := |kvs| - 1;
      KeyHasValues(kvs[..n], k);
      if HasKey(kvs[..n], k) {
        var i: nat :| i < n && kvs[..n][i].key == k;
        assert kvs[i].key == k;
      }
      if HasKey(kvs, k) && kvs[n].key != k {
        var i: nat :| i < |kvs| && kvs[i].key == k;
        assert kvs[..n][i].key == k;
      }
    }
  }

  // The b-th bucket of every map task, one after the other.
  function Gather(outputs: seq<seq<seq<KeyValue>>>, b: nat): seq<KeyValue>
    requires forall i: nat :: i < |outputs| ==> b < |outputs[i]|
  {
    if outputs == [] then []
    else
      var n := |outputs| - 1;
      assert forall i: nat :: i < n ==> outputs[..n][i] == outputs[i];
      Gather(outputs[..n], b) + outputs[n][b]
  }

  ghost predicate AreBuckets(maps: seq<seq<KeyValue>>, hash: Hash, nReduce: nat, outputs: seq<seq<seq<KeyValue>>>)
    requires nReduce > 0
  {
    && |outputs| == |maps|
    && forall i: nat :: i < |maps| ==> BucketsOf(maps[i], hash, nReduce, outputs[i])
  }

  ghost predicate BucketsOf(kvs: seq<KeyValue>, hash: Hash, nReduce: nat, buckets: seq<seq<KeyValue>>)
    requires nReduce > 0
  {
    |buckets| == nReduce && forall b: nat :: b < nReduce ==> buckets[b] == InBucket(kvs, hash, nReduce, b)
  }

  lemma {:induction false} GatherValues(maps: seq<seq<KeyValue>>, hash: Hash, nReduce: nat,
                                        outputs: seq<seq<seq<KeyValue>>>, b: nat, k: string)
    requires nReduce > 0 && AreBuckets(maps, hash, nReduce, outputs) && b < nReduce
    ensures forall i: nat :: i < |outputs| ==> b < |outputs[i]|
    ensures ValuesOf(Gather(outputs, b), k) == if hash(k) % nReduce == b then ValuesOf(Concat(maps), k) else []
    decreases |maps|
  {
    forall i: nat | i < |outputs|
      ensures b < |outputs[i]|
    {
      assert BucketsOf(maps[i], hash, nReduce, outputs[i]);
    }
    if maps != [] {
      var n := |maps| - 1;
      assert forall i: nat :: i < n ==> maps[..n][i] == maps[i] && outputs[..n][i] == outputs[i];
      GatherValues(maps[..n], hash, nReduce, outputs[..n], b, k);
      assert BucketsOf(maps[n], hash, nReduce, outputs[n]);
      BucketValues(maps[n], hash, nReduce, b, k);
      ValuesAppend(Gather(outputs[..n], b), outputs[n][b], k);
      ValuesAppend(Concat(maps[..n]), maps[n], k);
    }
  }

  // ---------- The same lines ----------

  lemma {:induction false} InConcat<T>(parts: seq<seq<T>>, x: T)
    ensures x in Concat(parts) <==> exists b: nat :: b < |parts| && x in parts[b]
  {
    if parts != [] {
      var n := |parts| - 1;
      InConcat(parts[..n], x);
      if b: nat :| b < |parts[..n]| && x in parts[..n][b] {
        assert x in parts[b];
      }
      if b: nat :| b < |parts| && x in parts[b] {
        assert b < n ==> x in parts[..n][b];
      }
    }
  }

  lemma {:induction false} CountOnce<T>(s: seq<T>, x: T)
    requires Distinct(s)
    ensures multiset(s)[x] == if x in s then 1 else 0
  {
    if s != [] {
      var n := |s| - 1;
      CountOnce(s[..n], x);
      assert s == s[..n] + [s[n]];
    }
  }

  lemma {:induction false} ConcatDistinct<T>(parts: seq<seq<T>>)
    requires forall b: nat :: b < |parts| ==> Distinct(parts[b])
    requires forall a: nat, b: nat, x :: a < b < |parts| && x in parts[a] ==> x !in parts[b]
    ensures Distinct(Concat(parts))
  {
    if parts != [] {
      var n := |parts| - 1;
      assert forall b: nat :: b < n ==> parts[..n][b] == parts[b];
      ConcatDistinct(parts[..n]);
      forall x | x in Concat(parts[..n])
        ensures x !in parts[n]
      {
        InConcat(parts[..n], x);
        var b: nat :| b < n && x in parts[..n][b];
        assert x in parts[b];
      }
      AppendDistinct(Concat(parts[..n]), parts[n]);
    }
  }

  lemma {:induction false} AppendDistinct<T>(s: seq<T>, t: seq<T>)
    requires Distinct(s) && Distinct(t) && forall x :: x in s ==> x !in t
    ensures Distinct(s + t)
  {
    forall i: nat, j: nat | i < j < |s + t|
      ensures (s + t)[i] != (s + t)[j]
    {
      if i < |s| <= j {
        assert s[i] in s && t[j - |s|] in t;
      }
    }
  }

  // A line of the whole is a line of its key's bucket, and the other way round.
  lemma {:induction false} LineIn(reducef: Reducer, kvs: seq<KeyValue>, lines: seq<Line>, line: Line)
    requires AreLines(reducef, kvs, lines)
    ensures line in lines <==>
            ValuesOf(kvs, line.key) != [] && line.output == reducef(line.key, ValuesOf(kvs, line.key))
  {
    KeyHasValues(kvs, line.key);
    if HasKey(kvs, line.key) {
      var i: nat :| i < |kvs| && kvs[i].key == line.key;
      assert HasLine(lines, kvs[i].key);
      var a: nat :| a < |lines| && lines[a].key == line.key;
      assert lines[a] in lines;
    }
  }

  // The output of each reduce task.
  ghost predicate AreOutputs(reducef: Reducer, outputs: seq<seq<seq<KeyValue>>>, nReduce: nat, files: seq<seq<Line>>)
    requires forall i: nat :: i < |outputs| ==> |outputs[i]| == nReduce
  {
    |files| == nReduce && forall b: nat :: b < nReduce ==> AreLines(reducef, Gather(outputs, b), files[b])
  }

  lemma {:induction false} FileHas(reducef: Reducer, maps: seq<seq<KeyValue>>, hash: Hash, nReduce: nat,
                                   outputs: seq<seq<seq<KeyValue>>>, files: seq<seq<Line>>, b: nat, line: Line)
    requires nReduce > 0 && AreBuckets(maps, hash, nReduce, outputs) && b < nReduce
    requires (forall i: nat :: i < |outputs| ==> |outputs[i]| == nReduce) &&
             AreOutputs(reducef, outputs, nReduce, files)
    ensures line in files[b] <==>
            hash(line.key) % nReduce == b && ValuesOf(Concat(maps), line.key) != [] &&
            line.output == reducef(line.key, ValuesOf(Concat(maps), line.key))
  {
    GatherValues(maps, hash, nReduce, outputs, b, line.key);
    LineIn(reducef, Gather(outputs, b), files[b], line);
  }

  lemma {:induction false} LinesDistinct(reducef: Reducer, kvs: seq<KeyValue>, lines: seq<Line>)
    requires AreLines(reducef, kvs, lines)
    ensures Distinct(lines)
  {
  }

  /**
    The files of all reduce tasks together hold exactly the lines of the sequential run, and each
    key once, for every hash, every number of reduce tasks and every map output.
   */
  lemma {:induction false} SameAsSequential(reducef: Reducer, maps: seq<seq<KeyValue>>, hash: Hash, nReduce: nat,
                                            outputs: seq<seq<seq<KeyValue>>>, files: seq<seq<Line>>, lines: seq<Line>)
    requires nReduce > 0 && AreBuckets(maps, hash, nReduce, outputs)
    requires (forall i: nat :: i < |outputs| ==> |outputs[i]| == nReduce) &&
             AreOutputs(reducef, outputs, nReduce, files)
    requires AreLines(reducef, Concat(maps), lines)
    ensures multiset(Concat(files)) == multiset(lines)
  {
    forall a: nat, b: nat, line | a < b < |files| && line in files[a]
      ensures line !in files[b]
    {
      FileHas(reducef, maps, hash, nReduce, outputs, files, a, line);
      FileHas(reducef, maps, hash, nReduce, outputs, files, b, line);
    }
    forall b: nat | b < |files|
      ensures Distinct(files[b])
    {
      LinesDistinct(reducef, Gather(outputs, b), files[b]);
    }
    ConcatDistinct(files);
    LinesDistinct(reducef, Concat(maps), lines);
    forall line
      ensures multiset(Concat(files))[line] == multiset(lines)[line]
    {
      CountOnce(Concat(files), line);
      CountOnce(lines, line);
      SameMembers(reducef, maps, hash, nReduce, outputs, files, lines, line);
    }
  }

  lemma {:induction false} SameMembers(reducef: Reducer, maps: seq<seq<KeyValue>>, hash: Hash, nReduce: nat,
                                       outputs: seq<seq<seq<KeyValue>>>, files: seq<seq<Line>>, lines: seq<Line>,
                                       line: Line)
    requires nReduce > 0 && AreBuckets(maps, hash, nReduce, outputs)
    requires (forall i: nat :: i < |outputs| ==> |outputs[i]| == nReduce) &&
             AreOutputs(reducef, outputs, nReduce, files)
    requires AreLines(reducef, Concat(maps), lines)
    ensures line in Concat(files) <==> line in lines
  {
    InConcat(files, line);
    LineIn(reducef, Concat(maps), lines, line);
    var home := hash(line.key) % nReduce;
    FileHas(reducef, maps, hash, nReduce, outputs, files, home, line);
    if b: nat :| b < |files| && line in files[b] {
      FileHas(reducef, maps, hash, nReduce, outputs, files, b, line);
    }
  }

  // Map tasks, then reduce tasks.
  method Distributed(reducef: Reducer, maps: seq<seq<KeyValue>>, hash: Hash, nReduce: nat)
    returns (files: seq<seq<Line>>)
    requires nReduce > 0 && OrderInsensitive(reducef)
    ensures |files| == nReduce
    ensures forall lines :: AreLines(reducef, Concat(maps), lines) ==> multiset(Concat(files)) == multiset(lines)
  {
    var outputs: seq<seq<seq<KeyValue>>> := [];
    for i := 0 to |maps|
      invariant AreBuckets(maps[..i], hash, nReduce, outputs)
      invariant forall k: nat :: k < |outputs| ==> |outputs[k]| == nReduce
    {
      var buckets := Bucketize(maps[i], hash, nReduce);
      outputs := outputs + [buckets];
    }
    assert maps[..|maps|] == maps;
    files := [];
    for b := 0 to nReduce
      invariant |files| == b && forall c: nat :: c < b ==> AreLines(reducef, Gather(outputs, c), files[c])
    {
      var lines := Reduce(reducef, Gather(outputs, b));
      files := files + [lines];
    }
    forall lines | AreLines(reducef, Concat(maps), lines)
      ensures multiset(Concat(files)) == multiset(lines)
    {
      SameAsSequential(reducef, maps, hash, nReduce, outputs, files, lines);
    }
  }

  // All map output in one place.
  method Sequential(reducef: Reducer, maps: seq<seq<KeyValue>>) returns (lines: seq<Line>)
    requires OrderInsensitive(reducef)
    ensures AreLines(reducef, Concat(maps), lines)
  {
    var intermediate: seq<KeyValue> := [];
    assert maps[..0] == [];
    for i := 0 to |maps|
      invariant intermediate == Concat(maps[..i])
    {
      assert maps[..i + 1][..i] == maps[..i];
      intermediate := intermediate + maps[i];
    }
    assert maps[..|maps|] == maps;
    lines := Reduce(reducef, intermediate);
  }
}
