/**
  Which entries of a history are still in the list while some operations are taken out, and what
  the place of the cursor in it says about the search.
 */
module LiveEntries {
  import opened Sequences
  import opened Linearizability
  import opened Search
  import opened EntryList

  // A history as the checker reads it: the calls and returns in order of time.
  datatype Entry<I, O> =
    | CallEntry(id: nat, input: I, time: int, clientId: int)
    | ReturnEntry(id: nat, output: O, time: int, clientId: int)

  // h says what each operation does and at which positions of `entries` it starts and ends.
  ghost predicate Laid<I, O>(entries: seq<Entry<I, O>>, h: History<I, O>) {
    && Regular(h) && |entries| == 2 * |h.calls|
    && (forall x: nat :: x < |h.calls| ==> LaidAt(entries, h, x))
    && forall p: nat :: p < |entries| ==>
         entries[p].id < |h.calls| &&
         p == if entries[p].CallEntry? then h.calls[entries[p].id] else h.rets[entries[p].id]
  }

  ghost predicate LaidAt<I, O>(entries: seq<Entry<I, O>>, h: History<I, O>, x: nat)
    requires Regular(h) && x < |h.calls|
  {
    && 0 <= h.calls[x] < h.rets[x] < |entries|
    && entries[h.calls[x]].CallEntry? && entries[h.calls[x]].id == x && entries[h.calls[x]].input == h.inputs[x]
    && entries[h.rets[x]].ReturnEntry? && entries[h.rets[x]].id == x && entries[h.rets[x]].output == h.outputs[x]
  }

  // One node per entry, a call pointing to its return.
  ghost predicate AreNodes<I, O>(entries: seq<Entry<I, O>>, h: History<I, O>, nodes: seq<Node<I, O>>)
    requires Laid(entries, h)
  {
    |nodes| == |entries| && forall p: nat :: p < |nodes| ==> IsNode(entries, h, nodes, p)
  }

  ghost predicate IsNode<I, O>(entries: seq<Entry<I, O>>, h: History<I, O>, nodes: seq<Node<I, O>>, p: nat)
    requires Laid(entries, h) && |nodes| == |entries| && p < |nodes|
  {
    && nodes[p].pos == p
    && match entries[p]
       case CallEntry(id, input, _, _) =>
         nodes[p].content == Call(id, input) && LaidAt(entries, h, id) && nodes[p].matching == nodes[h.rets[id]]
       case ReturnEntry(id, output, _, _) => nodes[p].content == Return(id, output) && nodes[p].matching == null
  }

  // ---------- The entries in the list ----------

  ghost predicate IsHead<I, O>(head: Node<I, O>) {
    head.content.Head? && head.pos == -1 && head.matching == null
  }

  ghost predicate IsEntry<I, O>(nodes: seq<Node<I, O>>, done: set<nat>, x: Node<I, O>) {
    && 0 <= x.pos < |nodes| && nodes[x.pos] == x
    && !x.content.Head? && x.content.id !in done
  }

  // `list` is the head and then, in order, the entries of the operations that are not done.
  ghost predicate Live<I, O>(head: Node<I, O>, nodes: seq<Node<I, O>>, list: seq<Node<I, O>>, done: set<nat>) {
    && |list| >= 1 && list[0] == head && IsHead(head)
    && (forall i: nat :: 0 < i < |list| ==> IsEntry(nodes, done, list[i]))
    && (forall i: nat, j: nat :: i < j < |list| ==> list[i].pos < list[j].pos)
    && (forall p: nat :: p < |nodes| && IsEntry(nodes, done, nodes[p]) ==> nodes[p] in list)
  }

  lemma AllLive<I, O>(entries: seq<Entry<I, O>>, h: History<I, O>, head: Node<I, O>, nodes: seq<Node<I, O>>)
    requires Laid(entries, h) && AreNodes(entries, h, nodes) && IsHead(head)
    ensures Live(head, nodes, [head] + nodes, {})
  {
    var list := [head] + nodes;
    forall i: nat | 0 < i < |list|
      ensures list[i] == nodes[i - 1] && IsEntry(nodes, {}, list[i]) && list[i].pos == i - 1
    {
      assert IsNode(entries, h, nodes, i - 1);
    }
  }

  // Where the call and the return of an operation that is not done stand.
  lemma Places<I, O>(entries: seq<Entry<I, O>>, h: History<I, O>, head: Node<I, O>, nodes: seq<Node<I, O>>,
                     list: seq<Node<I, O>>, done: set<nat>, x: nat) returns (k: nat, j: nat)
    requires Laid(entries, h) && AreNodes(entries, h, nodes) && Live(head, nodes, list, done)
    requires x < |h.calls| && x !in done
    ensures LaidAt(entries, h, x) && 0 < k < j < |list|
    ensures list[k] == nodes[h.calls[x]] && list[j] == nodes[h.rets[x]]
    ensures list[k].matching == list[j] && list[k].pos == h.calls[x] && list[j].pos == h.rets[x]
  {
    assert LaidAt(entries, h, x);
    assert IsNode(entries, h, nodes, h.calls[x]) && IsNode(entries, h, nodes, h.rets[x]);
    assert IsEntry(nodes, done, nodes[h.calls[x]]) && IsEntry(nodes, done, nodes[h.rets[x]]);
    k :| 0 <= k < |list| && list[k] == nodes[h.calls[x]];
    j :| 0 <= j < |list| && list[j] == nodes[h.rets[x]];
  }

  // What stands at place i of the list.
  lemma AtPlace<I, O>(entries: seq<Entry<I, O>>, h: History<I, O>, head: Node<I, O>, nodes: seq<Node<I, O>>,
                      list: seq<Node<I, O>>, done: set<nat>, i: nat)
    requires Laid(entries, h) && AreNodes(entries, h, nodes) && Live(head, nodes, list, done)
    requires 0 < i < |list|
    ensures !list[i].content.Head?
    ensures var x := list[i].content.id;
            && x < |h.calls| && x !in done
            && (list[i].matching != null <==> list[i].content.Call?)
            && (list[i].content.Call? ==> list[i].pos == h.calls[x] && list[i].content.input == h.inputs[x])
            && (list[i].content.Return? ==> list[i].pos == h.rets[x])
            && (list[i].content.Call? ==> list[i].matching.content == Return(x, h.outputs[x]))
  {
    var p := list[i].pos;
    assert IsEntry(nodes, done, list[i]);
    assert IsNode(entries, h, nodes, p);
    var x := list[i].content.id;
    assert LaidAt(entries, h, x);
    assert IsNode(entries, h, nodes, h.rets[x]);
  }

  // The place in the list of what comes i-th once k and j are out.
  ghost function Back(i: nat, k: nat, j: nat): nat {
    if i < k then i else if i + 1 < j then i + 1 else i + 2
  }

  // The place b once k and j are out.
  ghost function Forth(b: nat, k: nat, j: nat): nat
    requires k < j && b != k && b != j
  {
    if b < k then b else if b < j then b - 1 else b - 2
  }

  ghost predicate ShiftsBack<I, O>(l: Level<I, O>) {
    |l.after| == |l.list| - 2 &&
    forall i: nat :: i < |l.after| ==> Back(i, l.k, l.j) < |l.list| && l.after[i] == l.list[Back(i, l.k, l.j)]
  }

  ghost predicate ShiftsForth<I, O>(l: Level<I, O>)
    requires l.k < l.j
  {
    forall b: nat :: b < |l.list| && b != l.k && b != l.j ==>
      Forth(b, l.k, l.j) < |l.after| && l.after[Forth(b, l.k, l.j)] == l.list[b]
  }

  lemma MakeLevel<I, O>(list: seq<Node<I, O>>, k: nat, j: nat) returns (l: Level<I, O>)
    requires Distinct(list) && 0 < k < j < |list| && list[k].matching == list[j]
    ensures IsLevel(l) && l.list == list && l.k == k && l.j == j
    ensures ShiftsBack(l) && ShiftsForth(l)
  {
    var between := Omit(list, k);
    var after := Omit(between, j - 1);
    l := Level(list, k, j, between, after);
    assert between[j - 1] == list[j];
  }

  lemma Omit<T>(s: seq<T>, k: nat) returns (w: seq<T>)
    requires k < |s|
    ensures Omits(s, k, w)
  {
    w := s[..k] + s[k + 1..];
  }

  // Taking an operation out leaves exactly the entries of the others.
  lemma TakeOut<I, O>(entries: seq<Entry<I, O>>, h: History<I, O>, head: Node<I, O>, nodes: seq<Node<I, O>>,
                      list: seq<Node<I, O>>, done: set<nat>, x: nat, l: Level<I, O>)
    requires Laid(entries, h) && AreNodes(entries, h, nodes) && Live(head, nodes, list, done)
    requires x < |h.calls| && x !in done && LaidAt(entries, h, x)
    requires IsLevel(l) && l.list == list && ShiftsBack(l) && ShiftsForth(l)
    requires list[l.k] == nodes[h.calls[x]] && list[l.j] == nodes[h.rets[x]]
    ensures Live(head, nodes, l.after, done + {x})
  {
    forall i: nat | 0 < i < |l.after|
      ensures IsEntry(nodes, done + {x}, l.after[i])
    {
      OthersRemain(entries, h, nodes, done, x, l, i);
    }
    StillInOrder(l);
    OthersFound(entries, h, nodes, done, x, l);
    assert l.after[0] == list[Back(0, l.k, l.j)];
  }

  lemma OthersRemain<I, O>(entries: seq<Entry<I, O>>, h: History<I, O>, nodes: seq<Node<I, O>>, done: set<nat>, x: nat,
                           l: Level<I, O>, i: nat)
    requires Laid(entries, h) && AreNodes(entries, h, nodes) && x < |h.calls| && LaidAt(entries, h, x)
    requires IsLevel(l) && ShiftsBack(l) && l.list[l.k] == nodes[h.calls[x]] && l.list[l.j] == nodes[h.rets[x]]
    requires forall i: nat :: 0 < i < |l.list| ==> IsEntry(nodes, done, l.list[i])
    requires 0 < i < |l.after|
    ensures IsEntry(nodes, done + {x}, l.after[i])
  {
    var y := l.list[Back(i, l.k, l.j)];
    assert y != l.list[l.k] && y != l.list[l.j];
    OtherEntry(entries, h, nodes, done, x, y);
  }

  lemma OthersFound<I, O>(entries: seq<Entry<I, O>>, h: History<I, O>, nodes: seq<Node<I, O>>, done: set<nat>, x: nat,
                          l: Level<I, O>)
    requires Laid(entries, h) && AreNodes(entries, h, nodes) && x < |h.calls| && LaidAt(entries, h, x)
    requires IsLevel(l) && ShiftsForth(l) && l.list[l.k] == nodes[h.calls[x]] && l.list[l.j] == nodes[h.rets[x]]
    requires forall p: nat :: p < |nodes| && IsEntry(nodes, done, nodes[p]) ==> nodes[p] in l.list
    ensures forall p: nat :: p < |nodes| && IsEntry(nodes, done + {x}, nodes[p]) ==> nodes[p] in l.after
  {
    forall p: nat | p < |nodes| && IsEntry(nodes, done + {x}, nodes[p])
      ensures nodes[p] in l.after
    {
      assert IsEntry(nodes, done, nodes[p]);
      StillThere(entries, h, nodes, x, l, nodes[p]);
    }
  }

  lemma StillInOrder<I, O>(l: Level<I, O>)
    requires 0 < l.k < l.j && ShiftsBack(l)
    requires forall i: nat, j: nat :: i < j < |l.list| ==> l.list[i].pos < l.list[j].pos
    ensures forall i: nat, j: nat :: i < j < |l.after| ==> l.after[i].pos < l.after[j].pos
  {
    forall i: nat, j: nat | i < j < |l.after|
      ensures l.after[i].pos < l.after[j].pos
    {
      assert Back(i, l.k, l.j) < Back(j, l.k, l.j);
    }
  }

  lemma StillThere<I, O>(entries: seq<Entry<I, O>>, h: History<I, O>, nodes: seq<Node<I, O>>, x: nat, l: Level<I, O>,
                         y: Node<I, O>)
    requires Laid(entries, h) && AreNodes(entries, h, nodes) && x < |h.calls| && LaidAt(entries, h, x)
    requires IsLevel(l) && ShiftsForth(l) && l.list[l.k] == nodes[h.calls[x]] && l.list[l.j] == nodes[h.rets[x]]
    requires y in l.list && !y.content.Head? && y.content.id != x
    ensures y in l.after
  {
    var b :| 0 <= b < |l.list| && l.list[b] == y;
    assert IsNode(entries, h, nodes, h.calls[x]) && IsNode(entries, h, nodes, h.rets[x]);
    assert l.after[Forth(b, l.k, l.j)] == y;
  }

  // An entry that is neither the call nor the return of x belongs to another operation.
  lemma OtherEntry<I, O>(entries: seq<Entry<I, O>>, h: History<I, O>, nodes: seq<Node<I, O>>, done: set<nat>, x: nat,
                         y: Node<I, O>)
    requires Laid(entries, h) && AreNodes(entries, h, nodes) && x < |h.calls| && LaidAt(entries, h, x)
    requires IsEntry(nodes, done, y) && y != nodes[h.calls[x]] && y != nodes[h.rets[x]]
    ensures y.content.id != x
  {
    assert IsNode(entries, h, nodes, y.pos);
  }

  // ---------- The cursor ----------

  /**
    The cursor stands at place cur: whatever is called before it is a dead end, and no return comes
    before it.
   */
  ghost predicate Cursor<S, I, O>(m: Model<S, I, O>, h: History<I, O>, list: seq<Node<I, O>>, done: set<nat>, s: S,
                                  cur: nat)
    requires Regular(h)
  {
    && 0 < cur < |list|
    && Tried(m, h, done, s, list[cur].pos)
    && NoReturnBefore(h, done, list[cur].pos)
  }

  lemma CursorAtFirst<S, I, O>(m: Model<S, I, O>, entries: seq<Entry<I, O>>, h: History<I, O>, head: Node<I, O>,
                               nodes: seq<Node<I, O>>, list: seq<Node<I, O>>, done: set<nat>, s: S)
    requires Laid(entries, h) && AreNodes(entries, h, nodes) && Live(head, nodes, list, done)
    requires |list| > 1
    ensures Cursor(m, h, list, done, s, 1)
  {
    forall x: nat | x < |h.calls| && x !in done
      ensures list[1].pos <= h.calls[x] && list[1].pos <= h.rets[x]
    {
      var k, j := Places(entries, h, head, nodes, list, done, x);
    }
  }

  // The call at the cursor is a dead end too: move on.  There is somewhere to go, as its return follows.
  lemma CursorMoves<S, I, O>(m: Model<S, I, O>, entries: seq<Entry<I, O>>, h: History<I, O>, head: Node<I, O>,
                             nodes: seq<Node<I, O>>, list: seq<Node<I, O>>, done: set<nat>, s: S, cur: nat)
    requires Laid(entries, h) && AreNodes(entries, h, nodes) && Live(head, nodes, list, done)
    requires 0 < cur < |list| && list[cur].content.Call? && list[cur].content.id < |h.calls|
    requires Tried(m, h, done, s, list[cur].pos) && NoReturnBefore(h, done, list[cur].pos)
    requires DeadEnd(m, h, done, s, list[cur].content.id)
    ensures Cursor(m, h, list, done, s, cur + 1)
  {
    AtPlace(entries, h, head, nodes, list, done, cur);
    var c := list[cur].content.id;
    var k, j := Places(entries, h, head, nodes, list, done, c);
    assert k == cur;
    forall x: nat | x < |h.calls| && x !in done
      ensures list[cur + 1].pos <= h.rets[x]
      ensures x != c && h.calls[x] < list[cur + 1].pos ==> h.calls[x] < list[cur].pos
    {
      var k', j' := Places(entries, h, head, nodes, list, done, x);
      assert h.rets[x] != h.calls[c];
      assert list[cur].pos < list[j'].pos;
      assert x != c ==> nodes[h.calls[x]] != nodes[h.calls[c]];
    }
  }

  // An empty list means that everything is done.
  lemma NothingLeft<I, O>(entries: seq<Entry<I, O>>, h: History<I, O>, head: Node<I, O>, nodes: seq<Node<I, O>>,
                          list: seq<Node<I, O>>, done: set<nat>)
    requires Laid(entries, h) && AreNodes(entries, h, nodes) && Live(head, nodes, list, done) && |list| == 1
    ensures forall x: nat :: x < |h.calls| ==> x in done
  {
    forall x: nat | x < |h.calls|
      ensures x in done
    {
      if x !in done {
        var k, j := Places(entries, h, head, nodes, list, done, x);
      }
    }
  }
}
