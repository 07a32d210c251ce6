/**
  The doubly linked list of calls and returns that the checker takes operations out of and puts
  them back into.  A node that is taken out keeps its own links; putting nodes back in the opposite
  order restores every link.
 */
module EntryList {
  import opened Sequences

  // What a node stands for: the start of the list, or the call or return of an operation.
  datatype Content<I, O> = Head | Call(id: nat, input: I) | Return(id: nat, output: O)

  class Node<I, O> {
    const content: Content<I, O>
    // A call's return; null for a return and for the head.
    const matching: Node?<I, O>
    // The position in the history; -1 for the head.
    ghost const pos: int
    var next: Node?<I, O>
    var prev: Node?<I, O>

    constructor (content: Content<I, O>, matching: Node?<I, O>, ghost pos: int)
      ensures this.content == content && this.matching == matching && this.pos == pos && next == null && prev == null
    {
      this.content, this.matching, this.pos := content, matching, pos;
      next, prev := null, null;
    }
  }

  // ---------- Linked lists ----------

  // w is s without its element at k.
  ghost predicate Omits<T>(s: seq<T>, k: nat, w: seq<T>) {
    && k < |s| && |w| == |s| - 1
    && (forall i: nat :: i < k ==> w[i] == s[i])
    && (forall i: nat :: k <= i < |w| ==> w[i] == s[i + 1])
  }

  // The links of the nodes in `list` say that they are neighbours in this order.
  ghost predicate Linked<I, O>(list: seq<Node<I, O>>)
    reads list
  {
    && |list| >= 1 && Distinct(list)
    && list[0].prev == null && list[|list| - 1].next == null
    && (forall k: nat {:trigger list[k].next} :: k + 1 < |list| ==> list[k].next == list[k + 1])
    && (forall k: nat {:trigger list[k].prev} :: 0 < k < |list| ==> list[k].prev == list[k - 1])
  }

  // The links of x remember its place k in `list`.
  ghost predicate Remembers<I, O>(x: Node<I, O>, list: seq<Node<I, O>>, k: nat)
    reads x
  {
    && 0 < k < |list| && list[k] == x
    && x.prev == list[k - 1]
    && x.next == if k + 1 < |list| then list[k + 1] else null
  }

  // x, at place k of `list`, leaves it.
  method Unlink<I, O>(x: Node<I, O>, ghost list: seq<Node<I, O>>, ghost k: nat, ghost shorter: seq<Node<I, O>>)
    requires Linked(list) && 0 < k < |list| && list[k] == x && Omits(list, k, shorter)
    modifies shorter
    ensures Linked(shorter) && Remembers(x, list, k)
  {
    assert list[k - 1] == shorter[k - 1];
    assert k + 1 < |list| ==> list[k + 1] == shorter[k];
    x.prev.next := x.next;
    if x.next != null {
      x.next.prev := x.prev;
    }
  }

  // x comes back to place k of `list`.
  method Relink<I, O>(x: Node<I, O>, ghost list: seq<Node<I, O>>, ghost k: nat, ghost shorter: seq<Node<I, O>>)
    requires Distinct(list) && Remembers(x, list, k) && Omits(list, k, shorter) && Linked(shorter)
    modifies shorter
    ensures Linked(list)
  {
    assert list[k - 1] == shorter[k - 1];
    assert k + 1 < |list| ==> list[k + 1] == shorter[k];
    x.prev.next := x;
    if x.next != null {
      x.next.prev := x;
    }
    forall j: nat | j + 1 < |list|
      ensures list[j].next == list[j + 1]
    {
      assert j + 1 < k ==> shorter[j].next == shorter[j + 1];
      assert j > k ==> shorter[j - 1].next == shorter[j];
    }
    forall j: nat | 0 < j < |list|
      ensures list[j].prev == list[j - 1]
    {
      assert j < k ==> shorter[j].prev == shorter[j - 1];
      assert j > k + 1 ==> shorter[j - 1].prev == shorter[j - 2];
    }
    assert list[0] == shorter[0];
    assert k + 1 < |list| ==> list[|list| - 1] == shorter[|shorter| - 1];
  }

  // n comes to place k of `longer`, before `mark`; alone if there is no mark.
  method InsertBefore<I, O>(n: Node<I, O>, mark: Node?<I, O>, ghost list: seq<Node<I, O>>, ghost k: nat,
                            ghost longer: seq<Node<I, O>>)
    requires n.next == null && n.prev == null && n !in list && Omits(longer, k, list) && longer[k] == n
    requires if list == [] then mark == null else Linked(list) && k < |list| && mark == list[k]
    modifies n, list
    ensures Linked(longer)
  {
    if mark != null {
      var beforeMark := mark.prev;
      mark.prev := n;
      n.next := mark;
      if beforeMark != null {
        n.prev := beforeMark;
        beforeMark.next := n;
      }
    }
    forall j: nat | j + 1 < |longer|
      ensures longer[j].next == longer[j + 1]
    {
      assert j + 1 < k ==> list[j].next == list[j + 1];
      assert j > k ==> list[j - 1].next == list[j];
    }
    forall j: nat | 0 < j < |longer|
      ensures longer[j].prev == longer[j - 1]
    {
      assert j < k ==> list[j].prev == list[j - 1];
      assert j > k + 1 ==> list[j - 1].prev == list[j - 2];
    }
    forall i: nat, j: nat | i < j < |longer|
      ensures longer[i] != longer[j]
    {
      assert i != k ==> longer[i] == list[if i < k then i else i - 1];
      assert j != k ==> longer[j] == list[if j < k then j else j - 1];
    }
    assert k > 0 ==> longer[0] == list[0];
    assert list != [] ==> longer[|longer| - 1] == list[|list| - 1];
  }

  // ---------- Taking operations out and putting them back ----------

  // An operation taken out of `list`: its call, at k, leaves `between`; then its return leaves `after`.
  datatype Level<!I, !O> = Level(list: seq<Node<I, O>>, k: nat, j: nat, between: seq<Node<I, O>>,
                                 after: seq<Node<I, O>>)

  ghost predicate IsLevel<I, O>(l: Level<I, O>) {
    && 0 < l.k < l.j < |l.list| && Distinct(l.list)
    && l.list[l.k].matching == l.list[l.j]
    && Omits(l.list, l.k, l.between) && Omits(l.between, l.j - 1, l.after)
  }

  ghost function ListAt<I, O>(levels: seq<Level<I, O>>, list: seq<Node<I, O>>, d: nat): seq<Node<I, O>>
    requires d <= |levels|
  {
    if d < |levels| then levels[d].list else list
  }

  // The two nodes of the level are not in `list`.
  ghost predicate GoneFrom<I, O>(l: Level<I, O>, list: seq<Node<I, O>>)
    requires IsLevel(l)
  {
    l.list[l.k] !in list && l.list[l.j] !in list
  }

  // The call and the return that are out still know their neighbours; if the two stood next to each
  // other, the call was taken out first.
  ghost predicate RemembersLevel<I, O>(l: Level<I, O>)
    requires IsLevel(l)
    reads l.list[l.k], l.list[l.j]
  {
    var call, ret := l.list[l.k], l.list[l.j];
    && call.prev == l.list[l.k - 1] && call.next == l.list[l.k + 1]
    && ret.prev == (if l.j == l.k + 1 then l.list[l.k - 1] else l.list[l.j - 1])
    && ret.next == (if l.j + 1 < |l.list| then l.list[l.j + 1] else null)
  }

  ghost predicate AllIn<I, O>(list: seq<Node<I, O>>, all: set<Node<I, O>>) {
    forall x :: x in list ==> x in all
  }

  // The lists follow from each other, and what is out of one is out of all later ones.
  ghost predicate Nested<I, O>(all: set<Node<I, O>>, levels: seq<Level<I, O>>, list: seq<Node<I, O>>) {
    && (forall d: nat :: d < |levels| ==> IsLevel(levels[d]) && levels[d].after == ListAt(levels, list, d + 1))
    && (forall d: nat, e: nat :: d < e <= |levels| ==> GoneFrom(levels[d], ListAt(levels, list, e)))
    && (forall d: nat :: d <= |levels| ==> AllIn(ListAt(levels, list, d), all))
  }

  /**
    `list` is linked, and was reached by taking out the operations of `levels` one after the other;
    every node that is out still remembers its place.
   */
  ghost predicate Stacked<I, O>(all: set<Node<I, O>>, levels: seq<Level<I, O>>, list: seq<Node<I, O>>)
    reads all
  {
    && Nested(all, levels, list)
    && AllIn(ListAt(levels, list, |levels|), all) && Linked(list)
    && forall d: nat :: d < |levels| ==> AllIn(ListAt(levels, list, d), all) && RemembersLevel(levels[d])
  }

  lemma LevelMembers<I, O>(l: Level<I, O>)
    requires IsLevel(l)
    ensures GoneFrom(l, l.after)
    ensures forall x :: x in l.after ==> x in l.between
    ensures forall x :: x in l.between ==> x in l.list
    ensures l.list[l.k] !in l.between && Distinct(l.between)
  {
    forall x | x in l.between
      ensures x in l.list
    {
      var i :| 0 <= i < |l.between| && l.between[i] == x;
      assert x == if i < l.k then l.list[i] else l.list[i + 1];
    }
    forall x | x in l.after
      ensures x in l.between
    {
      var i :| 0 <= i < |l.after| && l.after[i] == x;
      assert x == if i < l.j - 1 then l.between[i] else l.between[i + 1];
    }
    assert l.between[l.j - 1] == l.list[l.j];
  }

  lemma NestedPush<I, O>(all: set<Node<I, O>>, levels: seq<Level<I, O>>, list: seq<Node<I, O>>, l: Level<I, O>)
    requires Nested(all, levels, list) && IsLevel(l) && l.list == list
    ensures Nested(all, levels + [l], l.after)
  {
    var levels', list' := levels + [l], l.after;
    LevelMembers(l);
    forall d: nat | d <= |levels|
      ensures ListAt(levels', list', d) == ListAt(levels, list, d)
    {
    }
    assert AllIn(ListAt(levels, list, |levels|), all);
    forall d: nat, e: nat | d < e <= |levels'|
      ensures GoneFrom(levels'[d], ListAt(levels', list', e))
    {
      if d < |levels| {
        assert GoneFrom(levels[d], ListAt(levels, list, if e <= |levels| then e else |levels|));
      }
    }
    forall d: nat | d < |levels'|
      ensures IsLevel(levels'[d]) && levels'[d].after == ListAt(levels', list', d + 1)
    {
      if d < |levels| {
        assert levels[d].after == ListAt(levels, list, d + 1);
      }
    }
  }

  lemma NestedPop<I, O>(all: set<Node<I, O>>, levels: seq<Level<I, O>>, list: seq<Node<I, O>>)
    requires levels != [] && Nested(all, levels, list)
    ensures Nested(all, levels[..|levels| - 1], levels[|levels| - 1].list)
  {
    var levels', list' := levels[..|levels| - 1], levels[|levels| - 1].list;
    forall d: nat | d <= |levels'|
      ensures ListAt(levels', list', d) == ListAt(levels, list, d)
    {
    }
    forall d: nat, e: nat | d < e <= |levels'|
      ensures GoneFrom(levels'[d], ListAt(levels', list', e))
    {
      assert GoneFrom(levels[d], ListAt(levels, list, e));
    }
    forall d: nat | d < |levels'|
      ensures IsLevel(levels'[d]) && levels'[d].after == ListAt(levels', list', d + 1)
    {
      assert levels[d].after == ListAt(levels, list, d + 1);
    }
  }

  method LiftNodes<I, O>(entry: Node<I, O>, ghost l: Level<I, O>)
    requires IsLevel(l) && Linked(l.list) && l.list[l.k] == entry
    modifies l.between
    ensures Linked(l.after) && RemembersLevel(l)
  {
    LevelMembers(l);
    assert l.between[l.j - 1] == l.list[l.j];
    Unlink(entry, l.list, l.k, l.between);
    Unlink(entry.matching, l.between, l.j - 1, l.after);
  }

  method UnliftNodes<I, O>(entry: Node<I, O>, ghost l: Level<I, O>)
    requires IsLevel(l) && Linked(l.after) && RemembersLevel(l) && l.list[l.k] == entry
    modifies l.between
    ensures Linked(l.list)
  {
    LevelMembers(l);
    assert l.between[l.j - 1] == l.list[l.j];
    Relink(entry.matching, l.between, l.j - 1, l.after);
    Relink(entry, l.list, l.k, l.between);
  }

  method Lift<I, O>(entry: Node<I, O>, ghost all: set<Node<I, O>>, ghost levels: seq<Level<I, O>>,
                    ghost list: seq<Node<I, O>>, ghost l: Level<I, O>)
    requires Stacked(all, levels, list) && IsLevel(l) && l.list == list && list[l.k] == entry
    modifies all
    ensures Stacked(all, levels + [l], l.after)
  {
    LevelMembers(l);
    LiftNodes(entry, l);
    forall d: nat | d < |levels|
      ensures RemembersLevel(levels[d])
    {
      assert GoneFrom(levels[d], ListAt(levels, list, |levels|));
      assert old(RemembersLevel(levels[d]));
    }
    NestedPush(all, levels, list, l);
  }

  method Unlift<I, O>(entry: Node<I, O>, ghost all: set<Node<I, O>>, ghost levels: seq<Level<I, O>>,
                      ghost list: seq<Node<I, O>>)
    requires levels != [] && Stacked(all, levels, list)
    requires var l := levels[|levels| - 1]; l.list[l.k] == entry
    modifies all
    ensures Stacked(all, levels[..|levels| - 1], levels[|levels| - 1].list)
    ensures var l := levels[|levels| - 1]; l.k + 1 < |l.list| ==> entry.next == l.list[l.k + 1]
  {
    ghost var l := levels[|levels| - 1];
    assert AllIn(ListAt(levels, list, |levels| - 1), all);
    LevelMembers(l);
    UnliftNodes(entry, l);
    forall d: nat | d < |levels| - 1
      ensures RemembersLevel(levels[d])
    {
      assert GoneFrom(levels[d], ListAt(levels, list, |levels| - 1));
      assert old(RemembersLevel(levels[d]));
    }
    NestedPop(all, levels, list);
  }
}
