/**
  The checker's main loop is sound, complete and terminating.
 */
module CheckSingle {
  import opened Sequences
  import opened Linearizability
  import opened Search
  import opened EntryList
  import opened LiveEntries
  import opened Checker
  import Bitset

  // The cursor and the state it goes with.
  ghost predicate CursorOk<S, I, O>(m: Model<S, I, O>, h: History<I, O>, pr: Progress<S, I, O>, state: S,
                                    entry: Node?<I, O>, cur: nat)
    requires Regular(h)
  {
    && |pr.states| == |pr.path| + 1 && state == pr.states[|pr.path|]
    && (|pr.list| > 1 ==> Cursor(m, h, pr.list, DoneNow(pr), state, cur) && entry == pr.list[cur])
  }

  // At a call: it may be next, and this is what choosing it would give.
  lemma AtCall<S, I, O>(m: Model<S, I, O>, entries: seq<Entry<I, O>>, h: History<I, O>, head: Node<I, O>,
                        nodes: seq<Node<I, O>>, pr: Progress<S, I, O>, cur: nat)
    requires Laid(entries, h) && AreNodes(entries, h, nodes) && ListsOk(h, head, nodes, pr)
    requires |pr.states| == |pr.path| + 1 && Cursor(m, h, pr.list, DoneNow(pr), pr.states[|pr.path|], cur)
    requires pr.list[cur].matching != null
    ensures pr.list[cur].content.Call? && pr.list[cur].matching.content.Return?
    ensures var x := pr.list[cur].content.id;
            && MayBeNext(h, DoneNow(pr), x) && pr.list[cur].pos == h.calls[x]
            && pr.list[cur].content.input == h.inputs[x] && pr.list[cur].matching.content.output == h.outputs[x]
  {
    assert Live(head, nodes, ListAt(pr.levels, pr.list, |pr.path|), DoneNow(pr));
    AtPlace(entries, h, head, nodes, pr.list, DoneNow(pr), cur);
    ReachedCall(h, DoneNow(pr), pr.list[cur].content.id);
  }

  // At a return: nothing can come of the current configuration.
  lemma AtReturn<S, I, O>(m: Model<S, I, O>, entries: seq<Entry<I, O>>, h: History<I, O>, head: Node<I, O>,
                          nodes: seq<Node<I, O>>, pr: Progress<S, I, O>, cur: nat)
    requires Laid(entries, h) && AreNodes(entries, h, nodes) && ListsOk(h, head, nodes, pr)
    requires |pr.states| == |pr.path| + 1 && Cursor(m, h, pr.list, DoneNow(pr), pr.states[|pr.path|], cur)
    requires pr.list[cur].matching == null
    ensures !CanComplete(m, h, DoneNow(pr), pr.states[|pr.path|])
  {
    assert Live(head, nodes, ListAt(pr.levels, pr.list, |pr.path|), DoneNow(pr));
    AtPlace(entries, h, head, nodes, pr.list, DoneNow(pr), cur);
    var y := pr.list[cur].content.id;
    forall x: nat | x < |h.calls|
      ensures h.calls[x] != h.rets[y]
    {
      assert LaidAt(entries, h, x) && LaidAt(entries, h, y);
    }
    ReturnReached(m, h, DoneNow(pr), pr.states[|pr.path|], y);
  }

  // The call at the cursor is a dead end: the cursor moves to the next entry.
  lemma SkipCall<S, I, O>(m: Model<S, I, O>, entries: seq<Entry<I, O>>, h: History<I, O>, head: Node<I, O>,
                          nodes: seq<Node<I, O>>, pr: Progress<S, I, O>, cur: nat)
    requires Laid(entries, h) && AreNodes(entries, h, nodes) && ListsOk(h, head, nodes, pr)
    requires |pr.states| == |pr.path| + 1 && Cursor(m, h, pr.list, DoneNow(pr), pr.states[|pr.path|], cur)
    requires pr.list[cur].content.Call? && pr.list[cur].content.id < |h.calls|
    requires DeadEnd(m, h, DoneNow(pr), pr.states[|pr.path|], pr.list[cur].content.id)
    ensures Cursor(m, h, pr.list, DoneNow(pr), pr.states[|pr.path|], cur + 1)
  {
    assert Live(head, nodes, ListAt(pr.levels, pr.list, |pr.path|), DoneNow(pr));
    CursorMoves(m, entries, h, head, nodes, pr.list, DoneNow(pr), pr.states[|pr.path|], cur);
  }

  // l is how x, whose call stands at place cur, leaves the list.
  ghost predicate IsLevelOf<S, I, O>(entries: seq<Entry<I, O>>, h: History<I, O>, nodes: seq<Node<I, O>>,
                                     pr: Progress<S, I, O>, cur: nat, x: nat, l: Level<I, O>)
    requires Laid(entries, h) && AreNodes(entries, h, nodes)
  {
    && x < |h.calls| && LaidAt(entries, h, x)
    && IsLevel(l) && l.list == pr.list && l.k == cur && ShiftsBack(l) && ShiftsForth(l)
    && l.list[l.k] == nodes[h.calls[x]] && l.list[l.j] == nodes[h.rets[x]]
  }

  lemma FindLevel<S, I, O>(entries: seq<Entry<I, O>>, h: History<I, O>, head: Node<I, O>, nodes: seq<Node<I, O>>,
                           pr: Progress<S, I, O>, cur: nat, x: nat) returns (l: Level<I, O>)
    requires Laid(entries, h) && AreNodes(entries, h, nodes) && ListsOk(h, head, nodes, pr) && Distinct(pr.list)
    requires x < |h.calls| && x !in DoneNow(pr) && 0 < cur < |pr.list| && pr.list[cur].pos == h.calls[x]
    ensures IsLevelOf(entries, h, nodes, pr, cur, x, l)
  {
    assert Live(head, nodes, ListAt(pr.levels, pr.list, |pr.path|), DoneNow(pr));
    var k, j := Places(entries, h, head, nodes, pr.list, DoneNow(pr), x);
    SamePlace(head, nodes, pr.list, DoneNow(pr), k, cur);
    l := MakeLevel(pr.list, k, j);
  }

  // Choosing the call at the cursor.
  lemma ChooseCall<S(!new), I, O>(m: Model<S, I, O>, entries: seq<Entry<I, O>>, h: History<I, O>, head: Node<I, O>,
                                  nodes: seq<Node<I, O>>, universe: Configs<S>, pr: Progress<S, I, O>, cur: nat,
                                  x: nat, s': S, l: Level<I, O>)
    requires Laid(entries, h) && AreNodes(entries, h, nodes) && ListsOk(h, head, nodes, pr)
    requires SearchOk(m, h, universe, pr) && Covers(m, h, universe)
    requires IsLevelOf(entries, h, nodes, pr, cur, x, l)
    requires IsChoice(m, h, DoneNow(pr), pr.states[|pr.path|], x, s')
    requires Tried(m, h, DoneNow(pr), pr.states[|pr.path|], h.calls[x])
    ensures var pr' := Chosen(pr, x, s', l);
            && SearchOk(m, h, universe, pr') && ListsOk(h, head, nodes, pr')
            && DoneNow(pr') == DoneNow(pr) + {x}
            && (|pr'.list| > 1 ==> Cursor(m, h, pr'.list, DoneNow(pr'), s', 1))
  {
    assert Live(head, nodes, ListAt(pr.levels, pr.list, |pr.path|), DoneNow(pr));
    TakeOut(entries, h, head, nodes, pr.list, DoneNow(pr), x, l);
    ChooseKeepsSearch(m, h, universe, pr, x, s', l);
    ChooseKeepsLists(h, head, nodes, pr, x, s', l);
    if |l.after| > 1 {
      CursorAtFirst(m, entries, h, head, nodes, l.after, DoneNow(pr) + {x}, s');
    }
  }

  // A position occurs once in the list.
  lemma SamePlace<I, O>(head: Node<I, O>, nodes: seq<Node<I, O>>, list: seq<Node<I, O>>, done: set<nat>, i: nat, j: nat)
    requires Live(head, nodes, list, done) && i < |list| && j < |list| && list[i].pos == list[j].pos
    ensures i == j
  {
  }

  // Undoing the last choice: the cursor goes to the entry after that call.
  lemma UndoCall<S, I, O>(m: Model<S, I, O>, entries: seq<Entry<I, O>>, h: History<I, O>, head: Node<I, O>,
                          nodes: seq<Node<I, O>>, universe: Configs<S>, pr: Progress<S, I, O>)
    requires Laid(entries, h) && AreNodes(entries, h, nodes) && ListsOk(h, head, nodes, pr)
    requires SearchOk(m, h, universe, pr) && pr.path != []
    requires !CanComplete(m, h, DoneNow(pr), pr.states[|pr.path|])
    ensures var u := Undone(pr);
            var l, x := pr.levels[|u.path|], pr.path[|u.path|];
            && SearchOk(m, h, universe, u) && ListsOk(h, head, nodes, u)
            && x < |h.calls| && DoneNow(u) == DoneNow(pr) - {x}
            && 0 < l.k < |u.list| && u.list[l.k].content.Call? && u.list[l.k].content.id == x
            && Cursor(m, h, u.list, DoneNow(u), u.states[|u.path|], l.k + 1)
  {
    var u := Undone(pr);
    var l, x := pr.levels[|u.path|], pr.path[|u.path|];
    UndoKeepsSearch(m, h, universe, pr);
    UndoKeepsLists(h, head, nodes, pr);
    assert IsCallAt(h, nodes, l, x);
    assert LaidAt(entries, h, x);
    assert IsNode(entries, h, nodes, h.calls[x]);
    SkipCall(m, entries, h, head, nodes, u, l.k);
  }

  // The choice is a dead end: the model refuses it, or it leads to a configuration already seen.
  lemma ChoiceIsDead<S, I, O>(m: Model<S, I, O>, h: History<I, O>, universe: Configs<S>, pr: Progress<S, I, O>, x: nat)
    requires Regular(h) && SearchOk(m, h, universe, pr) && MayBeNext(h, DoneNow(pr), x)
    requires var (ok, s') := m.step(pr.states[|pr.path|], h.inputs[x], h.outputs[x]);
             ok ==> (DoneNow(pr) + {x}, s') in pr.seen
    ensures DeadEnd(m, h, DoneNow(pr), pr.states[|pr.path|], x)
  {
    var (ok, s') := m.step(pr.states[|pr.path|], h.inputs[x], h.outputs[x]);
    if ok {
      RememberedIsDead(m, h, pr.path, pr.states, pr.seen, x, s');
    }
  }

  // ---------- The loop ----------

  // The variables of the search loop, besides the list and the bit set.
  datatype Vars<!S(==), !I, !O> = Vars(
    entry: Node?<I, O>,
    state: S,
    calls: seq<CallsEntry<S, I, O>>,
    cache: Cache<S>)

  // What never changes during the search.
  ghost predicate Setting<S(!new), I, O>(m: Model<S, I, O>, entries: seq<Entry<I, O>>, h: History<I, O>,
                                         head: Node<I, O>, nodes: seq<Node<I, O>>, universe: Configs<S>) {
    Laid(entries, h) && AreNodes(entries, h, nodes) && IsHead(head) && Covers(m, h, universe)
  }

  // What holds whenever the loop tests its guard, apart from the links and the bit set.
  ghost predicate VarsOk<S, I, O>(m: Model<S, I, O>, h: History<I, O>, head: Node<I, O>, nodes: seq<Node<I, O>>,
                                  universe: Configs<S>, size: nat, v: Vars<S, I, O>, pr: Progress<S, I, O>,
                                  held: set<CacheEntry<S>>, cur: nat)
    requires Regular(h)
  {
    && SearchOk(m, h, universe, pr) && ListsOk(h, head, nodes, pr) && CallsOk(v.calls, pr)
    && CursorOk(m, h, pr, v.state, v.entry, cur)
    && Holds(v.cache, held) && StandsFor(held, size, pr.seen)
  }

  // The links show the current list, and the bit set the operations taken out of it.
  ghost predicate HeapOk<S, I, O>(h: History<I, O>, all: set<Node<I, O>>, linearized: array<Bitset.Word>,
                                  pr: Progress<S, I, O>)
    reads all, linearized
  {
    && Stacked(all, pr.levels, pr.list)
    && Bitset.Members(linearized[..]) == DoneNow(pr)
    && (forall x: nat :: x < |h.calls| ==> x / 64 < linearized.Length)
  }

  // The search starts with nothing chosen and nothing seen.
  lemma Beginning<S(!new), I, O>(m: Model<S, I, O>, entries: seq<Entry<I, O>>, h: History<I, O>, head: Node<I, O>,
                                 nodes: seq<Node<I, O>>, universe: Configs<S>, size: nat, v: Vars<S, I, O>,
                                 pr: Progress<S, I, O>)
    requires Laid(entries, h) && AreNodes(entries, h, nodes) && IsHead(head)
    requires pr == Progress([], [m.init], {}, [], [head] + nodes)
    requires v == Vars(if nodes == [] then null else nodes[0], m.init, [], map[])
    ensures VarsOk(m, h, head, nodes, universe, size, v, pr, {}, 1)
  {
    assert DoneNow(pr) == {};
    AllLive(entries, h, head, nodes);
    if |pr.list| > 1 {
      CursorAtFirst(m, entries, h, head, nodes, pr.list, {}, m.init);
    }
  }

  lemma BeginningHeap<S, I, O>(h: History<I, O>, linearized: array<Bitset.Word>, pr: Progress<S, I, O>)
    requires pr.path == [] && pr.levels == [] && Linked(pr.list) && Bitset.Members(linearized[..]) == {}
    requires forall x: nat :: x < |h.calls| ==> x / 64 < linearized.Length
    ensures HeapOk(h, (set x | x in pr.list), linearized, pr)
  {
    assert DoneNow(pr) == {};
  }

  // The head is followed by something exactly when the list has more than the head.
  lemma NextOfHead<S, I, O>(h: History<I, O>, head: Node<I, O>, nodes: seq<Node<I, O>>, all: set<Node<I, O>>,
                            pr: Progress<S, I, O>)
    requires Regular(h) && Stacked(all, pr.levels, pr.list) && ListsOk(h, head, nodes, pr)
    ensures pr.list[0] == head && (head.next == null <==> |pr.list| == 1)
    ensures |pr.list| > 1 ==> head.next == pr.list[1]
  {
    assert Live(head, nodes, ListAt(pr.levels, pr.list, |pr.path|), DoneNow(pr));
  }

  // u is the search with its last choice undone: x, taken out as l says and recorded in top.
  ghost predicate IsUndone<S, I, O>(calls: seq<CallsEntry<S, I, O>>, pr: Progress<S, I, O>, u: Progress<S, I, O>,
                                    l: Level<I, O>, x: nat, top: CallsEntry<S, I, O>) {
    && calls != [] && |calls| == |pr.path| == |pr.levels| && |pr.states| == |pr.path| + 1
    && u == Undone(pr) && l == pr.levels[|calls| - 1] && x == pr.path[|calls| - 1] && top == calls[|calls| - 1]
  }

  lemma UndoVars<S(!new), I, O>(m: Model<S, I, O>, entries: seq<Entry<I, O>>, h: History<I, O>, head: Node<I, O>,
                                nodes: seq<Node<I, O>>, universe: Configs<S>, size: nat, v: Vars<S, I, O>,
                                pr: Progress<S, I, O>, held: set<CacheEntry<S>>, cur: nat, u: Progress<S, I, O>,
                                l: Level<I, O>, x: nat, top: CallsEntry<S, I, O>)
    requires Setting(m, entries, h, head, nodes, universe)
    requires VarsOk(m, h, head, nodes, universe, size, v, pr, held, cur)
    requires IsUndone(v.calls, pr, u, l, x, top) && !CanComplete(m, h, DoneNow(pr), pr.states[|pr.path|])
    ensures l.k + 1 < |u.list|
    ensures VarsOk(m, h, head, nodes, universe, size,
                   Vars(u.list[l.k + 1], top.state, v.calls[..|v.calls| - 1], v.cache), u, held, l.k + 1)
  {
    UndoCall(m, entries, h, head, nodes, universe, pr);
    TopOfCalls(v.calls, pr, u, l, x, top);
    UndoCalls(v.calls, pr);
  }

  // The operation put back is the one on top of the calls stack.
  lemma UndoneCall<S, I, O>(m: Model<S, I, O>, entries: seq<Entry<I, O>>, h: History<I, O>, head: Node<I, O>,
                            nodes: seq<Node<I, O>>, universe: Configs<S>, calls: seq<CallsEntry<S, I, O>>,
                            pr: Progress<S, I, O>, u: Progress<S, I, O>, l: Level<I, O>, x: nat,
                            top: CallsEntry<S, I, O>)
    requires Laid(entries, h) && AreNodes(entries, h, nodes) && ListsOk(h, head, nodes, pr) && CallsOk(calls, pr)
    requires SearchOk(m, h, universe, pr) && IsUndone(calls, pr, u, l, x, top)
    requires !CanComplete(m, h, DoneNow(pr), pr.states[|pr.path|])
    ensures 0 < l.k && l.k + 1 < |u.list| && top.entry == u.list[l.k] && x < |h.calls|
    ensures top.entry.content.Call? && top.entry.content.id == x && DoneNow(u) == DoneNow(pr) - {x}
  {
    UndoCall(m, entries, h, head, nodes, universe, pr);
    TopOfCalls(calls, pr, u, l, x, top);
  }

  lemma TopOfCalls<S, I, O>(calls: seq<CallsEntry<S, I, O>>, pr: Progress<S, I, O>,
                            u: Progress<S, I, O>, l: Level<I, O>, x: nat, top: CallsEntry<S, I, O>)
    requires CallsOk(calls, pr) && IsUndone(calls, pr, u, l, x, top)
    ensures l.k < |u.list| && top == CallsEntry(u.list[l.k], u.states[|u.path|])
  {
  }

  lemma UndoCalls<S, I, O>(calls: seq<CallsEntry<S, I, O>>, pr: Progress<S, I, O>)
    requires CallsOk(calls, pr) && calls != [] && |pr.path| == |pr.levels|
    ensures CallsOk(calls[..|calls| - 1], Undone(pr))
  {
    var u := Undone(pr);
    forall d: nat | d < |calls| - 1
      ensures u.levels[d].k < |u.levels[d].list| && calls[d] == CallsEntry(u.levels[d].list[u.levels[d].k], u.states[d])
    {
      assert u.levels[d] == pr.levels[d] && u.states[d] == pr.states[d];
    }
  }

  // Backtracks from a return that the current choices cannot get past.
  method Backtrack<S(==, !new), I, O>(ghost m: Model<S, I, O>, ghost entries: seq<Entry<I, O>>, ghost h: History<I, O>,
                                      ghost head: Node<I, O>, ghost nodes: seq<Node<I, O>>, ghost universe: Configs<S>,
                                      ghost all: set<Node<I, O>>, linearized: array<Bitset.Word>, v: Vars<S, I, O>,
                                      ghost pr: Progress<S, I, O>, ghost held: set<CacheEntry<S>>, ghost cur: nat)
    returns (v': Vars<S, I, O>, ghost pr': Progress<S, I, O>, ghost cur': nat)
    requires Setting(m, entries, h, head, nodes, universe)
    requires VarsOk(m, h, head, nodes, universe, linearized.Length, v, pr, held, cur) && HeapOk(h, all, linearized, pr)
    requires v.calls != [] && !CanComplete(m, h, DoneNow(pr), pr.states[|pr.path|])
    modifies all, linearized
    ensures VarsOk(m, h, head, nodes, universe, linearized.Length, v', pr', held, cur') &&
            HeapOk(h, all, linearized, pr')
    ensures pr'.seen == pr.seen && |v'.calls| < |v.calls|
  {
    var top := v.calls[|v.calls| - 1];
    ghost var l, x := pr.levels[|v.calls| - 1], pr.path[|v.calls| - 1];
    pr', cur' := Undone(pr), l.k + 1;
    UndoVars(m, entries, h, head, nodes, universe, linearized.Length, v, pr, held, cur, pr', l, x, top);
    UndoneCall(m, entries, h, head, nodes, universe, v.calls, pr, pr', l, x, top);
    PutBack(top.entry, h, all, linearized, pr, pr', l);
    v' := Vars(top.entry.next, top.state, v.calls[..|v.calls| - 1], v.cache);
  }

  // The last operation taken out returns to the list and leaves the bit set.
  method PutBack<S(==), I, O>(entry: Node<I, O>, ghost h: History<I, O>, ghost all: set<Node<I, O>>,
                              linearized: array<Bitset.Word>, ghost pr: Progress<S, I, O>,
                              ghost pr': Progress<S, I, O>, ghost l: Level<I, O>)
    requires HeapOk(h, all, linearized, pr) && pr.levels != [] && l == pr.levels[|pr.levels| - 1]
    requires pr'.levels == pr.levels[..|pr.levels| - 1] && pr'.list == l.list
    requires 0 < l.k && l.k + 1 < |l.list| && l.list[l.k] == entry && entry.content.Call? &&
             entry.content.id < |h.calls|
    requires DoneNow(pr') == DoneNow(pr) - {entry.content.id}
    modifies all, linearized
    ensures HeapOk(h, all, linearized, pr') && entry.next == l.list[l.k + 1]
  {
    Bitset.Clear(linearized, entry.content.id);
    Unlift(entry, all, pr.levels, pr.list);
  }

  // The entry at place cur is the call of x.
  ghost predicate StandsAt<S, I, O>(pr: Progress<S, I, O>, cur: nat, x: nat) {
    && |pr.states| == |pr.path| + 1
    && 0 < cur < |pr.list| && pr.list[cur].content.Call? && pr.list[cur].content.id == x
  }

  lemma SkipVars<S(!new), I, O>(m: Model<S, I, O>, entries: seq<Entry<I, O>>, h: History<I, O>, head: Node<I, O>,
                                nodes: seq<Node<I, O>>, universe: Configs<S>, size: nat, v: Vars<S, I, O>,
                                pr: Progress<S, I, O>, held: set<CacheEntry<S>>, cur: nat, x: nat, next: Node?<I, O>)
    requires Regular(h) && x < |h.calls| && StandsAt(pr, cur, x) && MayBeNext(h, DoneNow(pr), x)
    requires Setting(m, entries, h, head, nodes, universe)
    requires VarsOk(m, h, head, nodes, universe, size, v, pr, held, cur) && |pr.list| > 1
    requires var (ok, s') := m.step(pr.states[|pr.path|], h.inputs[x], h.outputs[x]);
             ok ==> (DoneNow(pr) + {x}, s') in pr.seen
    ensures cur + 1 < |pr.list|
    ensures next == pr.list[cur + 1] ==>
              VarsOk(m, h, head, nodes, universe, size, v.(entry := next), pr, held, cur + 1)
  {
    ChoiceIsDead(m, h, universe, pr, x);
    SkipCall(m, entries, h, head, nodes, pr, cur);
  }

  lemma ChooseCalls<S, I, O>(calls: seq<CallsEntry<S, I, O>>, pr: Progress<S, I, O>, x: nat, s': S, l: Level<I, O>,
                             top: CallsEntry<S, I, O>)
    requires CallsOk(calls, pr) && |pr.path| == |pr.levels| && l.k < |l.list|
    requires top == CallsEntry(l.list[l.k], pr.states[|pr.path|])
    ensures CallsOk(calls + [top], Chosen(pr, x, s', l))
  {
  }

  lemma ChooseVars<S(!new), I, O>(m: Model<S, I, O>, entries: seq<Entry<I, O>>, h: History<I, O>, head: Node<I, O>,
                                  nodes: seq<Node<I, O>>, universe: Configs<S>, size: nat, v: Vars<S, I, O>,
                                  pr: Progress<S, I, O>, held: set<CacheEntry<S>>, cur: nat, x: nat, e: CacheEntry<S>,
                                  hash: Bitset.Word, l: Level<I, O>, next: Node?<I, O>)
    requires Regular(h) && x < |h.calls| && StandsAt(pr, cur, x) && pr.list[cur].pos == h.calls[x]
    requires IsChoice(m, h, DoneNow(pr), pr.states[|pr.path|], x, e.state)
    requires Setting(m, entries, h, head, nodes, universe) && IsLevelOf(entries, h, nodes, pr, cur, x, l)
    requires VarsOk(m, h, head, nodes, universe, size, v, pr, held, cur) && |pr.list| > 1
    requires |e.linearized| == size && Configuration(e) == (DoneNow(pr) + {x}, e.state) && e !in held
    requires hash == Bitset.HashOf(e.linearized) && (|l.after| > 1 ==> next == l.after[1])
    ensures |universe - Chosen(pr, x, e.state, l).seen| < |universe - pr.seen|
    ensures DoneNow(Chosen(pr, x, e.state, l)) == DoneNow(pr) + {x}
    ensures VarsOk(m, h, head, nodes, universe, size,
                   Vars(next, e.state, v.calls + [CallsEntry(v.entry, v.state)], Add(v.cache, hash, e)),
                   Chosen(pr, x, e.state, l), held + {e}, 1)
  {
    ChooseCall(m, entries, h, head, nodes, universe, pr, cur, x, e.state, l);
    NotMissed(held, size, pr.seen, e);
    AddStandsFor(held, size, pr.seen, e);
    AddHolds(v.cache, e, held, hash);
    ChooseCalls(v.calls, pr, x, e.state, l, CallsEntry(v.entry, v.state));
    Fewer(universe, pr.seen, Configuration(e));
  }

  lemma Fewer<T>(universe: set<T>, seen: set<T>, c: T)
    requires c in universe && c !in seen
    ensures |universe - (seen + {c})| < |universe - seen|
  {
    assert universe - seen == (universe - (seen + {c})) + {c};
  }

  // The operation at the cursor leaves the list and joins the bit set.
  method TakeFromList<S(==), I, O>(entry: Node<I, O>, ghost h: History<I, O>, ghost all: set<Node<I, O>>,
                                   linearized: array<Bitset.Word>, ghost pr: Progress<S, I, O>,
                                   ghost pr': Progress<S, I, O>, ghost l: Level<I, O>)
    requires HeapOk(h, all, linearized, pr) && IsLevel(l) && l.list == pr.list && l.list[l.k] == entry
    requires pr'.levels == pr.levels + [l] && pr'.list == l.after
    requires entry.content.Call? && entry.content.id < |h.calls|
    requires DoneNow(pr') == DoneNow(pr) + {entry.content.id}
    modifies all, linearized
    ensures HeapOk(h, all, linearized, pr')
  {
    Bitset.Set(linearized, entry.content.id);
    Lift(entry, all, pr.levels, pr.list, l);
  }

  // The words the bit set would have with x in it.
  method WithOperation(linearized: array<Bitset.Word>, x: nat) returns (words: seq<Bitset.Word>)
    requires x / 64 < linearized.Length
    ensures |words| == linearized.Length && Bitset.Members(words) == Bitset.Members(linearized[..]) + {x}
  {
    var copy := Bitset.Clone(linearized);
    assert copy.Length == |copy[..]|;
    Bitset.Set(copy, x);
    words := copy[..];
  }

  // Chooses x, whose call is at the cursor: its configuration e has not been seen.
  method Choose<S(==, !new), I, O>(ghost m: Model<S, I, O>, ghost entries: seq<Entry<I, O>>, ghost h: History<I, O>,
                                   head: Node<I, O>, ghost nodes: seq<Node<I, O>>, ghost universe: Configs<S>,
                                   ghost all: set<Node<I, O>>, linearized: array<Bitset.Word>, v: Vars<S, I, O>,
                                   ghost pr: Progress<S, I, O>, ghost held: set<CacheEntry<S>>, ghost cur: nat, x: nat,
                                   e: CacheEntry<S>)
    returns (v': Vars<S, I, O>, ghost pr': Progress<S, I, O>)
    requires Regular(h) && x < |h.calls| && StandsAt(pr, cur, x) && pr.list[cur].pos == h.calls[x]
    requires IsChoice(m, h, DoneNow(pr), pr.states[|pr.path|], x, e.state)
    requires Setting(m, entries, h, head, nodes, universe)
    requires VarsOk(m, h, head, nodes, universe, linearized.Length, v, pr, held, cur) && HeapOk(h, all, linearized, pr)
    requires |e.linearized| == linearized.Length && Configuration(e) == (DoneNow(pr) + {x}, e.state) && e !in held
    modifies all, linearized
    ensures VarsOk(m, h, head, nodes, universe, linearized.Length, v', pr', held + {e}, 1) &&
            HeapOk(h, all, linearized, pr')
    ensures |universe - pr'.seen| < |universe - pr.seen|
  {
    var hash := Bitset.Hash(e.linearized);
    ghost var l := FindLevel(entries, h, head, nodes, pr, cur, x);
    pr' := Chosen(pr, x, e.state, l);
    ChooseVars(m, entries, h, head, nodes, universe, linearized.Length, v, pr, held, cur, x, e, hash, l,
               if |l.after| > 1 then l.after[1] else null);
    TakeFromList(v.entry, h, all, linearized, pr, pr', l);
    NextOfHead(h, head, nodes, all, pr');
    v' := Vars(head.next, e.state, v.calls + [CallsEntry(v.entry, v.state)], Add(v.cache, hash, e));
  }

  // The call at the cursor is refused or leads to what has been seen: the cursor moves on.
  method MoveOn<S(==, !new), I, O>(ghost m: Model<S, I, O>, ghost entries: seq<Entry<I, O>>, ghost h: History<I, O>,
                                   ghost head: Node<I, O>, ghost nodes: seq<Node<I, O>>, ghost universe: Configs<S>,
                                   ghost all: set<Node<I, O>>, ghost linearized: array<Bitset.Word>, v: Vars<S, I, O>,
                                   ghost pr: Progress<S, I, O>, ghost held: set<CacheEntry<S>>, ghost cur: nat,
                                   ghost x: nat)
    returns (v': Vars<S, I, O>)
    requires Regular(h) && x < |h.calls| && StandsAt(pr, cur, x) && MayBeNext(h, DoneNow(pr), x) && v.entry != null
    requires Setting(m, entries, h, head, nodes, universe)
    requires VarsOk(m, h, head, nodes, universe, linearized.Length, v, pr, held, cur) && HeapOk(h, all, linearized, pr)
    requires var (ok, s') := m.step(pr.states[|pr.path|], h.inputs[x], h.outputs[x]);
             ok ==> (DoneNow(pr) + {x}, s') in pr.seen
    ensures VarsOk(m, h, head, nodes, universe, linearized.Length, v', pr, held, cur + 1) && v'.calls == v.calls
  {
    SkipVars(m, entries, h, head, nodes, universe, linearized.Length, v, pr, held, cur, x, v.entry.next);
    v' := v.(entry := v.entry.next);
  }

  // The model accepts the call at the cursor: chooses it unless that leads to what has been seen.
  method TryChoice<S(==, !new), I, O>(ghost m: Model<S, I, O>, ghost entries: seq<Entry<I, O>>, ghost h: History<I, O>,
                                      head: Node<I, O>, ghost nodes: seq<Node<I, O>>, ghost universe: Configs<S>,
                                      ghost all: set<Node<I, O>>, linearized: array<Bitset.Word>, v: Vars<S, I, O>,
                                      ghost pr: Progress<S, I, O>, ghost held: set<CacheEntry<S>>, ghost cur: nat,
                                      x: nat, s': S)
    returns (v': Vars<S, I, O>, ghost pr': Progress<S, I, O>, ghost held': set<CacheEntry<S>>, ghost cur': nat)
    requires Regular(h) && x < |h.calls| && StandsAt(pr, cur, x) && pr.list[cur].pos == h.calls[x] && v.entry != null
    requires IsChoice(m, h, DoneNow(pr), pr.states[|pr.path|], x, s')
    requires Setting(m, entries, h, head, nodes, universe)
    requires VarsOk(m, h, head, nodes, universe, linearized.Length, v, pr, held, cur) && HeapOk(h, all, linearized, pr)
    modifies all, linearized
    ensures VarsOk(m, h, head, nodes, universe, linearized.Length, v', pr', held', cur') &&
            HeapOk(h, all, linearized, pr')
    ensures |universe - pr'.seen| < |universe - pr.seen| || (pr' == pr && v'.calls == v.calls && cur < cur')
  {
    var words := WithOperation(linearized, x);
    var e := CacheEntry(words, s');
    var found := CacheContains(v.cache, e, held);
    if !found {
      held', cur' := held + {e}, 1;
      v', pr' := Choose(m, entries, h, head, nodes, universe, all, linearized, v, pr, held, cur, x, e);
    } else {
      NotMissed(held, linearized.Length, pr.seen, e);
      pr', held', cur' := pr, held, cur + 1;
      v' := MoveOn(m, entries, h, head, nodes, universe, all, linearized, v, pr, held, cur, x);
    }
  }

  // Tries the call at the cursor: chooses it, or moves on when it is refused or already seen.
  method TryCall<S(==, !new), I, O>(m: Model<S, I, O>, ghost entries: seq<Entry<I, O>>, ghost h: History<I, O>,
                                    head: Node<I, O>, ghost nodes: seq<Node<I, O>>, ghost universe: Configs<S>,
                                    ghost all: set<Node<I, O>>, linearized: array<Bitset.Word>, v: Vars<S, I, O>,
                                    ghost pr: Progress<S, I, O>, ghost held: set<CacheEntry<S>>, ghost cur: nat)
    returns (v': Vars<S, I, O>, ghost pr': Progress<S, I, O>, ghost held': set<CacheEntry<S>>, ghost cur': nat)
    requires Setting(m, entries, h, head, nodes, universe) && |pr.list| > 1
    requires VarsOk(m, h, head, nodes, universe, linearized.Length, v, pr, held, cur) && HeapOk(h, all, linearized, pr)
    requires v.entry != null && v.entry.matching != null
    modifies all, linearized
    ensures VarsOk(m, h, head, nodes, universe, linearized.Length, v', pr', held', cur') &&
            HeapOk(h, all, linearized, pr')
    ensures |universe - pr'.seen| < |universe - pr.seen| || (pr' == pr && v'.calls == v.calls && cur < cur')
  {
    AtCall(m, entries, h, head, nodes, pr, cur);
    var x := v.entry.content.id;
    var (ok, s') := m.step(v.state, v.entry.content.input, v.entry.matching.content.output);
    if ok {
      v', pr', held', cur' := TryChoice(m, entries, h, head, nodes, universe, all, linearized, v, pr, held, cur, x, s');
    } else {
      pr', held', cur' := pr, held, cur + 1;
      v' := MoveOn(m, entries, h, head, nodes, universe, all, linearized, v, pr, held, cur, x);
    }
  }

  // The head goes before everything else.
  method AddHead<I, O>(root: Node?<I, O>, ghost nodes: seq<Node<I, O>>) returns (head: Node<I, O>)
    requires if nodes == [] then root == null else Linked(nodes) && root == nodes[0]
    modifies nodes
    ensures fresh(head) && IsHead(head) && Linked([head] + nodes)
  {
    head := new Node(Head, null, -1);
    InsertBefore(head, root, nodes, 0, [head] + nodes);
  }

  // Goes through the choices until nothing is left in the list or nothing is left to try.
  method Explore<S(==, !new), I, O>(m: Model<S, I, O>, ghost entries: seq<Entry<I, O>>, ghost h: History<I, O>,
                                    head: Node<I, O>, ghost nodes: seq<Node<I, O>>, ghost universe: Configs<S>,
                                    ghost all: set<Node<I, O>>, linearized: array<Bitset.Word>, start: Vars<S, I, O>,
                                    ghost from: Progress<S, I, O>)
    returns (ok: bool, order: seq<nat>)
    requires Setting(m, entries, h, head, nodes, universe)
    requires VarsOk(m, h, head, nodes, universe, linearized.Length, start, from, {}, 1) &&
             HeapOk(h, all, linearized, from)
    modifies all, linearized
    ensures ok <==> Linearizable(m, h)
    ensures ok ==> IsLinearization(m, h, order)
  {
    var v := start;
    ghost var pr, held, cur := from, {}, 1;
    while head.next != null
      invariant VarsOk(m, h, head, nodes, universe, linearized.Length, v, pr, held, cur) &&
                HeapOk(h, all, linearized, pr)
      decreases |universe - pr.seen|, |v.calls|, |pr.list| - cur
    {
      NextOfHead(h, head, nodes, all, pr);
      if v.entry.matching != null {
        v, pr, held, cur := TryCall(m, entries, h, head, nodes, universe, all, linearized, v, pr, held, cur);
      } else {
        AtReturn(m, entries, h, head, nodes, pr, cur);
        if v.calls == [] {
          NothingElse(m, h, pr);
          return false, [];
        }
        v, pr, cur := Backtrack(m, entries, h, head, nodes, universe, all, linearized, v, pr, held, cur);
      }
    }
    NextOfHead(h, head, nodes, all, pr);
    order := Identities(entries, h, head, nodes, v.calls, pr);
    Finished(m, entries, h, head, nodes, universe, pr);
    ok := true;
  }

  // Nothing chosen and nothing left to try.
  lemma NothingElse<S, I, O>(m: Model<S, I, O>, h: History<I, O>, pr: Progress<S, I, O>)
    requires Regular(h) && pr.path == [] && IsPath(m, h, pr.path, pr.states)
    requires !CanComplete(m, h, DoneNow(pr), pr.states[0])
    ensures !Linearizable(m, h)
  {
    assert DoneNow(pr) == {};
    SearchDecides(m, h);
  }

  // Nothing left in the list.
  lemma Finished<S, I, O>(m: Model<S, I, O>, entries: seq<Entry<I, O>>, h: History<I, O>, head: Node<I, O>,
                          nodes: seq<Node<I, O>>, universe: Configs<S>, pr: Progress<S, I, O>)
    requires Laid(entries, h) && AreNodes(entries, h, nodes) && |pr.list| == 1
    requires SearchOk(m, h, universe, pr) && ListsOk(h, head, nodes, pr)
    ensures IsLinearization(m, h, pr.path)
  {
    assert Live(head, nodes, ListAt(pr.levels, pr.list, |pr.path|), DoneNow(pr));
    NothingLeft(entries, h, head, nodes, pr.list, DoneNow(pr));
    PathIsLinearization(m, h, pr.path, pr.states);
  }

  /**
    The checker answers whether the history is linearizable, and when it is, in what order.
   */
  method CheckSingle<S(==, !new), I, O>(m: Model<S, I, O>, entries: seq<Entry<I, O>>, ghost h: History<I, O>)
    returns (ok: bool, order: seq<nat>)
    requires Laid(entries, h)
    ensures ok <==> Linearizable(m, h)
    ensures ok ==> IsLinearization(m, h, order)
  {
    var root;
    ghost var nodes;
    root, nodes := MakeLinkedEntries(entries, h);
    var n := Length(root, nodes);
    var linearized := Bitset.New(n / 2);
    var head := AddHead(root, nodes);
    ghost var universe := FiniteUniverse(m, h);
    ghost var pr := Progress([], [m.init], {}, [], [head] + nodes);
    var v := Vars(root, m.init, [], map[]);
    Beginning(m, entries, h, head, nodes, universe, linearized.Length, v, pr);
    BeginningHeap(h, linearized, pr);
    ok, order := Explore(m, entries, h, head, nodes, universe, (set x | x in pr.list), linearized, v, pr);
  }

  // The operations on the calls stack, in the order they were chosen.
  method Identities<S(==), I, O>(ghost entries: seq<Entry<I, O>>, ghost h: History<I, O>, ghost head: Node<I, O>,
                                 ghost nodes: seq<Node<I, O>>, calls: seq<CallsEntry<S, I, O>>,
                                 ghost pr: Progress<S, I, O>)
    returns (order: seq<nat>)
    requires Laid(entries, h) && AreNodes(entries, h, nodes) && ListsOk(h, head, nodes, pr) && CallsOk(calls, pr)
    ensures order == pr.path
  {
    order := [];
    for i := 0 to |calls|
      invariant order == pr.path[..i]
    {
      assert IsCallAt(h, nodes, pr.levels[i], pr.path[i]);
      assert LaidAt(entries, h, pr.path[i]) && IsNode(entries, h, nodes, h.calls[pr.path[i]]);
      order := order + [calls[i].entry.content.id];
    }
  }
}
