/**
  The linearizability checker: a backtracking search over the linked list of calls and returns,
  with the configurations already seen kept in a hash table.
 */
module Checker {
  import opened Linearizability
  import opened Search
  import opened EntryList
  import opened LiveEntries
  import Bitset

  // ---------- Building the list ----------

  method MakeLinkedEntries<I, O>(entries: seq<Entry<I, O>>, ghost h: History<I, O>)
    returns (root: Node?<I, O>, ghost nodes: seq<Node<I, O>>)
    requires Laid(entries, h)
    ensures AreNodes(entries, h, nodes) && fresh(nodes)
    ensures if entries == [] then root == null else Linked(nodes) && root == nodes[0]
  {
    root, nodes := null, [];
    var matches: map<nat, Node<I, O>> := map[];
    var i := |entries|;
    while i > 0
      invariant 0 <= i <= |entries| && |nodes| == |entries| - i && fresh(nodes)
      invariant if nodes == [] then root == null else Linked(nodes) && root == nodes[0]
      invariant AreBuilt(entries, h, nodes, i) && HaveMatches(entries, nodes, i, matches)
    {
      i := i - 1;
      root, matches := PrependEntry(entries, h, nodes, root, i, matches);
      nodes := [root] + nodes;
    }
    AllBuilt(entries, h, nodes);
  }

  // Entry i goes before the entries after it.
  method PrependEntry<I, O>(entries: seq<Entry<I, O>>, ghost h: History<I, O>, ghost nodes: seq<Node<I, O>>,
                            root: Node?<I, O>, i: nat, matches: map<nat, Node<I, O>>)
    returns (n: Node<I, O>, matches': map<nat, Node<I, O>>)
    requires Laid(entries, h) && i < |entries| && |nodes| == |entries| - i - 1
    requires if nodes == [] then root == null else Linked(nodes) && root == nodes[0]
    requires AreBuilt(entries, h, nodes, i + 1) && HaveMatches(entries, nodes, i + 1, matches)
    modifies nodes
    ensures fresh(n) && Linked([n] + nodes)
    ensures AreBuilt(entries, h, [n] + nodes, i) && HaveMatches(entries, [n] + nodes, i, matches')
  {
    n, matches' := MakeNode(entries, h, nodes, i, matches);
    BuildOne(entries, h, nodes, i, n);
    InsertBefore(n, root, nodes, 0, [n] + nodes);
  }

  // The node for entry i; a call finds its return among the later entries.
  method MakeNode<I, O>(entries: seq<Entry<I, O>>, ghost h: History<I, O>, ghost nodes: seq<Node<I, O>>, i: nat,
                        matches: map<nat, Node<I, O>>)
    returns (n: Node<I, O>, matches': map<nat, Node<I, O>>)
    requires Laid(entries, h) && i < |entries| && |nodes| == |entries| - i - 1
    requires HaveMatches(entries, nodes, i + 1, matches)
    ensures fresh(n) && n.next == null && n.prev == null
    ensures IsBuilt(entries, h, [n] + nodes, i, i) && HaveMatches(entries, [n] + nodes, i, matches')
  {
    var elem := entries[i];
    matches' := matches;
    if elem.ReturnEntry? {
      n := new Node(Return(elem.id, elem.output), null, i);
      matches' := matches[elem.id := n];
      assert forall p: nat :: i < p < |entries| && entries[p].ReturnEntry? ==> entries[p].id != elem.id;
    } else {
      MatchIsThere(entries, h, nodes, i, matches);
      n := new Node(Call(elem.id, elem.input), matches[elem.id], i);
    }
  }

  lemma AllBuilt<I, O>(entries: seq<Entry<I, O>>, h: History<I, O>, nodes: seq<Node<I, O>>)
    requires Laid(entries, h) && |nodes| == |entries| && AreBuilt(entries, h, nodes, 0)
    ensures AreNodes(entries, h, nodes)
  {
    forall p: nat | p < |nodes|
      ensures IsNode(entries, h, nodes, p)
    {
      assert IsBuilt(entries, h, nodes, 0, p);
    }
  }

  // The node for position p, when the positions from i on have nodes.
  ghost predicate IsBuilt<I, O>(entries: seq<Entry<I, O>>, h: History<I, O>, nodes: seq<Node<I, O>>, i: nat, p: nat)
    requires Laid(entries, h) && i <= p < |entries| && |nodes| == |entries| - i
  {
    && nodes[p - i].pos == p
    && match entries[p]
       case CallEntry(id, input, _, _) =>
         LaidAt(entries, h, id) && nodes[p - i].content == Call(id, input) &&
         nodes[p - i].matching == nodes[h.rets[id] - i]
       case ReturnEntry(id, output, _, _) => nodes[p - i].content == Return(id, output) && nodes[p - i].matching == null
  }

  ghost predicate AreBuilt<I, O>(entries: seq<Entry<I, O>>, h: History<I, O>, nodes: seq<Node<I, O>>, i: nat)
    requires Laid(entries, h) && i <= |entries| && |nodes| == |entries| - i
  {
    forall p: nat :: i <= p < |entries| ==> IsBuilt(entries, h, nodes, i, p)
  }

  // The returns built so far can be looked up.
  ghost predicate HaveMatches<I, O>(entries: seq<Entry<I, O>>, nodes: seq<Node<I, O>>, i: nat,
                                    matches: map<nat, Node<I, O>>)
    requires i <= |entries| && |nodes| == |entries| - i
  {
    forall p: nat :: i <= p < |entries| && entries[p].ReturnEntry? ==>
      entries[p].id in matches && matches[entries[p].id] == nodes[p - i]
  }

  lemma MatchIsThere<I, O>(entries: seq<Entry<I, O>>, h: History<I, O>, nodes: seq<Node<I, O>>, i: nat,
                           matches: map<nat, Node<I, O>>)
    requires Laid(entries, h) && i < |entries| && |nodes| == |entries| - i - 1 && entries[i].CallEntry?
    requires HaveMatches(entries, nodes, i + 1, matches)
    ensures var id := entries[i].id;
            id in matches && LaidAt(entries, h, id) && matches[id] == nodes[h.rets[id] - i - 1]
  {
    assert LaidAt(entries, h, entries[i].id);
  }

  lemma BuildOne<I, O>(entries: seq<Entry<I, O>>, h: History<I, O>, nodes: seq<Node<I, O>>, i: nat, n: Node<I, O>)
    requires Laid(entries, h) && i < |entries| && |nodes| == |entries| - i - 1 && AreBuilt(entries, h, nodes, i + 1)
    requires IsBuilt(entries, h, [n] + nodes, i, i)
    ensures AreBuilt(entries, h, [n] + nodes, i)
  {
    forall p: nat | i < p < |entries|
      ensures IsBuilt(entries, h, [n] + nodes, i, p)
    {
      assert IsBuilt(entries, h, nodes, i + 1, p);
    }
  }

  method Length<I, O>(start: Node?<I, O>, ghost list: seq<Node<I, O>>) returns (l: nat)
    requires if list == [] then start == null else Linked(list) && start == list[0]
    ensures l == |list|
  {
    l := 0;
    var n := start;
    while n != null
      invariant l <= |list| && n == if l < |list| then list[l] else null
      decreases |list| - l
    {
      n := n.next;
      l := l + 1;
    }
  }

  // ---------- The configurations seen ----------

  datatype CacheEntry<S> = CacheEntry(linearized: seq<Bitset.Word>, state: S)

  type Cache<!S> = map<Bitset.Word, seq<CacheEntry<S>>>

  // `held` is what the table holds, each entry in the bucket of its hash.
  ghost predicate Holds<S>(cache: Cache<S>, held: set<CacheEntry<S>>) {
    && (forall hash, e :: hash in cache && e in cache[hash] ==> e in held)
    && (forall e :: e in held ==> InBucket(cache, e))
  }

  ghost predicate InBucket<S>(cache: Cache<S>, e: CacheEntry<S>) {
    var hash := Bitset.HashOf(e.linearized);
    hash in cache && e in cache[hash]
  }

  // Looking in one bucket finds an entry exactly when the table holds it.
  method CacheContains<S(==)>(cache: Cache<S>, e: CacheEntry<S>, ghost held: set<CacheEntry<S>>) returns (found: bool)
    requires Holds(cache, held)
    ensures found <==> e in held
  {
    var hash := Bitset.Hash(e.linearized);
    var bucket := if hash in cache then cache[hash] else [];
    assert e in held ==> InBucket(cache, e);
    found := SearchBucket(bucket, e);
  }

  method SearchBucket<S(==)>(bucket: seq<CacheEntry<S>>, e: CacheEntry<S>) returns (found: bool)
    ensures found <==> e in bucket
  {
    var i := 0;
    while i < |bucket|
      invariant i <= |bucket|
      invariant forall j :: 0 <= j < i ==> bucket[j] != e
    {
      var equal := Bitset.Equals(e.linearized, bucket[i].linearized);
      if equal && e.state == bucket[i].state {
        return true;
      }
      i := i + 1;
    }
    return false;
  }

  function Add<S>(cache: Cache<S>, hash: Bitset.Word, e: CacheEntry<S>): Cache<S> {
    cache[hash := (if hash in cache then cache[hash] else []) + [e]]
  }

  lemma AddHolds<S>(cache: Cache<S>, e: CacheEntry<S>, held: set<CacheEntry<S>>, hash: Bitset.Word)
    requires Holds(cache, held) && hash == Bitset.HashOf(e.linearized)
    ensures Holds(Add(cache, hash, e), held + {e})
  {
    var cache' := Add(cache, hash, e);
    forall f | f in held + {e}
      ensures InBucket(cache', f)
    {
      assert f in held ==> InBucket(cache, f);
    }
  }

  ghost function Configuration<S>(e: CacheEntry<S>): (set<nat>, S) {
    (Bitset.Members(e.linearized), e.state)
  }

  // `seen` is the configurations that the held entries, all of one size, stand for.
  ghost predicate StandsFor<S>(held: set<CacheEntry<S>>, size: nat, seen: Configs<S>) {
    && (forall e :: e in held ==> |e.linearized| == size && Configuration(e) in seen)
    && (forall c :: c in seen ==> exists e :: e in held && Configuration(e) == c)
  }

  // An entry that is not held is a configuration not seen: the same members in the same number of
  // words are the same words.
  lemma NotMissed<S>(held: set<CacheEntry<S>>, size: nat, seen: Configs<S>, e: CacheEntry<S>)
    requires StandsFor(held, size, seen) && |e.linearized| == size
    ensures Configuration(e) in seen <==> e in held
  {
    if Configuration(e) in seen {
      var f :| f in held && Configuration(f) == Configuration(e);
      Bitset.SameMembers(f.linearized, e.linearized);
    }
  }

  lemma AddStandsFor<S>(held: set<CacheEntry<S>>, size: nat, seen: Configs<S>, e: CacheEntry<S>)
    requires StandsFor(held, size, seen) && |e.linearized| == size
    ensures StandsFor(held + {e}, size, seen + {Configuration(e)})
  {
    forall c | c in seen + {Configuration(e)}
      ensures exists f :: f in held + {e} && Configuration(f) == c
    {
      if c in seen {
        var f :| f in held && Configuration(f) == c;
        assert f in held + {e};
      } else {
        assert e in held + {e};
      }
    }
  }

  // ---------- The search ----------

  datatype CallsEntry<!S, !I, !O> = CallsEntry(entry: Node<I, O>, state: S)

  // What the search has done: the operations chosen, the state before each choice and now, what has
  // been seen, and the lists the operations were taken out of.
  datatype Progress<!S(==), !I, !O> = Progress(
    path: seq<nat>,
    states: seq<S>,
    seen: Configs<S>,
    levels: seq<Level<I, O>>,
    list: seq<Node<I, O>>)

  ghost function DoneNow<S, I, O>(pr: Progress<S, I, O>): set<nat> {
    Done(pr.path, |pr.path|)
  }

  ghost predicate SearchOk<S, I, O>(m: Model<S, I, O>, h: History<I, O>, universe: Configs<S>, pr: Progress<S, I, O>)
    requires Regular(h)
  {
    && IsPath(m, h, pr.path, pr.states) && PathTried(m, h, pr.path, pr.states)
    && CacheOk(m, h, pr.path, pr.states, pr.seen) && pr.seen <= universe
  }

  // At every depth the list holds exactly the entries of the operations not yet chosen there.
  ghost predicate ListsOk<S, I, O>(h: History<I, O>, head: Node<I, O>, nodes: seq<Node<I, O>>, pr: Progress<S, I, O>)
    requires Regular(h)
  {
    && |pr.levels| == |pr.path|
    && (forall d: nat :: d <= |pr.path| ==> Live(head, nodes, ListAt(pr.levels, pr.list, d), Done(pr.path, d)))
    && (forall d: nat :: d < |pr.path| ==> IsCallAt(h, nodes, pr.levels[d], pr.path[d]))
  }

  ghost predicate IsCallAt<I, O>(h: History<I, O>, nodes: seq<Node<I, O>>, l: Level<I, O>, x: nat)
    requires Regular(h)
  {
    x < |h.calls| && 0 <= h.calls[x] < |nodes| && 0 < l.k < |l.list| && l.list[l.k] == nodes[h.calls[x]]
  }

  ghost predicate CallsOk<S, I, O>(calls: seq<CallsEntry<S, I, O>>, pr: Progress<S, I, O>) {
    && |calls| == |pr.levels| && |pr.states| == |calls| + 1
    && forall d: nat :: d < |calls| ==>
         pr.levels[d].k < |pr.levels[d].list| &&
         calls[d] == CallsEntry(pr.levels[d].list[pr.levels[d].k], pr.states[d])
  }

  ghost function Chosen<S, I, O>(pr: Progress<S, I, O>, x: nat, s': S, l: Level<I, O>): Progress<S, I, O> {
    Progress(pr.path + [x], pr.states + [s'], pr.seen + {(DoneNow(pr) + {x}, s')}, pr.levels + [l], l.after)
  }

  ghost function Undone<S, I, O>(pr: Progress<S, I, O>): Progress<S, I, O>
    requires pr.path != [] && |pr.levels| == |pr.path| && |pr.states| == |pr.path| + 1
  {
    var d := |pr.path| - 1;
    Progress(pr.path[..d], pr.states[..d + 1], pr.seen, pr.levels[..d], pr.levels[d].list)
  }

  lemma ChooseKeepsSearch<S(!new), I, O>(m: Model<S, I, O>, h: History<I, O>, universe: Configs<S>,
                                         pr: Progress<S, I, O>, x: nat, s': S, l: Level<I, O>)
    requires Regular(h) && SearchOk(m, h, universe, pr) && Covers(m, h, universe)
    requires IsChoice(m, h, DoneNow(pr), pr.states[|pr.path|], x, s')
    requires Tried(m, h, DoneNow(pr), pr.states[|pr.path|], h.calls[x])
    ensures SearchOk(m, h, universe, Chosen(pr, x, s', l))
    ensures DoneNow(Chosen(pr, x, s', l)) == DoneNow(pr) + {x}
  {
    PushPath(m, h, pr.path, pr.states, x, s');
    PushTried(m, h, pr.path, pr.states, x, s');
    PushCache(m, h, pr.path, pr.states, pr.seen, x, s');
    assert (Done(pr.path + [x], |pr.path| + 1), (pr.states + [s'])[|pr.path| + 1]) in universe;
  }

  lemma ChooseKeepsLists<S, I, O>(h: History<I, O>, head: Node<I, O>, nodes: seq<Node<I, O>>, pr: Progress<S, I, O>,
                                  x: nat, s': S, l: Level<I, O>)
    requires Regular(h) && ListsOk(h, head, nodes, pr) && l.list == pr.list && IsCallAt(h, nodes, l, x)
    requires Live(head, nodes, l.after, DoneNow(pr) + {x})
    ensures ListsOk(h, head, nodes, Chosen(pr, x, s', l))
  {
    var pr' := Chosen(pr, x, s', l);
    forall d: nat | d <= |pr'.path|
      ensures Live(head, nodes, ListAt(pr'.levels, pr'.list, d), Done(pr'.path, d))
    {
      if d <= |pr.path| {
        DonePrefix(pr.path, pr'.path, d);
        assert Live(head, nodes, ListAt(pr.levels, pr.list, d), Done(pr.path, d));
      } else {
        DonePrefix(pr.path, pr'.path, |pr.path|);
        DoneGrows(pr'.path, |pr.path|);
      }
    }
  }

  lemma UndoKeepsSearch<S, I, O>(m: Model<S, I, O>, h: History<I, O>, universe: Configs<S>, pr: Progress<S, I, O>)
    requires Regular(h) && SearchOk(m, h, universe, pr) && pr.path != [] && |pr.levels| == |pr.path|
    requires !CanComplete(m, h, DoneNow(pr), pr.states[|pr.path|])
    ensures SearchOk(m, h, universe, Undone(pr))
    ensures var u, x := Undone(pr), pr.path[|pr.path| - 1];
            && DoneNow(pr) == DoneNow(u) + {x}
            && MayBeNext(h, DoneNow(u), x)
            && Tried(m, h, DoneNow(u), u.states[|u.path|], h.calls[x])
            && DeadEnd(m, h, DoneNow(u), u.states[|u.path|], x)
  {
    PopPath(m, h, pr.path, pr.states);
    PopCache(m, h, pr.path, pr.states, pr.seen);
  }

  lemma UndoKeepsLists<S, I, O>(h: History<I, O>, head: Node<I, O>, nodes: seq<Node<I, O>>, pr: Progress<S, I, O>)
    requires Regular(h) && ListsOk(h, head, nodes, pr) && pr.path != [] && |pr.states| == |pr.path| + 1
    ensures ListsOk(h, head, nodes, Undone(pr))
  {
    var u := Undone(pr);
    forall d: nat | d <= |u.path|
      ensures Live(head, nodes, ListAt(u.levels, u.list, d), Done(u.path, d))
    {
      DonePrefix(u.path, pr.path, d);
      assert Live(head, nodes, ListAt(pr.levels, pr.list, d), Done(pr.path, d));
    }
    forall d: nat | d < |u.path|
      ensures IsCallAt(h, nodes, u.levels[d], u.path[d])
    {
      assert IsCallAt(h, nodes, pr.levels[d], pr.path[d]);
    }
  }
}
