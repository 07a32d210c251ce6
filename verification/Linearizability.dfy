/**
  What it means for a concurrent history to be linearizable, and the same thing as a search:
  repeatedly choose an operation that no unfinished operation precedes.
 */
module Linearizability {
  import opened Sorting

  // A sequential specification.  `step` says whether the output is possible, and the next state.
  datatype Model<!S, !I, !O> = Model(init: S, step: (S, I, O) -> (bool, S))

  // Operation x takes inputs[x], answers outputs[x], and runs from calls[x] to rets[x].
  datatype History<I, O> = History(inputs: seq<I>, outputs: seq<O>, calls: seq<int>, rets: seq<int>)

  ghost predicate Regular<I, O>(h: History<I, O>) {
    && |h.inputs| == |h.outputs| == |h.calls| == |h.rets|
    && forall x: nat :: x < |h.calls| ==> h.calls[x] <= h.rets[x]
  }

  // a has returned before b is called.
  ghost predicate Precedes<I, O>(h: History<I, O>, a: nat, b: nat)
    requires Regular(h) && a < |h.calls| && b < |h.calls|
  {
    h.rets[a] < h.calls[b]
  }

  // ---------- Linearizability ----------

  ghost predicate Within(n: nat, order: seq<nat>) {
    forall i: nat :: i < |order| ==> order[i] < n
  }

  // An operation that precedes another in real time also precedes it in the order.
  ghost predicate RespectsTime<I, O>(h: History<I, O>, order: seq<nat>)
    requires Regular(h) && Within(|h.calls|, order)
  {
    forall i: nat, j: nat :: i < j < |order| ==> !Precedes(h, order[j], order[i])
  }

  ghost predicate Accepts<S, I, O>(m: Model<S, I, O>, h: History<I, O>, s: S, order: seq<nat>)
    requires Regular(h) && Within(|h.calls|, order)
    decreases |order|
  {
    order == [] ||
    var (ok, s') := m.step(s, h.inputs[order[0]], h.outputs[order[0]]);
    ok && Accepts(m, h, s', order[1..])
  }

  ghost predicate IsLinearization<S, I, O>(m: Model<S, I, O>, h: History<I, O>, order: seq<nat>)
    requires Regular(h)
  {
    IsPermutation(|h.calls|, order) && RespectsTime(h, order) && Accepts(m, h, m.init, order)
  }

  ghost predicate Linearizable<S, I, O>(m: Model<S, I, O>, h: History<I, O>)
    requires Regular(h)
  {
    exists order :: IsLinearization(m, h, order)
  }

  // ---------- The search ----------

  ghost predicate MayBeNext<I, O>(h: History<I, O>, done: set<nat>, x: nat)
    requires Regular(h)
  {
    && x < |h.calls| && x !in done
    && forall y: nat :: y < |h.calls| && y !in done ==> !Precedes(h, y, x)
  }

  ghost predicate Completes<S, I, O>(m: Model<S, I, O>, h: History<I, O>, done: set<nat>, s: S, rest: seq<nat>)
    requires Regular(h)
    decreases |rest|
  {
    if rest == [] then forall x: nat :: x < |h.calls| ==> x in done
    else
      && MayBeNext(h, done, rest[0])
      && var (ok, s') := m.step(s, h.inputs[rest[0]], h.outputs[rest[0]]);
         ok && Completes(m, h, done + {rest[0]}, s', rest[1..])
  }

  ghost predicate CanComplete<S, I, O>(m: Model<S, I, O>, h: History<I, O>, done: set<nat>, s: S)
    requires Regular(h)
  {
    exists rest :: Completes(m, h, done, s, rest)
  }

  // Choosing x next cannot lead to a linearization.
  ghost predicate DeadEnd<S, I, O>(m: Model<S, I, O>, h: History<I, O>, done: set<nat>, s: S, x: nat)
    requires Regular(h) && x < |h.calls|
  {
    var (ok, s') := m.step(s, h.inputs[x], h.outputs[x]);
    ok ==> !CanComplete(m, h, done + {x}, s')
  }

  // A completion starts with something that may be next and is no dead end.
  lemma CompletionStarts<S, I, O>(m: Model<S, I, O>, h: History<I, O>, done: set<nat>, s: S, rest: seq<nat>, left: nat)
    requires Regular(h) && left < |h.calls| && left !in done && Completes(m, h, done, s, rest)
    ensures rest != [] && MayBeNext(h, done, rest[0]) && !DeadEnd(m, h, done, s, rest[0])
  {
    var (ok, s') := m.step(s, h.inputs[rest[0]], h.outputs[rest[0]]);
    assert Completes(m, h, done + {rest[0]}, s', rest[1..]);
  }

  // If something is left to do and everything that may be next is a dead end, so is the whole.
  lemma StuckIfAllDead<S, I, O>(m: Model<S, I, O>, h: History<I, O>, done: set<nat>, s: S, left: nat)
    requires Regular(h) && left < |h.calls| && left !in done
    requires forall x: nat :: MayBeNext(h, done, x) ==> DeadEnd(m, h, done, s, x)
    ensures !CanComplete(m, h, done, s)
  {
    forall rest
      ensures !Completes(m, h, done, s, rest)
    {
      if Completes(m, h, done, s, rest) {
        CompletionStarts(m, h, done, s, rest, left);
      }
    }
  }

  // ---------- The two agree ----------

  // rest holds each operation outside done once.
  ghost predicate IsRest(n: nat, done: set<nat>, rest: seq<nat>) {
    && (forall i: nat :: i < |rest| ==> rest[i] < n && rest[i] !in done)
    && (forall i: nat, j: nat :: i < j < |rest| ==> rest[i] != rest[j])
    && forall x: nat :: x < n && x !in done ==> x in rest
  }

  lemma RestShrinks(n: nat, done: set<nat>, rest: seq<nat>)
    requires rest != []
    ensures IsRest(n, done, rest) <==> rest[0] < n && rest[0] !in done && IsRest(n, done + {rest[0]}, rest[1..])
  {
    if IsRest(n, done, rest) {
      DropFirst(n, done, rest);
    }
    if rest[0] < n && rest[0] !in done && IsRest(n, done + {rest[0]}, rest[1..]) {
      AddFirst(n, done, rest);
    }
  }

  lemma DropFirst(n: nat, done: set<nat>, rest: seq<nat>)
    requires rest != [] && IsRest(n, done, rest)
    ensures IsRest(n, done + {rest[0]}, rest[1..])
  {
    forall x: nat | x < n && x !in done + {rest[0]}
      ensures x in rest[1..]
    {
      assert x in rest;
    }
  }

  lemma AddFirst(n: nat, done: set<nat>, rest: seq<nat>)
    requires rest != [] && rest[0] < n && rest[0] !in done && IsRest(n, done + {rest[0]}, rest[1..])
    ensures IsRest(n, done, rest)
  {
    var tail := rest[1..];
    forall i: nat | 0 < i < |rest|
      ensures rest[i] == tail[i - 1] && rest[i] < n && rest[i] !in done && rest[i] != rest[0]
    {
    }
    forall x: nat | x < n && x !in done
      ensures x in rest
    {
      assert x != rest[0] ==> x in tail;
    }
  }

  lemma TimeShrinks<I, O>(h: History<I, O>, done: set<nat>, rest: seq<nat>)
    requires Regular(h) && rest != [] && IsRest(|h.calls|, done, rest)
    ensures RespectsTime(h, rest) <==> MayBeNext(h, done, rest[0]) && RespectsTime(h, rest[1..])
  {
    var tail := rest[1..];
    if RespectsTime(h, rest) {
      forall y: nat | y < |h.calls| && y !in done
        ensures !Precedes(h, y, rest[0])
      {
        var k :| 0 <= k < |rest| && rest[k] == y;
      }
    }
    if MayBeNext(h, done, rest[0]) && RespectsTime(h, tail) {
      forall i: nat, j: nat | i < j < |rest|
        ensures !Precedes(h, rest[j], rest[i])
      {
        if i > 0 {
          assert rest[i] == tail[i - 1] && rest[j] == tail[j - 1];
        }
      }
    }
  }

  lemma {:induction false} CompletesIff<S, I, O>(m: Model<S, I, O>, h: History<I, O>, done: set<nat>, s: S,
                                                 rest: seq<nat>)
    requires Regular(h)
    ensures Completes(m, h, done, s, rest) <==>
            IsRest(|h.calls|, done, rest) && RespectsTime(h, rest) && Accepts(m, h, s, rest)
    decreases |rest|
  {
    if rest != [] {
      RestShrinks(|h.calls|, done, rest);
      if rest[0] < |h.calls| {
        var (ok, s') := m.step(s, h.inputs[rest[0]], h.outputs[rest[0]]);
        CompletesIff(m, h, done + {rest[0]}, s', rest[1..]);
        if IsRest(|h.calls|, done, rest) {
          TimeShrinks(h, done, rest);
        }
      }
    }
  }

  /** A history is linearizable exactly when the search from nothing can complete. */
  lemma SearchDecides<S, I, O>(m: Model<S, I, O>, h: History<I, O>)
    requires Regular(h)
    ensures Linearizable(m, h) <==> CanComplete(m, h, {}, m.init)
  {
    forall order
      ensures IsLinearization(m, h, order) <==> Completes(m, h, {}, m.init, order)
    {
      CompletesIff(m, h, {}, m.init, order);
    }
  }

  // Only who precedes whom matters, not the times themselves.
  lemma SamePrecedence<S, I, O>(m: Model<S, I, O>, h: History<I, O>, g: History<I, O>)
    requires Regular(h) && Regular(g) && g.inputs == h.inputs && g.outputs == h.outputs
    requires forall a: nat, b: nat :: a < |h.calls| && b < |h.calls| ==> (Precedes(h, a, b) <==> Precedes(g, a, b))
    ensures Linearizable(m, h) <==> Linearizable(m, g)
  {
    forall order | IsPermutation(|h.calls|, order)
      ensures IsLinearization(m, h, order) <==> IsLinearization(m, g, order)
    {
      SameAcceptance(m, h, g, m.init, order);
    }
  }

  lemma {:induction false} SameAcceptance<S, I, O>(m: Model<S, I, O>, h: History<I, O>, g: History<I, O>, s: S,
                                                   order: seq<nat>)
    requires Regular(h) && Regular(g) && g.inputs == h.inputs && g.outputs == h.outputs
    requires Within(|h.calls|, order)
    ensures Accepts(m, h, s, order) <==> Accepts(m, g, s, order)
    decreases |order|
  {
    if order != [] {
      var (_, s') := m.step(s, h.inputs[order[0]], h.outputs[order[0]]);
      SameAcceptance(m, h, g, s', order[1..]);
    }
  }
}
