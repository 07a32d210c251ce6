/**
  The state of the checker's backtracking search, without the data structures: a path of chosen
  operations, how far the alternatives at each choice have been tried, and the configurations that
  are remembered.  Each kind of move keeps what makes the search sound, complete and finite.
 */
module Search {
  import opened Linearizability

  ghost function Done(path: seq<nat>, d: nat): set<nat>
    requires d <= |path|
  {
    set x | x in path[..d]
  }

  // Every choice on the path was allowed and led to the next state.
  ghost predicate IsPath<S, I, O>(m: Model<S, I, O>, h: History<I, O>, path: seq<nat>, states: seq<S>)
    requires Regular(h)
  {
    && |states| == |path| + 1 && states[0] == m.init
    && forall d: nat :: d < |path| ==> IsChoice(m, h, Done(path, d), states[d], path[d], states[d + 1])
  }

  ghost predicate IsChoice<S, I, O>(m: Model<S, I, O>, h: History<I, O>, done: set<nat>, s: S, x: nat, s': S)
    requires Regular(h)
  {
    MayBeNext(h, done, x) && m.step(s, h.inputs[x], h.outputs[x]) == (true, s')
  }

  // Whatever may be next and is called before `limit` is a dead end.
  ghost predicate Tried<S, I, O>(m: Model<S, I, O>, h: History<I, O>, done: set<nat>, s: S, limit: int)
    requires Regular(h)
  {
    forall x: nat :: MayBeNext(h, done, x) && h.calls[x] < limit ==> DeadEnd(m, h, done, s, x)
  }

  ghost predicate PathTried<S, I, O>(m: Model<S, I, O>, h: History<I, O>, path: seq<nat>, states: seq<S>)
    requires Regular(h) && IsPath(m, h, path, states)
  {
    forall d: nat :: d < |path| ==> LevelTried(m, h, path, states, d)
  }

  ghost predicate LevelTried<S, I, O>(m: Model<S, I, O>, h: History<I, O>, path: seq<nat>, states: seq<S>, d: nat)
    requires Regular(h) && IsPath(m, h, path, states) && d < |path|
  {
    IsChoice(m, h, Done(path, d), states[d], path[d], states[d + 1]) &&
    Tried(m, h, Done(path, d), states[d], h.calls[path[d]])
  }

  // No unfinished operation returns before `limit`.
  ghost predicate NoReturnBefore<I, O>(h: History<I, O>, done: set<nat>, limit: int)
    requires Regular(h)
  {
    forall y: nat :: y < |h.rets| && y !in done ==> limit <= h.rets[y]
  }

  ghost predicate OnPath<S>(path: seq<nat>, states: seq<S>, c: (set<nat>, S))
    requires |states| == |path| + 1
  {
    exists d: nat :: 0 < d <= |path| && c == (Done(path, d), states[d])
  }

  // A remembered configuration is hopeless or on the current path.
  ghost predicate CacheOk<S, I, O>(m: Model<S, I, O>, h: History<I, O>, path: seq<nat>, states: seq<S>,
                                   cache: set<(set<nat>, S)>)
    requires Regular(h) && |states| == |path| + 1
  {
    forall c :: c in cache ==> !CanComplete(m, h, c.0, c.1) || OnPath(path, states, c)
  }

  // ---------- What can ever be remembered ----------

  type Configs<!S(==)> = set<(set<nat>, S)>

  // A finite set that holds the configuration at the end of every path.
  ghost predicate Covers<S(!new), I, O>(m: Model<S, I, O>, h: History<I, O>, universe: Configs<S>)
    requires Regular(h)
  {
    forall path, states :: IsPath(m, h, path, states) ==> (Done(path, |path|), states[|path|]) in universe
  }

  ghost function Choices<S, I, O>(m: Model<S, I, O>, h: History<I, O>, from: Configs<S>): Configs<S>
    requires Regular(h)
  {
    set c, x: nat | c in from && x < |h.calls| :: (c.0 + {x}, m.step(c.1, h.inputs[x], h.outputs[x]).1)
  }

  // f adds every configuration one choice away.
  ghost predicate AddsChoices<S(!new), I, O>(m: Model<S, I, O>, h: History<I, O>, f: Configs<S> -> Configs<S>)
    requires Regular(h)
  {
    forall from, done, s, x: nat :: (done, s) in from && x < |h.calls| ==>
      (done + {x}, m.step(s, h.inputs[x], h.outputs[x]).1) in f(from)
  }

  // What at most k rounds of f lead to.
  ghost function Rounds<T>(f: set<T> -> set<T>, start: set<T>, k: nat): set<T> {
    if k == 0 then start else Rounds(f, start, k - 1) + f(Rounds(f, start, k - 1))
  }

  lemma {:induction false} RoundsGrow<T>(f: set<T> -> set<T>, start: set<T>, k: nat, n: nat)
    requires k <= n
    ensures Rounds(f, start, k) <= Rounds(f, start, n)
    decreases n
  {
    if k < n {
      RoundsGrow(f, start, k, n - 1);
    }
  }

  lemma {:induction false} PathReaches<S(!new), I, O>(m: Model<S, I, O>, h: History<I, O>, f: Configs<S> -> Configs<S>,
                                                path: seq<nat>, states: seq<S>, d: nat)
    requires Regular(h) && IsPath(m, h, path, states) && d <= |path| && AddsChoices(m, h, f)
    ensures (Done(path, d), states[d]) in Rounds(f, {({}, m.init)}, d)
  {
    if d > 0 {
      PathReaches(m, h, f, path, states, d - 1);
      DoneGrows(path, d - 1);
      assert IsChoice(m, h, Done(path, d - 1), states[d - 1], path[d - 1], states[d]);
      assert (Done(path, d), states[d]) in f(Rounds(f, {({}, m.init)}, d - 1));
    } else {
      assert Done(path, 0) == {};
    }
  }

  lemma FiniteUniverse<S(!new), I, O>(m: Model<S, I, O>, h: History<I, O>) returns (universe: Configs<S>)
    requires Regular(h)
    ensures Covers(m, h, universe)
  {
    var f := (from: Configs<S>) => Choices(m, h, from);
    assert AddsChoices(m, h, f);
    universe := Rounds(f, {({}, m.init)}, |h.calls|);
    forall path, states | IsPath(m, h, path, states)
      ensures (Done(path, |path|), states[|path|]) in universe
    {
      PathIsBounded(m, h, path, states);
      PathReaches(m, h, f, path, states, |path|);
      RoundsGrow(f, {({}, m.init)}, |path|, |h.calls|);
    }
  }

  lemma DoneGrows(path: seq<nat>, d: nat)
    requires d < |path|
    ensures Done(path, d + 1) == Done(path, d) + {path[d]}
  {
    assert path[..d + 1] == path[..d] + [path[d]];
  }

  lemma DonePrefix(path: seq<nat>, more: seq<nat>, d: nat)
    requires d <= |path| && path <= more
    ensures Done(more, d) == Done(path, d)
  {
    assert more[..d] == path[..d];
  }

  lemma ChosenAt<S, I, O>(m: Model<S, I, O>, h: History<I, O>, path: seq<nat>, states: seq<S>, d: nat)
    requires Regular(h) && IsPath(m, h, path, states) && d < |path|
    ensures path[d] < |h.calls| && path[d] !in Done(path, d)
  {
    assert IsChoice(m, h, Done(path, d), states[d], path[d], states[d + 1]);
  }

  // A path chooses each operation once, so it is no longer than the history.
  lemma {:induction false} PathIsShort<S, I, O>(m: Model<S, I, O>, h: History<I, O>, path: seq<nat>, states: seq<S>,
                                                d: nat)
    requires Regular(h) && IsPath(m, h, path, states) && d <= |path|
    ensures |Done(path, d)| == d && forall x :: x in Done(path, d) ==> x < |h.calls|
  {
    if d > 0 {
      PathIsShort(m, h, path, states, d - 1);
      ChosenAt(m, h, path, states, d - 1);
      DoneGrows(path, d - 1);
    } else {
      assert Done(path, 0) == {};
    }
  }

  lemma {:induction false} Bounded(n: nat, s: set<nat>)
    requires forall x :: x in s ==> x < n
    ensures |s| <= n
  {
    if n > 0 {
      Bounded(n - 1, s - {n - 1});
    } else {
      assert s == {};
    }
  }

  lemma PathIsBounded<S, I, O>(m: Model<S, I, O>, h: History<I, O>, path: seq<nat>, states: seq<S>)
    requires Regular(h) && IsPath(m, h, path, states)
    ensures |path| <= |h.calls|
  {
    PathIsShort(m, h, path, states, |path|);
    Bounded(|h.calls|, Done(path, |path|));
  }

  // ---------- Moves ----------

  // A call reached with no return before it may be next.
  lemma ReachedCall<I, O>(h: History<I, O>, done: set<nat>, x: nat)
    requires Regular(h) && x < |h.calls| && x !in done && NoReturnBefore(h, done, h.calls[x])
    ensures MayBeNext(h, done, x)
  {
  }

  // The configuration after choosing x, if remembered, is hopeless: every path configuration is smaller.
  lemma RememberedIsDead<S, I, O>(m: Model<S, I, O>, h: History<I, O>, path: seq<nat>, states: seq<S>,
                                  cache: set<(set<nat>, S)>, x: nat, s': S)
    requires Regular(h) && IsPath(m, h, path, states) && CacheOk(m, h, path, states, cache)
    requires MayBeNext(h, Done(path, |path|), x) && (Done(path, |path|) + {x}, s') in cache
    ensures !CanComplete(m, h, Done(path, |path|) + {x}, s')
  {
    var c := (Done(path, |path|) + {x}, s');
    PathIsShort(m, h, path, states, |path|);
    assert |c.0| == |path| + 1;
    forall d: nat | 0 < d <= |path|
      ensures c.0 != Done(path, d)
    {
      PathIsShort(m, h, path, states, d);
    }
  }

  lemma PushPath<S, I, O>(m: Model<S, I, O>, h: History<I, O>, path: seq<nat>, states: seq<S>, x: nat, s': S)
    requires Regular(h) && IsPath(m, h, path, states)
    requires IsChoice(m, h, Done(path, |path|), states[|path|], x, s')
    ensures IsPath(m, h, path + [x], states + [s'])
    ensures Done(path + [x], |path| + 1) == Done(path, |path|) + {x}
  {
    var path', states' := path + [x], states + [s'];
    forall d: nat | d < |path'|
      ensures IsChoice(m, h, Done(path', d), states'[d], path'[d], states'[d + 1])
    {
      DonePrefix(path, path', d);
      assert d < |path| ==> IsChoice(m, h, Done(path, d), states[d], path[d], states[d + 1]);
    }
    DonePrefix(path, path', |path|);
    DoneGrows(path', |path|);
  }

  lemma PushTried<S, I, O>(m: Model<S, I, O>, h: History<I, O>, path: seq<nat>, states: seq<S>, x: nat, s': S)
    requires Regular(h) && IsPath(m, h, path, states) && PathTried(m, h, path, states)
    requires IsChoice(m, h, Done(path, |path|), states[|path|], x, s')
    requires Tried(m, h, Done(path, |path|), states[|path|], h.calls[x])
    ensures IsPath(m, h, path + [x], states + [s']) && PathTried(m, h, path + [x], states + [s'])
  {
    var path', states' := path + [x], states + [s'];
    PushPath(m, h, path, states, x, s');
    forall d: nat | d < |path'|
      ensures LevelTried(m, h, path', states', d)
    {
      DonePrefix(path, path', d);
      assert d < |path| ==> LevelTried(m, h, path, states, d);
    }
  }

  lemma PushCache<S, I, O>(m: Model<S, I, O>, h: History<I, O>, path: seq<nat>, states: seq<S>,
                           cache: set<(set<nat>, S)>, x: nat, s': S)
    requires Regular(h) && |states| == |path| + 1 && CacheOk(m, h, path, states, cache)
    ensures CacheOk(m, h, path + [x], states + [s'], cache + {(Done(path, |path|) + {x}, s')})
  {
    var path', states' := path + [x], states + [s'];
    var c' := (Done(path, |path|) + {x}, s');
    DonePrefix(path, path', |path|);
    DoneGrows(path', |path|);
    assert c' == (Done(path', |path'|), states'[|path'|]);
    assert OnPath(path', states', c');
    forall c | c in cache + {c'}
      ensures !CanComplete(m, h, c.0, c.1) || OnPath(path', states', c)
    {
      if c in cache && OnPath(path, states, c) {
        var d: nat :| 0 < d <= |path| && c == (Done(path, d), states[d]);
        DonePrefix(path, path', d);
        assert c == (Done(path', d), states'[d]);
      }
    }
  }

  // A return is reached although everything before it is a dead end.
  lemma ReturnReached<S, I, O>(m: Model<S, I, O>, h: History<I, O>, done: set<nat>, s: S, y: nat)
    requires Regular(h) && y < |h.calls| && y !in done
    requires Tried(m, h, done, s, h.rets[y]) && forall x: nat :: x < |h.calls| ==> h.calls[x] != h.rets[y]
    ensures !CanComplete(m, h, done, s)
  {
    forall x: nat | MayBeNext(h, done, x)
      ensures DeadEnd(m, h, done, s, x)
    {
      assert !Precedes(h, y, x);
    }
    StuckIfAllDead(m, h, done, s, y);
  }

  lemma PopPath<S, I, O>(m: Model<S, I, O>, h: History<I, O>, path: seq<nat>, states: seq<S>)
    requires Regular(h) && IsPath(m, h, path, states) && PathTried(m, h, path, states) && path != []
    ensures var p := path[..|path| - 1];
            var t := states[..|path|];
            && IsPath(m, h, p, t) && PathTried(m, h, p, t)
            && Done(path, |path|) == Done(p, |p|) + {path[|p|]}
            && IsChoice(m, h, Done(p, |p|), t[|p|], path[|p|], states[|path|])
            && Tried(m, h, Done(p, |p|), t[|p|], h.calls[path[|p|]])
  {
    var p, t := path[..|path| - 1], states[..|path|];
    forall d: nat | d < |p|
      ensures IsChoice(m, h, Done(p, d), t[d], p[d], t[d + 1]) && Done(p, d) == Done(path, d)
    {
      DonePrefix(p, path, d);
      assert IsChoice(m, h, Done(path, d), states[d], path[d], states[d + 1]);
    }
    forall d: nat | d < |p|
      ensures LevelTried(m, h, p, t, d)
    {
      assert LevelTried(m, h, path, states, d);
    }
    DonePrefix(p, path, |p|);
    DoneGrows(path, |p|);
    assert LevelTried(m, h, path, states, |p|);
  }

  lemma PopCache<S, I, O>(m: Model<S, I, O>, h: History<I, O>, path: seq<nat>, states: seq<S>,
                          cache: set<(set<nat>, S)>)
    requires Regular(h) && |states| == |path| + 1 && path != [] && CacheOk(m, h, path, states, cache)
    requires !CanComplete(m, h, Done(path, |path|), states[|path|])
    ensures CacheOk(m, h, path[..|path| - 1], states[..|path|], cache)
  {
    var p, t := path[..|path| - 1], states[..|path|];
    forall c | c in cache
      ensures !CanComplete(m, h, c.0, c.1) || OnPath(p, t, c)
    {
      if OnPath(path, states, c) {
        var d: nat :| 0 < d <= |path| && c == (Done(path, d), states[d]);
        if d < |path| {
          DonePrefix(p, path, d);
          assert c == (Done(p, d), t[d]);
        }
      }
    }
  }

  // When everything is done the path is a linearization.
  lemma {:induction false} PathCompletes<S, I, O>(m: Model<S, I, O>, h: History<I, O>, path: seq<nat>, states: seq<S>,
                                                  d: nat)
    requires Regular(h) && IsPath(m, h, path, states) && d <= |path|
    requires forall x: nat :: x < |h.calls| ==> x in Done(path, |path|)
    ensures Completes(m, h, Done(path, d), states[d], path[d..])
    decreases |path| - d
  {
    if d < |path| {
      PathCompletes(m, h, path, states, d + 1);
      DoneGrows(path, d);
      assert IsChoice(m, h, Done(path, d), states[d], path[d], states[d + 1]);
      assert path[d..][0] == path[d] && path[d..][1..] == path[d + 1..];
    }
  }

  lemma PathIsLinearization<S, I, O>(m: Model<S, I, O>, h: History<I, O>, path: seq<nat>, states: seq<S>)
    requires Regular(h) && IsPath(m, h, path, states)
    requires forall x: nat :: x < |h.calls| ==> x in Done(path, |path|)
    ensures IsLinearization(m, h, path)
  {
    PathCompletes(m, h, path, states, 0);
    assert Done(path, 0) == {} && path[0..] == path;
    CompletesIff(m, h, {}, m.init, path);
  }
}
