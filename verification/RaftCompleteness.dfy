/**
  What follows from the invariant in any one state: logs that share a term at an index agree up to
  it, every leader's log holds everything committed before its term, and two servers never commit
  different entries at one index.
 */
module RaftCompleteness {
  import opened RaftServer
  import opened RaftInvariant

  lemma PrefixesAgree(a: seq<Entry>, b: seq<Entry>, c: seq<Entry>)
    requires a <= c && b <= c && |a| <= |b|
    ensures a <= b
  {
    assert a == c[..|a|] == b[..|a|];
  }

  lemma PrefixTrans(a: seq<Entry>, b: seq<Entry>, c: seq<Entry>)
    requires a <= b && b <= c
    ensures a <= c
  {
  }

  // Two logs of the cluster that hold the same term at k are the same up to k.
  lemma LogsMatch(h: History, a: seq<Entry>, b: seq<Entry>, k: nat)
    requires LogOk(h, a) && LogOk(h, b)
    requires k < |a| && k < |b| && a[k].term == b[k].term
    ensures a[..k + 1] == b[..k + 1]
  {
    if k > 0 {
      assert EntryOk(h, a, k) && EntryOk(h, b, k);
    }
  }

  // Terms never decrease along a log.
  lemma TermsRise(n: nat, h: History, log: seq<Entry>, j: nat, k: nat)
    requires TermsOk(n, h) && LogOk(h, log) && j <= k < |log|
    ensures log[j].term <= log[k].term
  {
    if k > 0 {
      assert EntryOk(h, log, k);
      var t := log[k].term;
      assert ReignOk(n, h, t);
      assert log[j] == log[..k + 1][j] == h.terms[t].log[j];
    }
  }

  // The whole log is the beginning of what the leader of its last term had.
  lemma WholeLog(h: History, log: seq<Entry>)
    requires LogOk(h, log) && |log| > 1
    ensures LastTerm(log) in h.terms && log <= h.terms[LastTerm(log)].log
  {
    assert EntryOk(h, log, |log| - 1);
    assert log[..|log| - 1 + 1] == log;
  }

  lemma MajoritiesMeet(n: nat, A: set<nat>, B: set<nat>) returns (v: nat)
    requires forall x :: x in A + B ==> x < n
    requires 2 * |A| > n && 2 * |B| > n
    ensures v in A && v in B
  {
    AtMost(n, A + B);
    assert |A + B| == |A| + |B| - |A * B|;
    v :| v in A * B;
  }

  lemma {:induction false} AtMost(n: nat, A: set<nat>)
    requires forall x :: x in A ==> x < n
    ensures |A| <= n
  {
    if n > 0 {
      AtMost(n - 1, A - {n - 1});
    } else {
      assert A == {};
    }
  }

  lemma Smaller<T>(A: set<T>, B: set<T>)
    requires A <= B
    ensures |A| <= |B|
  {
    assert B == A + (B - A);
  }

  // A log at least as up-to-date as one that holds P, with no leader in between without P, holds P.
  lemma UpToDateKeeps(n: nat, h: History, t: nat, k: nat, voter: seq<Entry>, candidate: seq<Entry>)
    requires TermsOk(n, h) && LogOk(h, voter) && LogOk(h, candidate)
    requires t in h.terms && k < |h.terms[t].log| && h.terms[t].log[k].term == t
    requires h.terms[t].log[..k + 1] <= voter
    requires AtLeast(candidate, voter)
    requires forall u :: u in h.terms && t < u <= LastTerm(candidate) ==> h.terms[t].log[..k + 1] <= h.terms[u].startLog
    ensures h.terms[t].log[..k + 1] <= candidate
  {
    var P := h.terms[t].log[..k + 1];
    assert ReignOk(n, h, t);
    assert k >= 1;
    assert voter[k] == P[k];
    TermsRise(n, h, voter, k, |voter| - 1);
    var u, w := LastTerm(candidate), LastTerm(voter);
    assert t <= w <= u;
    forall j: nat | j <= k
      ensures P[j].term <= t
    {
      TermsRise(n, h, h.terms[t].log, j, k);
    }
    WholeLog(h, voter);
    WholeLog(h, candidate);
    if u == w {
      PrefixesAgree(voter, candidate, h.terms[u].log);
    } else {
      assert ReignOk(n, h, u);
      PrefixTrans(P, h.terms[u].startLog, h.terms[u].log);
      assert candidate[LastIndex(candidate)] == h.terms[u].log[LastIndex(candidate)];
      PrefixesAgree(P, candidate, h.terms[u].log);
    }
  }

  /**
    Leader Completeness: what the leader of t committed is in the log every later leader starts with.
   */
  lemma {:induction false} LeaderCompleteness(n: nat, h: History, t: nat, k: nat, T: nat)
    requires HistoryOk(n, h) && Committed(n, h, t, k)
    requires T in h.terms && t < T
    ensures h.terms[t].log[..k + 1] <= h.terms[T].startLog
    decreases T
  {
    var P := h.terms[t].log[..k + 1];
    forall u | u in h.terms && t < u < T
      ensures P <= h.terms[u].startLog
    {
      LeaderCompleteness(n, h, t, k, u);
    }
    assert ReignOk(n, h, T);
    var v := MajoritiesMeet(n, Ackers(h, n, t, k), h.terms[T].quorum);
    assert AckKeptByVotes(n, h, v, t);
    assert VotedInto(h.terms[T], h.ballots[(T, v)]);
    assert Counts(h, T, v);
    assert Kept(h, t, k, h.ballots[(T, v)].log, T);
    StartLogOk(n, h, T);
    assert LastTerm(h.terms[T].startLog) < T;
    UpToDateKeeps(n, h, t, k, h.ballots[(T, v)].log, h.terms[T].startLog);
  }

  lemma StartLogOk(n: nat, h: History, T: nat)
    requires TermsOk(n, h) && T in h.terms
    ensures LogOk(h, h.terms[T].startLog)
    ensures LastTerm(h.terms[T].startLog) < T
  {
    var r := h.terms[T];
    assert ReignOk(n, h, T);
    PrefixOk(h, r.startLog, r.log);
    assert r.startLog[|r.startLog| - 1] == r.log[|r.startLog| - 1];
  }

  lemma PrefixOk(h: History, log: seq<Entry>, whole: seq<Entry>)
    requires LogOk(h, whole) && 1 <= |log| && log <= whole
    ensures LogOk(h, log)
  {
    forall k: nat | 1 <= k < |log|
      ensures EntryOk(h, log, k)
    {
      assert EntryOk(h, whole, k);
      assert log[..k + 1] == whole[..k + 1];
    }
  }

  // Committed entries of t are in the log of every reign from t on.
  lemma CommittedIn(n: nat, h: History, t: nat, k: nat, T: nat)
    requires HistoryOk(n, h) && Committed(n, h, t, k)
    requires T in h.terms && t <= T
    ensures h.terms[t].log[..k + 1] <= h.terms[T].log
  {
    if t < T {
      LeaderCompleteness(n, h, t, k, T);
      assert ReignOk(n, h, T);
    }
  }

  // What a server of a leader's term has committed is in that leader's log.
  lemma CommittedInLeader(n: nat, h: History, log: seq<Entry>, commit: nat, term: nat)
    requires HistoryOk(n, h) && term in h.terms && commit < |log| && log[0] == GENESIS
    requires CommitOk(n, h, log, commit, term)
    ensures log[..commit + 1] <= h.terms[term].log
  {
    if commit > 0 {
      var t, k :| CommitWitness(n, h, log, commit, term, t, k);
      CommittedIn(n, h, t, k, term);
      PrefixesAgree(log[..commit + 1], h.terms[t].log[..k + 1], h.terms[t].log);
    } else {
      assert ReignOk(n, h, term);
    }
  }

  // Any two committed prefixes agree.
  lemma CommitsAgree(n: nat, h: History, t1: nat, k1: nat, t2: nat, k2: nat, index: nat)
    requires HistoryOk(n, h) && Committed(n, h, t1, k1) && Committed(n, h, t2, k2)
    requires index <= k1 && index <= k2
    ensures h.terms[t1].log[index] == h.terms[t2].log[index]
  {
    var P1, P2 := h.terms[t1].log[..k1 + 1], h.terms[t2].log[..k2 + 1];
    if t1 <= t2 {
      CommittedIn(n, h, t1, k1, t2);
      assert P1[index] == h.terms[t2].log[index];
    } else {
      CommittedIn(n, h, t2, k2, t1);
      assert P2[index] == h.terms[t1].log[index];
    }
  }
}
