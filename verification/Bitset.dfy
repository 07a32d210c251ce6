/**
  The bit set of the linearizability checker: 64 members to a word.  Every operation is specified
  by what it does to the set of members.  A machine word is its 64 bits, lowest first.
 */
module Bitset {

  type Word = bits: seq<bool> | |bits| == 64 witness seq(64, _ => false)

  const ZERO: Word := seq(64, _ => false)

  predicate Has(words: seq<Word>, pos: nat) {
    pos / 64 < |words| && words[pos / 64][pos % 64]
  }

  ghost function Members(words: seq<Word>): set<nat> {
    set pos: nat | pos < 64 * |words| && Has(words, pos)
  }

  lemma MemberIff(words: seq<Word>, pos: nat)
    ensures pos in Members(words) <==> Has(words, pos)
  {
  }

  // Two bit sets of one size with the same members are word for word the same.
  lemma SameMembers(a: seq<Word>, b: seq<Word>)
    requires |a| == |b|
    ensures Members(a) == Members(b) <==> a == b
  {
    if Members(a) == Members(b) {
      forall k, i | 0 <= k < |a| && 0 <= i < 64
        ensures a[k][i] == b[k][i]
      {
        var pos := 64 * k + i;
        assert pos / 64 == k && pos % 64 == i;
        MemberIff(a, pos);
        MemberIff(b, pos);
      }
      forall k | 0 <= k < |a|
        ensures a[k] == b[k]
      {
      }
    }
  }

  method New(bits: nat) returns (b: array<Word>)
    ensures fresh(b) && Members(b[..]) == {}
    ensures forall pos: nat :: pos < bits ==> pos / 64 < b.Length
  {
    var extra := 0;
    if bits % 64 != 0 {
      extra := 1;
    }
    b := new Word[bits / 64 + extra](_ => ZERO);
  }

  method Clone(b: array<Word>) returns (copy: array<Word>)
    ensures fresh(copy) && copy[..] == b[..]
  {
    copy := new Word[b.Length](_ => ZERO);
    var i := 0;
    while i < b.Length
      invariant i <= b.Length && copy[..i] == b[..i]
    {
      copy[i] := b[i];
      i := i + 1;
    }
  }

  // Writing one bit adds or removes one member.
  lemma WriteMembers(words: seq<Word>, pos: nat, value: bool)
    requires pos / 64 < |words|
    ensures Members(words[pos / 64 := words[pos / 64][pos % 64 := value]]) ==
            if value then Members(words) + {pos} else Members(words) - {pos}
  {
    var words' := words[pos / 64 := words[pos / 64][pos % 64 := value]];
    forall p: nat
      ensures p in Members(words') <==> if p == pos then value else p in Members(words)
    {
      MemberIff(words', p);
      MemberIff(words, p);
      assert p == 64 * (p / 64) + p % 64 && pos == 64 * (pos / 64) + pos % 64;
    }
  }

  method Set(b: array<Word>, pos: nat)
    requires pos / 64 < b.Length
    modifies b
    ensures Members(b[..]) == old(Members(b[..])) + {pos}
  {
    var major, minor := pos / 64, pos % 64;
    WriteMembers(b[..], pos, true);
    b[major] := b[major][minor := true];
    assert b[..] == old(b[..])[major := old(b[major])[minor := true]];
  }

  method Clear(b: array<Word>, pos: nat)
    requires pos / 64 < b.Length
    modifies b
    ensures Members(b[..]) == old(Members(b[..])) - {pos}
  {
    var major, minor := pos / 64, pos % 64;
    WriteMembers(b[..], pos, false);
    b[major] := b[major][minor := false];
    assert b[..] == old(b[..])[major := old(b[major])[minor := false]];
  }

  method Get(b: array<Word>, pos: nat) returns (present: bool)
    requires pos / 64 < b.Length
    ensures present <==> pos in Members(b[..])
  {
    MemberIff(b[..], pos);
    present := b[pos / 64][pos % 64];
  }

  // Equal as sets, not only as words; sets of different sizes are told apart first.
  method Equals(a: seq<Word>, b: seq<Word>) returns (equal: bool)
    ensures equal <==> a == b
    ensures equal <==> |a| == |b| && Members(a) == Members(b)
  {
    if |a| != |b| {
      return false;
    }
    SameMembers(a, b);
    var i := 0;
    while i < |a|
      invariant i <= |a| && a[..i] == b[..i]
    {
      if a[i] != b[i] {
        return false;
      }
      i := i + 1;
    }
    return true;
  }

  // ---------- Counting and hashing ----------

  // The number of bits set among the lowest k.
  function OnesCount(word: Word, k: nat): nat
    requires k <= 64
  {
    if k == 0 then 0 else OnesCount(word, k - 1) + if word[k - 1] then 1 else 0
  }

  ghost function Below(words: seq<Word>, pos: nat): set<nat> {
    set p: nat | p < pos && Has(words, p)
  }

  lemma {:induction false} OnesCountCounts(words: seq<Word>, major: nat, k: nat)
    requires major < |words| && k <= 64
    ensures |Below(words, 64 * major + k)| == |Below(words, 64 * major)| + OnesCount(words[major], k)
  {
    if k > 0 {
      OnesCountCounts(words, major, k - 1);
      var pos := 64 * major + k - 1;
      assert pos / 64 == major && pos % 64 == k - 1;
      if words[major][k - 1] {
        assert Below(words, pos + 1) == Below(words, pos) + {pos};
      } else {
        assert Below(words, pos + 1) == Below(words, pos);
      }
    }
  }

  method Popcnt(words: seq<Word>) returns (total: nat)
    ensures total == |Members(words)|
  {
    total := 0;
    var i := 0;
    assert Below(words, 0) == {};
    while i < |words|
      invariant i <= |words| && total == |Below(words, 64 * i)|
    {
      OnesCountCounts(words, i, 64);
      total := total + OnesCount(words[i], 64);
      i := i + 1;
    }
    assert Below(words, 64 * i) == Members(words);
  }

  // The lowest 64 binary digits of n, from the one of weight 2^i on.
  function Digits(n: nat, i: nat): seq<bool>
    requires i <= 64
    ensures |Digits(n, i)| == 64 - i
    decreases 64 - i
  {
    if i == 64 then [] else [n % 2 == 1] + Digits(n / 2, i + 1)
  }

  function Xor(a: Word, b: Word): Word {
    seq(64, i requires 0 <= i < 64 => a[i] != b[i])
  }

  function XorAll(start: Word, words: seq<Word>): Word {
    if words == [] then start else Xor(XorAll(start, words[..|words| - 1]), words[|words| - 1])
  }

  ghost function HashOf(words: seq<Word>): Word {
    XorAll(Digits(|Members(words)|, 0), words)
  }

  function Pow2(k: nat): nat {
    if k == 0 then 1 else 2 * Pow2(k - 1)
  }

  // The number with these binary digits, lowest first.
  function Value(bits: seq<bool>): nat {
    if bits == [] then 0 else (if bits[0] then 1 else 0) + 2 * Value(bits[1..])
  }

  lemma {:induction false} DigitsValue(n: nat, i: nat)
    requires i <= 64 && n < Pow2(64 - i)
    ensures Value(Digits(n, i)) == n
    decreases 64 - i
  {
    if i < 64 {
      DigitsValue(n / 2, i + 1);
    }
  }

  // The words that have bit k.
  ghost function HavingBit(words: seq<Word>, k: nat): set<nat>
    requires k < 64
  {
    set i: nat | i < |words| && words[i][k]
  }

  lemma {:induction false} XorIsParity(start: Word, words: seq<Word>, k: nat)
    requires k < 64
    ensures XorAll(start, words)[k] <==> (start[k] != (|HavingBit(words, k)| % 2 == 1))
  {
    if words == [] {
      assert HavingBit(words, k) == {};
    } else {
      var n := |words| - 1;
      XorIsParity(start, words[..n], k);
      if words[n][k] {
        assert HavingBit(words, k) == HavingBit(words[..n], k) + {n};
      } else {
        assert HavingBit(words, k) == HavingBit(words[..n], k);
      }
    }
  }

  // Each bit of the hash: whether an odd number of words have it, turned round by that bit of the member count.
  ghost predicate IsHash(words: seq<Word>, hash: Word) {
    exists count: Word :: IsHashWith(words, hash, count)
  }

  ghost predicate IsHashWith(words: seq<Word>, hash: Word, count: Word) {
    && (|Members(words)| < Pow2(64) ==> Value(count) == |Members(words)|)
    && forall k: nat :: k < 64 ==> (hash[k] <==> (count[k] != (|HavingBit(words, k)| % 2 == 1)))
  }

  lemma HashIsHash(words: seq<Word>)
    ensures IsHash(words, HashOf(words))
  {
    var count: Word := Digits(|Members(words)|, 0);
    if |Members(words)| < Pow2(64) {
      DigitsValue(|Members(words)|, 0);
    }
    forall k: nat | k < 64
      ensures HashOf(words)[k] <==> (count[k] != (|HavingBit(words, k)| % 2 == 1))
    {
      XorIsParity(count, words, k);
    }
    assert IsHashWith(words, HashOf(words), count);
  }

  method Hash(words: seq<Word>) returns (hash: Word)
    ensures hash == HashOf(words) && IsHash(words, hash)
  {
    HashIsHash(words);
    var count := Popcnt(words);
    var start: Word := Digits(count, 0);
    hash := start;
    var i := 0;
    while i < |words|
      invariant i <= |words| && hash == XorAll(start, words[..i])
    {
      hash := Xor(hash, words[i]);
      i := i + 1;
      assert words[..i][..i - 1] == words[..i - 1];
    }
    assert words[..i] == words;
  }
}
