/** The checker's bitset: 64-bit words updated in place, seen as a finite set of positions. A word is
    written as its 64 bits, least significant first; the program only ever combines words bit by bit. */
module Bitset {

  type Word = w: seq<bool> | |w| == 64 witness seq(64, _ => false)

  const ZERO: Word := seq(64, _ => false)

  /** Position p lives in word p / 64, bit p % 64. */
  predicate Get(b: seq<Word>, pos: int)
    requires 0 <= pos < 64 * |b|
  {
    b[pos / 64][pos % 64]
  }

  /** The positions that are set. */
  ghost function Members(b: seq<Word>): set<int> {
    set p | 0 <= p < 64 * |b| && Get(b, p)
  }

  function ChunksFor(bits: nat): nat {
    bits / 64 + (if bits % 64 != 0 then 1 else 0)
  }

  method NewBitset(bits: nat) returns (b: array<Word>)
    ensures fresh(b) && b.Length == ChunksFor(bits)
    ensures bits <= 64 * b.Length && Members(b[..]) == {}
  {
    b := new Word[ChunksFor(bits)](_ => ZERO);
    assert forall p :: 0 <= p < 64 * b.Length ==> !Get(b[..], p);
  }

  method Clone(b: array<Word>) returns (c: array<Word>)
    ensures fresh(c) && c[..] == b[..]
  {
    c := new Word[b.Length](_ => ZERO);
    for i := 0 to b.Length
      invariant c[..i] == b[..i]
    {
      c[i] := b[i];
    }
  }

  method Set(b: array<Word>, pos: int)
    requires 0 <= pos < 64 * b.Length
    modifies b
    ensures Members(b[..]) == old(Members(b[..])) + {pos}
  {
    var major, minor := pos / 64, pos % 64;
    ghost var w := b[..];
    b[major] := b[major][minor := true];
    forall p | 0 <= p < 64 * b.Length ensures Get(b[..], p) <==> p == pos || Get(w, p) {
      SamePosition(p, pos);
    }
  }

  method Clear(b: array<Word>, pos: int)
    requires 0 <= pos < 64 * b.Length
    modifies b
    ensures Members(b[..]) == old(Members(b[..])) - {pos}
  {
    var major, minor := pos / 64, pos % 64;
    ghost var w := b[..];
    b[major] := b[major][minor := false];
    forall p | 0 <= p < 64 * b.Length ensures Get(b[..], p) <==> p != pos && Get(w, p) {
      SamePosition(p, pos);
    }
  }

  lemma SamePosition(p: int, q: int)
    ensures p == q <==> p / 64 == q / 64 && p % 64 == q % 64
  {
  }

  /** Two bitsets of one size hold the same words exactly when they hold the same positions. */
  lemma EqualMembers(a: seq<Word>, b: seq<Word>)
    requires |a| == |b|
    ensures a == b <==> Members(a) == Members(b)
  {
    if a != b {
      var i :| 0 <= i < |a| && a[i] != b[i];
      var k :| 0 <= k < 64 && a[i][k] != b[i][k];
      var p := 64 * i + k;
      assert p / 64 == i && p % 64 == k;
      assert (p in Members(a)) != (p in Members(b));
    }
  }

  // ----- hashing -----

  function Ones(w: seq<bool>): nat {
    if w == [] then 0 else Ones(w[..|w| - 1]) + (if w[|w| - 1] then 1 else 0)
  }

  function TotalOnes(b: seq<Word>): nat {
    if b == [] then 0 else TotalOnes(b[..|b| - 1]) + Ones(b[|b| - 1])
  }

  function Xor(v: Word, w: Word): Word {
    seq(64, k requires 0 <= k < 64 => v[k] != w[k])
  }

  function Fold(b: seq<Word>, seed: Word): Word {
    if b == [] then seed else Xor(Fold(b[..|b| - 1], seed), b[|b| - 1])
  }

  /** The k low bits of a number: its conversion to an unsigned word keeps 64 of them. */
  function LowBits(n: nat, k: nat): (w: seq<bool>)
    ensures |w| == k
    decreases k
  {
    if k == 0 then [] else [n % 2 == 1] + LowBits(n / 2, k - 1)
  }

  function Hash(b: seq<Word>): Word {
    Fold(b, LowBits(TotalOnes(b), 64))
  }

  method PopCount(b: array<Word>) returns (total: nat)
    ensures total == TotalOnes(b[..]) == |Members(b[..])|
  {
    total := 0;
    for i := 0 to b.Length
      invariant total == TotalOnes(b[..i])
    {
      assert b[..i + 1][..i] == b[..i];
      total := total + Ones(b[i]);
    }
    assert b[..b.Length] == b[..];
    OnesAreMembers(b[..]);
  }

  method ComputeHash(b: array<Word>) returns (hash: Word)
    ensures hash == Hash(b[..])
  {
    var ones := PopCount(b);
    hash := LowBits(ones, 64);
    ghost var seed := hash;
    for i := 0 to b.Length
      invariant hash == Fold(b[..i], seed)
    {
      assert b[..i + 1][..i] == b[..i];
      hash := Xor(hash, b[i]);
    }
    assert b[..b.Length] == b[..];
  }

  method Equals(a: array<Word>, b: seq<Word>) returns (same: bool)
    ensures same <==> a[..] == b
  {
    if a.Length != |b| {
      return false;
    }
    for i := 0 to a.Length
      invariant a[..i] == b[..i]
    {
      if a[i] != b[i] {
        return false;
      }
    }
    return true;
  }

  /** Counting the ones of all words counts the members. */
  lemma {:induction false} OnesAreMembers(b: seq<Word>)
    ensures TotalOnes(b) == |Members(b)|
  {
    if b == [] {
      assert Members(b) == {};
    } else {
      var n := |b| - 1;
      OnesAreMembers(b[..n]);
      var top := OnesOfWord(b[n], 64 * n);
      MembersSplit(b, top);
      assert Members(b[..n]) !! top;
    }
  }

  lemma MembersSplit(b: seq<Word>, top: set<int>)
    requires b != []
    requires var n := |b| - 1; forall p :: p in top <==> 64 * n <= p < 64 * n + 64 && b[n][p - 64 * n]
    ensures Members(b) == Members(b[..|b| - 1]) + top
  {
    var n := |b| - 1;
    forall p | 0 <= p < 64 * |b| ensures p in Members(b) <==> p in Members(b[..n]) || p in top {
      if p < 64 * n {
        assert b[..n][p / 64] == b[p / 64];
      } else {
        assert p / 64 == n && p % 64 == p - 64 * n;
      }
    }
  }

  lemma {:induction false} OnesOfWord(w: seq<bool>, base: int) returns (s: set<int>)
    ensures |s| == Ones(w)
    ensures forall p :: p in s <==> base <= p < base + |w| && w[p - base]
  {
    if w == [] {
      s := {};
    } else {
      var k := |w| - 1;
      s := OnesOfWord(w[..k], base);
      if w[k] {
        s := s + {base + k};
      }
    }
  }
}
