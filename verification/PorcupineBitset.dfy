/**
  The checker's bit sets: a fixed number of 64-bit words, changed in place.  A word is represented by the set of
  its one-bits, so that `|=` is union, `&^=` difference and `^` symmetric difference.
 */
module PorcupineBitset {

  type Word = w: set<nat> | forall b :: b in w ==> b < 64

  // ---------- contents ----------

  predicate Has(ws: seq<Word>, pos: nat) {
    pos / 64 < |ws| && pos % 64 in ws[pos / 64]
  }

  function MembersOf(ws: seq<Word>): (r: set<nat>)
    ensures forall pos: nat :: pos in r <==> Has(ws, pos)
  {
    set pos: nat | pos < 64 * |ws| && Has(ws, pos)
  }

  /** The contents determine the words, so comparing words compares contents. */
  lemma SameMembers(a: seq<Word>, b: seq<Word>)
    requires |a| == |b| && MembersOf(a) == MembersOf(b)
    ensures a == b
  {
    forall i | 0 <= i < |a| ensures a[i] == b[i] {
      forall bit: nat | bit < 64 ensures bit in a[i] <==> bit in b[i] {
        var pos := 64 * i + bit;
        assert pos / 64 == i && pos % 64 == bit;
        assert Has(a, pos) <==> Has(b, pos) by { assert pos in MembersOf(a) <==> pos in MembersOf(b); }
      }
    }
  }

  // ---------- hashing ----------

  function Xor(a: Word, b: Word): Word {
    (a - b) + (b - a)
  }

  // The one-bits of n modulo 2^64, from bit i on.
  function BitsFrom(n: nat, i: nat): (w: Word)
    decreases 64 - i
  {
    if i >= 64 then {} else (if n % 2 == 1 then {i} else {}) + BitsFrom(n / 2, i + 1)
  }

  function Ones(ws: seq<Word>): nat {
    if ws == [] then 0 else Ones(ws[..|ws| - 1]) + |ws[|ws| - 1]|
  }

  function XorAll(start: Word, ws: seq<Word>): Word {
    if ws == [] then start else Xor(XorAll(start, ws[..|ws| - 1]), ws[|ws| - 1])
  }

  function HashOf(ws: seq<Word>): Word {
    XorAll(BitsFrom(Ones(ws), 0), ws)
  }

  // ---------- the set itself ----------

  class Bitset {
    const words: array<Word>

    // Room for `bits` members, in as few words as possible.
    constructor (bits: nat)
      ensures fresh(words) && words.Length == bits / 64 + (if bits % 64 != 0 then 1 else 0)
      ensures Members() == {}
    {
      var extra := 0;
      if bits % 64 != 0 { extra := 1; }
      words := new Word[bits / 64 + extra](_ => {});
    }

    constructor Clone(from: Bitset)
      ensures fresh(words) && words[..] == from.words[..]
    {
      words := new Word[from.words.Length](i requires 0 <= i < from.words.Length reads from.words => from.words[i]);
    }

    ghost function Members(): set<nat>
      reads words
    {
      MembersOf(words[..])
    }

    method Set(pos: nat)
      requires pos / 64 < words.Length
      modifies words
      ensures Members() == old(Members()) + {pos}
    {
      var major, minor := pos / 64, pos % 64;
      words[major] := words[major] + {minor};
      forall p: nat ensures Has(words[..], p) <==> old(Has(words[..], p)) || p == pos {
        assert p == 64 * (p / 64) + p % 64;
      }
    }

    method Clear(pos: nat)
      requires pos / 64 < words.Length
      modifies words
      ensures Members() == old(Members()) - {pos}
    {
      var major, minor := pos / 64, pos % 64;
      words[major] := words[major] - {minor};
      forall p: nat ensures Has(words[..], p) <==> old(Has(words[..], p)) && p != pos {
        assert p == 64 * (p / 64) + p % 64;
      }
    }

    method Popcnt() returns (total: nat)
      ensures total == Ones(words[..])
    {
      total := 0;
      for i := 0 to words.Length
        invariant total == Ones(words[..i])
      {
        assert words[..i + 1][..i] == words[..i];
        total := total + |words[i]|;
      }
      assert words[..words.Length] == words[..];
    }

    method Hash() returns (hash: Word)
      ensures hash == HashOf(words[..])
    {
      var count := Popcnt();
      hash := BitsFrom(count, 0);
      for i := 0 to words.Length
        invariant hash == XorAll(BitsFrom(count, 0), words[..i])
      {
        assert words[..i + 1][..i] == words[..i];
        hash := Xor(hash, words[i]);
      }
      assert words[..words.Length] == words[..];
    }
  }

  method Equals(a: seq<Word>, b: seq<Word>) returns (same: bool)
    ensures same <==> a == b
  {
    if |a| != |b| { return false; }
    for i := 0 to |a|
      invariant a[..i] == b[..i]
    {
      if a[i] != b[i] { return false; }
    }
    return true;
  }
}
