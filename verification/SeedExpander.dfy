/**
 `core/SeedExpander.java`: one 64-bit seed expanded to the four words of a xoshiro256** state, by steps each of
 which loses nothing. A `long` is the residue of its value modulo 2^64, and its bits are written out where the
 program works on them.
 */
module SeedExpander {
  const MODULUS := 0x1_0000_0000_0000_0000

  type Word = w: int | 0 <= w < MODULUS

  const GAMMA: Word := 0x9E37_79B9_7F4A_7C15
  const FIRST: Word := 0xBF58_476D_1CE4_E5B9
  const SECOND: Word := 0x94D0_49BB_1331_11EB
  // the inverses of the two multipliers modulo 2^64
  const FIRST_INVERSE: Word := 0x96DE_1B17_3F11_9089
  const SECOND_INVERSE: Word := 0x3196_42B2_D24D_8EC3

  // ----- Words and their bits -----

  function Pow2(n: nat): nat { if n == 0 then 1 else 2 * Pow2(n - 1) }

  /** The lowest `n` bits, lowest first. */
  function Bits(w: nat, n: nat): (b: seq<bool>)
    ensures |b| == n
  {
    if n == 0 then [] else [w % 2 == 1] + Bits(w / 2, n - 1)
  }

  function Value(b: seq<bool>): nat {
    if b == [] then 0 else (if b[0] then 1 else 0) + 2 * Value(b[1..])
  }

  lemma {:induction false} ValueOfBits(w: nat, n: nat)
    requires w < Pow2(n)
    ensures Value(Bits(w, n)) == w
  {
    if n == 0 {
    } else {
      ValueOfBits(w / 2, n - 1);
      assert Bits(w, n)[1..] == Bits(w / 2, n - 1);
    }
  }

  lemma {:induction false} BitsOfValue(b: seq<bool>)
    ensures Value(b) < Pow2(|b|) && Bits(Value(b), |b|) == b
  {
    if b == [] {
    } else {
      BitsOfValue(b[1..]);
    }
  }

  lemma {:induction false} Pow2Sum(a: nat, b: nat)
    ensures Pow2(a + b) == Pow2(a) * Pow2(b)
  {
    if a == 0 {
    } else {
      Pow2Sum(a - 1, b);
    }
  }

  lemma WordBits()
    ensures Pow2(64) == MODULUS
  {
    assert Pow2(4) == 16;
    Pow2Sum(4, 4);
    Pow2Sum(8, 8);
    Pow2Sum(16, 16);
    Pow2Sum(32, 32);
  }

  // ----- The steps -----

  /** Bit `i` of `z ^ (z >>> k)`. */
  function ShiftXorBits(b: seq<bool>, k: nat): (r: seq<bool>)
    ensures |r| == |b|
  {
    seq(|b|, i requires 0 <= i < |b| => b[i] != (i + k < |b| && b[i + k]))
  }

  function ShiftXor(z: Word, k: nat): Word {
    BitsOfValue(ShiftXorBits(Bits(z, 64), k));
    WordBits();
    Value(ShiftXorBits(Bits(z, 64), k))
  }

  function Times(z: Word, c: Word): Word { z * c % MODULUS }

  function Plus(x: Word, y: Word): Word { (x + y) % MODULUS }

  /** How one counter value becomes one word of the state. */
  function Mix(x: Word): Word {
    ShiftXor(Times(ShiftXor(Times(ShiftXor(x, 30), FIRST), 27), SECOND), 31)
  }

  function Counter(seed: Word, i: nat): Word {
    if i == 0 then seed else Plus(Counter(seed, i - 1), GAMMA)
  }

  function Lane(seed: Word, i: nat): Word { Mix(Counter(seed, i + 1)) }

  method ToFourLongs(seed: Word) returns (out: array<Word>)
    ensures fresh(out) && out.Length == 4 && forall i :: 0 <= i < 4 ==> out[i] == Lane(seed, i)
  {
    out := new Word[4](_ => 0);
    var x := seed;
    var i := 0;
    while i < 4
      invariant 0 <= i <= 4 && x == Counter(seed, i)
      invariant forall j :: 0 <= j < i ==> out[j] == Lane(seed, j)
    {
      x := Plus(x, GAMMA);
      var z := x;
      z := Times(ShiftXor(z, 30), FIRST);
      z := Times(ShiftXor(z, 27), SECOND);
      z := ShiftXor(z, 31);
      out[i] := z;
      i := i + 1;
    }
  }

  // ----- Nothing is lost -----

  /** From the top down, every bit can be recovered: those a shift brings in were recovered before. */
  lemma {:induction false} SameBit(a: seq<bool>, b: seq<bool>, k: nat, i: nat)
    requires |a| == |b| && k > 0 && i < |a| && ShiftXorBits(a, k) == ShiftXorBits(b, k)
    ensures a[i] == b[i]
    decreases |a| - i
  {
    if i + k >= |a| {
    } else {
      SameBit(a, b, k, i + k);
    }
    assert ShiftXorBits(a, k)[i] == ShiftXorBits(b, k)[i];
  }

  lemma ShiftXorInjective(y: Word, z: Word, k: nat)
    requires k > 0 && ShiftXor(y, k) == ShiftXor(z, k)
    ensures y == z
  {
    var a, b := Bits(y, 64), Bits(z, 64);
    BitsOfValue(ShiftXorBits(a, k));
    BitsOfValue(ShiftXorBits(b, k));
    forall i | 0 <= i < 64 ensures a[i] == b[i] { SameBit(a, b, k, i); }
    assert a == b;
    WordBits();
    ValueOfBits(y, 64);
    ValueOfBits(z, 64);
  }

  lemma Residue(x: int, q: int, r: Word)
    requires x == q * MODULUS + r
    ensures x % MODULUS == r
  {
  }

  /** Multiplying by a number and then by its inverse gives the word back. */
  lemma TimesUndone(z: Word, c: Word, inverse: Word, k: int)
    requires c * inverse == k * MODULUS + 1
    ensures Times(Times(z, c), inverse) == z
  {
    var r, p := Times(z, c), z * c / MODULUS;
    calc {
      r * inverse;
      (z * c - p * MODULUS) * inverse;
      z * c * inverse - p * MODULUS * inverse;
      { assert z * c * inverse == z * (c * inverse); assert p * MODULUS * inverse == (p * inverse) * MODULUS; }
      z * (k * MODULUS + 1) - (p * inverse) * MODULUS;
      { assert z * (k * MODULUS + 1) == (z * k) * MODULUS + z; }
      (z * k - p * inverse) * MODULUS + z;
    }
    Residue(r * inverse, z * k - p * inverse, z);
  }

  lemma TimesInjective(x: Word, y: Word, c: Word, inverse: Word)
    requires c * inverse % MODULUS == 1 && Times(x, c) == Times(y, c)
    ensures x == y
  {
    TimesUndone(x, c, inverse, c * inverse / MODULUS);
    TimesUndone(y, c, inverse, c * inverse / MODULUS);
  }

  lemma MixInjective(x: Word, y: Word)
    requires Mix(x) == Mix(y)
    ensures x == y
  {
    hide ShiftXor, Times;
    var a, b := ShiftXor(x, 30), ShiftXor(y, 30);
    var c, d := ShiftXor(Times(a, FIRST), 27), ShiftXor(Times(b, FIRST), 27);
    ShiftXorInjective(Times(c, SECOND), Times(d, SECOND), 31);
    TimesInjective(c, d, SECOND, SECOND_INVERSE);
    ShiftXorInjective(Times(a, FIRST), Times(b, FIRST), 27);
    TimesInjective(a, b, FIRST, FIRST_INVERSE);
    ShiftXorInjective(x, y, 30);
  }

  lemma {:induction false} CounterAt(seed: Word, i: nat)
    ensures Counter(seed, i) == (seed + i * GAMMA) % MODULUS
  {
    if i == 0 {
    } else {
      CounterAt(seed, i - 1);
      var before := seed + (i - 1) * GAMMA;
      PlusResidue(before, GAMMA);
      assert before + GAMMA == seed + i * GAMMA;
    }
  }

  lemma PlusResidue(x: int, y: Word)
    ensures Plus(x % MODULUS, y) == (x + y) % MODULUS
  {
  }

  /** Every word of the state tells the seed. */
  lemma SeedRecoverable(seed: Word, other: Word, i: nat)
    requires i < 4 && Lane(seed, i) == Lane(other, i)
    ensures seed == other
  {
    hide Mix, Counter;
    MixInjective(Counter(seed, i + 1), Counter(other, i + 1));
    CounterAt(seed, i + 1);
    CounterAt(other, i + 1);
  }

  /** The four words are different, so the state is never all zero. */
  lemma LanesDiffer(seed: Word, i: nat, j: nat)
    requires i < j < 4
    ensures Lane(seed, i) != Lane(seed, j)
  {
    hide Mix, Counter;
    if Lane(seed, i) == Lane(seed, j) {
      MixInjective(Counter(seed, i + 1), Counter(seed, j + 1));
      CounterAt(seed, i + 1);
      CounterAt(seed, j + 1);
    }
  }

  lemma NeverAllZero(seed: Word)
    ensures exists i :: 0 <= i < 4 && Lane(seed, i) != 0
  {
    LanesDiffer(seed, 0, 1);
  }
}
