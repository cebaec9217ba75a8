/** Bit masks on unsigned machine words. */
module Bits {

  const WORD: nat := 0x1_0000_0000_0000_0000

  type Usize = n: int | 0 <= n < WORD

  /** Two to the power `k`. */
  function Pow2(k: nat): (p: nat)
    ensures p > 0
  {
    if k == 0 then 1 else 2 * Pow2(k - 1)
  }

  /** Bitwise conjunction. */
  function And(a: nat, b: nat): (r: nat)
    ensures r <= a
  {
    if a == 0 then 0 else 2 * And(a / 2, b / 2) + (a % 2) * (b % 2)
  }

  /** Bitwise complement of a machine word. */
  function Not(a: Usize): Usize {
    WORD - 1 - a
  }

  /** Addition as an optimized build does it: without the carry. */
  function Add(a: Usize, b: Usize): Usize {
    (a + b) % WORD
  }

  lemma AddExact(a: Usize, b: Usize)
    requires a + b < WORD
    ensures Add(a, b) == a + b
  {
  }

  /** A mask of `k` one bits keeps a number below it. */
  lemma {:induction false} AndOnes(a: nat, k: nat)
    requires a < Pow2(k)
    ensures And(a, Pow2(k) - 1) == a
  {
    if a != 0 {
      AndOnes(a / 2, k - 1);
      assert (Pow2(k) - 1) / 2 == Pow2(k - 1) - 1;
    }
  }

  /** A mask with its low `k` bits cleared takes the remainder off. */
  lemma {:induction false} AndClearsLowBits(a: nat, m: nat, k: nat)
    requires k <= m && Pow2(k) <= Pow2(m) && a < Pow2(m)
    ensures And(a, Pow2(m) - Pow2(k)) == a - a % Pow2(k)
  {
    if k == 0 {
      AndOnes(a, m);
    } else if a != 0 {
      PowMonotone(k - 1, m - 1);
      AndClearsLowBits(a / 2, m - 1, k - 1);
      assert (Pow2(m) - Pow2(k)) / 2 == Pow2(m - 1) - Pow2(k - 1);
      Halve(a, Pow2(k - 1));
    }
  }

  lemma {:induction false} PowMonotone(i: nat, j: nat)
    requires i <= j
    ensures Pow2(i) <= Pow2(j)
  {
    if i < j {
      PowMonotone(i, j - 1);
    }
  }

  lemma Halve(a: nat, p: nat)
    requires p > 0
    ensures a - a % (2 * p) == 2 * (a / 2 - (a / 2) % p)
  {
    var h, r := a / 2, a % 2;
    var q, t := h / p, h % p;
    assert h == p * q + t;
    assert a == (2 * p) * q + (2 * t + r);
    assert 0 <= 2 * t + r < 2 * p;
    Remainder(a, 2 * p, q, 2 * t + r);
    assert (2 * p) * q == 2 * (p * q);
  }

  lemma Remainder(a: nat, p: nat, q: nat, r: nat)
    requires p > 0 && a == p * q + r && r < p
    ensures a % p == r
  {
    var d := a / p - q;
    assert p * (a / p) + a % p == p * q + r;
    assert p * (a / p - q) == r - a % p;
    Multiples(p, d);
  }

  lemma Multiples(p: nat, d: int)
    ensures d >= 1 ==> p * d >= p
    ensures d <= -1 ==> p * d + p <= 0
  {
  }

  /** The mask `!15`, as the source writes it, rounds down to a multiple of 16. */
  lemma ClearLow4(a: Usize)
    ensures And(a, Not(15)) == a - a % 16
  {
    assert Pow2(4) == 16;
    PowWord();
    AndClearsLowBits(a, 64, 4);
  }

  /** The mask `!7` rounds down to a multiple of 8. */
  lemma ClearLow3(a: Usize)
    ensures And(a, Not(7)) == a - a % 8
  {
    assert Pow2(3) == 8;
    PowWord();
    AndClearsLowBits(a, 64, 3);
  }

  lemma PowWord()
    ensures Pow2(32) == 0x1_0000_0000 && Pow2(64) == WORD
  {
    assert Pow2(8) == 0x100;
    assert Pow2(16) == 0x1_0000;
    assert Pow2(24) == 0x100_0000;
    assert Pow2(32) == 0x1_0000_0000;
    assert Pow2(40) == 0x100_0000_0000;
    assert Pow2(48) == 0x1_0000_0000_0000;
    assert Pow2(56) == 0x100_0000_0000_0000;
  }
}
