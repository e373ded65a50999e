/** Shifts and bitwise operations on natural numbers, and what they mean arithmetically. */
module Bits {

  function Pow2(k: nat): (r: nat)
    ensures r > 0
  {
    if k == 0 then 1 else 2 * Pow2(k - 1)
  }

  function And(a: nat, b: nat): nat {
    if a == 0 || b == 0 then 0
    else 2 * And(a / 2, b / 2) + (if a % 2 == 1 && b % 2 == 1 then 1 else 0)
  }

  function Or(a: nat, b: nat): nat
    decreases a + b
  {
    if a == 0 then b
    else if b == 0 then a
    else 2 * Or(a / 2, b / 2) + (if a % 2 == 1 || b % 2 == 1 then 1 else 0)
  }

  const WORD: nat := 0x1_0000_0000

  /** A 32-bit left shift: the count is taken modulo 32 and the result is read unsigned. */
  function Shl32(x: nat, count: nat): nat {
    x * Pow2(count % 32) % WORD
  }

  /** How a 32-bit pattern reads as a signed integer. */
  function Signed(x: nat): int {
    if x % WORD >= 0x8000_0000 then x % WORD - WORD else x % WORD
  }

  lemma {:induction false} Pow2Sum(j: nat, k: nat)
    ensures Pow2(j + k) == Pow2(j) * Pow2(k)
  {
    if j > 0 {
      Pow2Sum(j - 1, k);
    }
  }

  lemma Multiples(k: int, d: nat)
    ensures k >= 1 ==> k * d >= d
    ensures k <= -1 ==> k * d + d <= 0
  {
    if k >= 1 {
      assert (k - 1) * d >= 0;
    } else if k <= -1 {
      assert (-1 - k) * d >= 0;
    }
  }

  lemma Quotient(v: nat, d: nat, q: nat, r: nat)
    requires d > 0 && v == q * d + r && r < d
    ensures v / d == q && v % d == r
  {
    assert v == (v / d) * d + v % d;
    assert (v / d - q) * d == r - v % d;
    Multiples(v / d - q, d);
  }

  lemma DivPow2(v: nat, k: nat)
    ensures v / Pow2(k + 1) == (v / 2) / Pow2(k)
  {
    var d := Pow2(k);
    var q, r := (v / 2) / d, (v / 2) % d;
    assert v == q * (2 * d) + (2 * r + v % 2);
    Quotient(v, 2 * d, q, 2 * r + v % 2);
  }

  /** `m` shifted left by `k`. */
  function Shifted(m: nat, k: nat): nat {
    if k == 0 then m else 2 * Shifted(m, k - 1)
  }

  lemma {:induction false} ShiftedIsProduct(m: nat, k: nat)
    ensures Shifted(m, k) == m * Pow2(k)
  {
    if k > 0 {
      ShiftedIsProduct(m, k - 1);
      assert m * (2 * Pow2(k - 1)) == 2 * (m * Pow2(k - 1));
    }
  }

  /** `v` shifted right by `k`. */
  function Dropped(v: nat, k: nat): nat {
    if k == 0 then v else Dropped(v / 2, k - 1)
  }

  lemma {:induction false} DroppedIsQuotient(v: nat, k: nat)
    ensures Dropped(v, k) == v / Pow2(k)
  {
    if k > 0 {
      DroppedIsQuotient(v / 2, k - 1);
      DivPow2(v, k - 1);
    }
  }

  /** Zero low bits of a mask clear the low bits of the value. */
  lemma {:induction false} AndShifted(v: nat, m: nat, k: nat)
    ensures And(v, Shifted(m, k)) == Shifted(And(Dropped(v, k), m), k)
  {
    if k > 0 {
      AndShifted(v / 2, m, k - 1);
      AndDouble(v, Shifted(m, k - 1));
    }
  }

  lemma AndDouble(v: nat, b: nat)
    ensures And(v, 2 * b) == 2 * And(v / 2, b)
  {
    if v > 0 && b > 0 {
      assert 2 * b / 2 == b && 2 * b % 2 == 0;
      assert And(v, 2 * b) == 2 * And(v / 2, 2 * b / 2);
    }
  }

  lemma {:induction false} AndOnes(v: nat, n: nat)
    requires v < Pow2(n)
    ensures And(v, Pow2(n) - 1) == v
  {
    if v > 0 {
      assert (Pow2(n) - 1) / 2 == Pow2(n - 1) - 1;
      AndOnes(v / 2, n - 1);
    }
  }

  lemma {:induction false} OrShifted(a: nat, n: nat, k: nat)
    requires n < Pow2(k)
    ensures Or(Shifted(a, k), n) == Shifted(a, k) + n
  {
    if k > 0 {
      OrShifted(a, n / 2, k - 1);
    }
  }

  /** A value below the zero low bits simply joins them. */
  lemma OrZeroLow(a: nat, n: nat, k: nat)
    requires n < Pow2(k)
    ensures Or(a * Pow2(k), n) == a * Pow2(k) + n
  {
    ShiftedIsProduct(a, k);
    OrShifted(a, n, k);
  }

  /** Equal high parts mean lying in the same aligned block. */
  lemma SameBlock(v: nat, w: nat, size: nat)
    requires size > 0
    ensures v / size == w / size <==> w - w % size <= v < w - w % size + size
  {
    assert v == (v / size) * size + v % size && w == (w / size) * size + w % size;
    assert (v / size - w / size) * size == (v - v % size) - (w - w % size);
    Multiples(v / size - w / size, size);
  }

  lemma Pow2Of32()
    ensures Pow2(32) == WORD && Pow2(16) == 0x10000 && Pow2(8) == 0x100
  {
    Pow2Sum(8, 8);
    Pow2Sum(16, 16);
  }

  lemma ShiftedOnes(w: nat, d: nat, e: nat)
    requires d > 0 && e > 0 && w == e * d
    ensures (w - 1) * d == (d - 1) * w + (w - d)
    ensures (e - 1) * d == w - d
    ensures w >= d
  {
    Multiples(e, d);
  }

  lemma OnesTimes(w: nat, d: nat, e: nat)
    requires d > 0 && e > 0 && w == e * d
    ensures (w - 1) * d % w == (e - 1) * d
  {
    ShiftedOnes(w, d, e);
    Quotient((w - 1) * d, w, d - 1, w - d);
  }

  /** The prefix mask as the shift computes it. */
  lemma MaskIs(prefix: nat)
    requires 1 <= prefix <= 32
    ensures Shl32(WORD - 1, 32 - prefix) == (Pow2(prefix) - 1) * Pow2(32 - prefix)
  {
    Pow2Of32();
    Pow2Sum(prefix, 32 - prefix);
    hide Pow2;
    OnesTimes(WORD, Pow2(32 - prefix), Pow2(prefix));
  }

  /** Masking keeps a 32-bit value's high bits, whatever the prefix. */
  lemma MaskedValue(v: nat, prefix: nat)
    requires v < WORD && 1 <= prefix <= 32
    ensures And(v, Shl32(WORD - 1, 32 - prefix)) == v / Pow2(32 - prefix) * Pow2(32 - prefix)
  {
    var k := 32 - prefix;
    var high, ones := Dropped(v, k), Pow2(prefix) - 1;
    assert And(high, ones) == high by {
      DroppedIsQuotient(v, k);
      Pow2Of32();
      Pow2Sum(prefix, k);
      HighPart(v, Pow2(k), Pow2(prefix));
      AndOnes(high, prefix);
    }
    MaskIs(prefix);
    ShiftedIsProduct(ones, k);
    AndShifted(v, ones, k);
    ShiftedIsProduct(high, k);
    DroppedIsQuotient(v, k);
  }

  lemma HighPart(v: nat, d: nat, e: nat)
    requires d > 0 && v < e * d
    ensures v / d < e
  {
    assert v == (v / d) * d + v % d;
    assert (v / d - e) * d == v - v % d - e * d;
    Multiples(e - v / d, d);
    Multiples(v / d - e, d);
  }
}
