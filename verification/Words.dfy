/** Machine words: the 16- and 32-bit wrapping counters, and masking by a power of two minus one. */
module Words {
  const U16 := 0x1_0000
  const U32 := 0x1_0000_0000

  /** Conversion to uint16_t; Dafny's remainder is never negative, as C's unsigned conversion is. */
  function Wrap16(x: int): (r: nat)
    ensures r < 0x1_0000
    ensures 0 <= x < 0x1_0000 ==> r == x
  { x % 0x1_0000 }

  /** Conversion to uint32_t. */
  function Wrap32(x: int): (r: nat)
    ensures r < 0x1_0000_0000
    ensures 0 <= x < 0x1_0000_0000 ==> r == x
  { x % 0x1_0000_0000 }

  function Pow2(k: nat): (r: nat)
    ensures r >= 1
  {
    if k == 0 then 1 else 2 * Pow2(k - 1)
  }

  ghost predicate IsPow2(n: nat) { exists k: nat :: Pow2(k) == n }

  /** The sizes a ring may have: a power of two whose mask fits 16 bits with room to spare. */
  ghost predicate RingSize(n: nat) { IsPow2(n) && n <= 0x8000 }

  /** The ring slot of an unbounded position, and the lap it is in. */
  function SlotOf(p: nat, n: nat): (r: nat)
    requires n > 0
    ensures r < n
  {
    p % n
  }

  function LapOf(p: nat, n: nat): nat
    requires n > 0
  {
    p / n
  }

  /** Bitwise and, one bit at a time. */
  function BitAnd(x: nat, y: nat): (r: nat)
    ensures r <= y
  {
    if x == 0 || y == 0 then 0 else (x % 2) * (y % 2) + 2 * BitAnd(x / 2, y / 2)
  }

  lemma {:induction false} MaskPow2(x: nat, k: nat)
    ensures BitAnd(x, Pow2(k) - 1) == x % Pow2(k)
  {
    if k == 0 {
    } else if x == 0 {
    } else {
      var h := Pow2(k - 1);
      MaskPow2(x / 2, k - 1);
      HalveMod(x, h);
      BitAndOdd(x, h - 1);
    }
  }

  lemma BitAndOdd(x: nat, y: nat)
    ensures BitAnd(x, 2 * y + 1) == x % 2 + 2 * BitAnd(x / 2, y)
  {
    assert (2 * y + 1) / 2 == y && (2 * y + 1) % 2 == 1;
  }

  lemma HalveMod(x: nat, h: nat)
    requires h > 0
    ensures x % (2 * h) == x % 2 + 2 * ((x / 2) % h)
  {
    var q, r := (x / 2) / h, (x / 2) % h;
    assert x / 2 == q * h + r;
    assert x == q * (2 * h) + (x % 2 + 2 * r) by {
      assert x == 2 * (x / 2) + x % 2;
      assert 2 * (q * h + r) == q * (2 * h) + 2 * r;
    }
    DivModUnique(x, 2 * h, q, x % 2 + 2 * r);
  }

  lemma DivModUnique(x: int, n: nat, q: int, r: nat)
    requires x == q * n + r && r < n
    ensures x / n == q && x % n == r
  {
    var q', r' := x / n, x % n;
    assert x == q' * n + r' && 0 <= r' < n;
    assert (q - q') * n == r' - r;
    MulSign(q - q', n);
  }

  lemma MulSign(d: int, n: int)
    requires n >= 0
    ensures d >= 1 ==> d * n >= n
    ensures d <= -1 ==> d * n <= -n
    ensures d == 0 ==> d * n == 0
  {
    if d >= 1 { assert d * n == n + (d - 1) * n; }
    if d <= -1 { assert d * n == -n + (d + 1) * n; }
  }

  lemma {:induction false} Pow2Sum(j: nat, k: nat)
    ensures Pow2(j + k) == Pow2(j) * Pow2(k)
  {
    if j > 0 {
      Pow2Sum(j - 1, k);
      assert Pow2(j + k) == 2 * (Pow2(j - 1) * Pow2(k));
    }
  }

  lemma {:induction false} Pow2Grows(j: nat, k: nat)
    requires j < k
    ensures 2 * Pow2(j) <= Pow2(k)
  {
    if j + 1 < k { Pow2Grows(j, k - 1); }
  }

  /** A power of two that is at most 2^16 divides 2^16. */
  lemma RingDivides16(n: nat)
    requires IsPow2(n) && n <= U16
    ensures 0 < n && exists m: nat :: m * n == U16
  {
    var k: nat :| Pow2(k) == n;
    assert Pow2(16) == U16 by { assert Pow2(8) == 256; Pow2Sum(8, 8); }
    if k > 16 { Pow2Grows(16, k); }
    Pow2Sum(16 - k, k);
    assert Pow2(16 - k) * n == U16;
  }

  lemma ModOfMod(p: nat, m: nat, n: nat)
    requires m > 0 && n > 0 && m * n > 0
    ensures (p % (m * n)) % n == p % n
  {
    var q, r := p / (m * n), p % (m * n);
    assert p == q * (m * n) + r;
    assert q * (m * n) == (q * m) * n;
    assert r == (r / n) * n + r % n;
    assert (q * m) * n + (r / n) * n == (q * m + r / n) * n;
    DivModUnique(p, n, q * m + r / n, r % n);
  }

  /** Masking a wrapped counter selects the slot of the unbounded counter, across the 16-bit wrap. */
  lemma Slot(p: nat, n: nat)
    requires IsPow2(n) && n <= U16
    ensures 0 < n && BitAnd(Wrap16(p), n - 1) == SlotOf(p, n)
  {
    RingDivides16(n);
    var m: nat :| m * n == U16;
    MulSign(m, n);
    ModOfMod(p, m, n);
    var k: nat :| Pow2(k) == n;
    MaskPow2(Wrap16(p), k);
  }

  /** One lap forward: the same slot, the next lap number. */
  lemma NextLap(p: nat, n: nat)
    requires n > 0
    ensures SlotOf(p + n, n) == SlotOf(p, n) && LapOf(p + n, n) == LapOf(p, n) + 1
  {
    assert p + n == (p / n + 1) * n + p % n;
    DivModUnique(p + n, n, p / n + 1, p % n);
  }

  /** Two positions less than a lap apart never share a slot. */
  lemma SlotsDiffer(a: nat, b: nat, n: nat)
    requires a < b < a + n
    ensures SlotOf(a, n) != SlotOf(b, n)
  {
    if a % n == b % n {
      assert b - a == (b / n - a / n) * n;
      MulSign(b / n - a / n, n);
    }
  }

  /** Stepping a position enters a new lap exactly at slot 0. */
  lemma StepLap(p: nat, n: nat)
    requires n > 0
    ensures LapOf(p + 1, n) == LapOf(p, n) + (if SlotOf(p + 1, n) == 0 then 1 else 0)
    ensures SlotOf(p + 1, n) == (if SlotOf(p, n) + 1 == n then 0 else SlotOf(p, n) + 1)
  {
    if p % n + 1 == n {
      assert p + 1 == (p / n + 1) * n;
      DivModUnique(p + 1, n, p / n + 1, 0);
    } else {
      assert p + 1 == (p / n) * n + (p % n + 1);
      DivModUnique(p + 1, n, p / n, p % n + 1);
    }
  }

  /** Positions of the first lap are their own slots. */
  lemma FirstLap(p: nat, n: nat)
    requires p < n
    ensures SlotOf(p, n) == p && LapOf(p, n) == 0
  {
    DivModUnique(p, n, 0, p);
  }

  /** Moving on from a slot is moving on from the position. */
  lemma SlotShift(p: nat, k: nat, n: nat)
    requires n > 0
    ensures SlotOf(SlotOf(p, n) + k, n) == SlotOf(p + k, n)
  {
    var x := p % n + k;
    assert p + k == (p / n) * n + x;
    assert x == (x / n) * n + x % n;
    assert (p / n) * n + (x / n) * n == (p / n + x / n) * n;
    DivModUnique(p + k, n, p / n + x / n, x % n);
  }

  lemma MulMonotone(a: int, b: int, m: nat)
    requires a <= b
    ensures a * m <= b * m
  {
    MulSign(b - a, m);
    assert b * m == a * m + (b - a) * m;
  }

  /** Values that differ by a multiple of the word size wrap to the same word. */
  lemma Same16(x: int, y: int, k: int)
    requires x == y + k * 0x1_0000
    ensures Wrap16(x) == Wrap16(y)
  {
    DivModUnique(x, 0x1_0000, y / 0x1_0000 + k, y % 0x1_0000);
  }

  lemma Same32(x: int, y: int, k: int)
    requires x == y + k * 0x1_0000_0000
    ensures Wrap32(x) == Wrap32(y)
  {
    DivModUnique(x, 0x1_0000_0000, y / 0x1_0000_0000 + k, y % 0x1_0000_0000);
  }

  /** Arithmetic on a wrapped counter is arithmetic on the counter, wrapped. */
  lemma Wrap16Add(x: int, d: int)
    ensures Wrap16(Wrap16(x) + d) == Wrap16(x + d)
  {
    Same16(x + d, Wrap16(x) + d, x / 0x1_0000);
  }

  lemma Wrap32Add(x: int, d: int)
    ensures Wrap32(Wrap32(x) + d) == Wrap32(x + d)
  {
    Same32(x + d, Wrap32(x) + d, x / 0x1_0000_0000);
  }

  lemma Wrap32Sub(x: int, y: int)
    ensures Wrap32(x - Wrap32(y)) == Wrap32(x - y)
  {
    Same32(x - Wrap32(y), x - y, y / 0x1_0000_0000);
  }
}
