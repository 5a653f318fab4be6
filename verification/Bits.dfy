/** Go's unsigned integers and bit operators, the latter defined bit by bit, and the arithmetic they amount to.

    Shifts are those of a `uint64`: a left shift drops the bits it pushes past bit 63. Remainders by a variable are
    spelled as repeated subtraction, `Low`, which `LowIsMod` identifies with `%`. */
module Bits {

  type uint16 = x: nat | x < 0x1_0000
  type uint32 = x: nat | x < 0x1_0000_0000
  type uint64 = x: nat | x < 0x1_0000_0000_0000_0000

  const U16: nat := 0x1_0000
  const U32: nat := 0x1_0000_0000
  const U64: nat := 0x1_0000_0000_0000_0000

  /** Narrowing conversions keep the low bits. */
  function ToUint16(x: nat): uint16 { x % 0x1_0000 }

  function ToUint32(x: nat): uint32 { x % 0x1_0000_0000 }

  /** Sums and differences wrap around once. */
  function Wrap16(x: int): uint16
    requires -0x1_0000 <= x < 0x2_0000
  {
    if x < 0 then x + 0x1_0000 else if x < 0x1_0000 then x else x - 0x1_0000
  }

  function Wrap32(x: int): uint32
    requires -0x1_0000_0000 <= x < 0x2_0000_0000
  {
    if x < 0 then x + 0x1_0000_0000 else if x < 0x1_0000_0000 then x else x - 0x1_0000_0000
  }

  function Wrap64(x: int): uint64
    requires -0x1_0000_0000_0000_0000 <= x < 0x2_0000_0000_0000_0000
  {
    if x < 0 then x + 0x1_0000_0000_0000_0000
    else if x < 0x1_0000_0000_0000_0000 then x
    else x - 0x1_0000_0000_0000_0000
  }

  /** That is arithmetic modulo the width of the field. */
  lemma WrapIsMod(x: int, y: int, z: int)
    requires -0x1_0000 <= x < 0x2_0000
    requires -0x1_0000_0000 <= y < 0x2_0000_0000
    requires -0x1_0000_0000_0000_0000 <= z < 0x2_0000_0000_0000_0000
    ensures Wrap16(x) == x % 0x1_0000
    ensures Wrap32(y) == y % 0x1_0000_0000
    ensures Wrap64(z) == z % 0x1_0000_0000_0000_0000
  {
  }

  /** 2 to the power n. */
  function Pow2(n: nat): (p: nat)
    ensures p > 0
  {
    if n == 0 then 1 else 2 * Pow2(n - 1)
  }

  /** `a & b` */
  function And(a: nat, b: nat): nat {
    if a == 0 || b == 0 then 0
    else (if a % 2 == 1 && b % 2 == 1 then 1 else 0) + 2 * And(a / 2, b / 2)
  }

  /** `a | b` */
  function Or(a: nat, b: nat): nat {
    if a == 0 then b
    else if b == 0 then a
    else (if a % 2 == 1 || b % 2 == 1 then 1 else 0) + 2 * Or(a / 2, b / 2)
  }

  /** `a >> n`: one bit falls off the low end n times. */
  function Shr(a: nat, n: nat): nat {
    if n == 0 then a else Shr(a / 2, n - 1)
  }

  /** `a << n` on a `uint64`: one bit falls off the high end n times. */
  function Shl(a: uint64, n: nat): uint64
    decreases n
  {
    if n == 0 then a else Shl(Wrap64(2 * a), n - 1)
  }

  /** How many whole windows of size m fit below x. */
  function Windows(x: nat, m: nat): nat
    requires m > 0
    decreases x
  {
    if x < m then 0 else 1 + Windows(x - m, m)
  }

  /** Where the window of x starts. */
  function WindowStart(x: nat, m: nat): (start: nat)
    requires m > 0
    ensures start <= x < start + m
    ensures if x < m then start == 0 else start >= m
    decreases x
  {
    if x < m then 0 else m + WindowStart(x - m, m)
  }

  /** The position of x in its window. */
  function Low(x: nat, m: nat): (r: nat)
    requires m > 0
    ensures r < m && (x < m ==> r == x)
  {
    x - WindowStart(x, m)
  }

  lemma LowIsMod(x: nat, m: nat)
    requires m > 0
    ensures Low(x, m) == x % m && Windows(x, m) == x / m
  {
    StartIsScaled(x, m);
    DivMod(x, m);
    QuotientUnique(x, m, Windows(x, m), Low(x, m), x / m, x % m);
  }

  lemma DivMod(x: nat, m: nat)
    requires m > 0
    ensures x / m * m + x % m == x && 0 <= x % m < m
  {
  }

  lemma QuotientUnique(x: nat, m: nat, q: int, r: int, q': int, r': int)
    requires m > 0 && 0 <= r < m && 0 <= r' < m
    requires q * m + r == x && q' * m + r' == x
    ensures q == q' && r == r'
  {
    var d := q - q';
    assert d * m == r' - r by { assert (q - q') * m == q * m - q' * m; }
    assert d >= 1 ==> d * m >= m;
    assert d <= -1 ==> d * m <= (-1) * m;
  }

  lemma {:induction false} LowOf16(x: nat)
    ensures Low(x, 0x1_0000) == Low(x, U16) == ToUint16(x)
    decreases x
  {
    if x < 0x1_0000 {
    } else {
      LowOf16(x - 0x1_0000);
    }
  }

  lemma {:induction false} LowOf32(x: nat)
    ensures Low(x, 0x1_0000_0000) == Low(x, U32) == ToUint32(x)
    decreases x
  {
    if x < 0x1_0000_0000 {
    } else {
      LowOf32(x - 0x1_0000_0000);
    }
  }

  /** The windows of two indices coincide, are neighbours, or lie at least one window apart. */
  lemma {:induction false} WindowsApart(x: nat, y: nat, m: nat)
    requires m > 0
    ensures var a, b := WindowStart(x, m), WindowStart(y, m);
            a == b || a == b + m || a + m == b || a >= b + 2 * m || a + 2 * m <= b
    decreases x
  {
    if x < m || y < m {
      if y >= m { SecondWindow(y, m); }
      if x >= m { SecondWindow(x, m); }
    } else {
      WindowsApart(x - m, y - m, m);
    }
  }

  lemma SecondWindow(x: nat, m: nat)
    requires 0 < m <= x
    ensures WindowStart(x, m) == m || WindowStart(x, m) >= 2 * m
  {
  }

  /** Moving by the start of some window does not change the position in the window. */
  lemma {:induction false} LowAfterStart(x: nat, y: nat, m: nat)
    requires m > 0 && WindowStart(y, m) <= x
    ensures Low(x - WindowStart(y, m), m) == Low(x, m)
    decreases y
  {
    if y < m {
    } else {
      LowAfterStart(x - m, y - m, m);
    }
  }

  lemma LowPlusWindow(x: nat, m: nat)
    requires m > 0
    ensures Low(x + m, m) == Low(x, m)
    ensures WindowStart(x + m, m) == WindowStart(x, m) + m
  {
  }

  lemma {:induction false} StartIsScaled(x: nat, m: nat)
    requires m > 0
    ensures WindowStart(x, m) == Windows(x, m) * m
    ensures Windows(x, m) > 0 <==> x >= m
    decreases x
  {
    if x < m {
    } else {
      StartIsScaled(x - m, m);
      Distribute(Windows(x - m, m), m);
    }
  }

  lemma Distribute(q: int, m: nat)
    ensures (1 + q) * m == m + q * m
  {
  }

  // ---------------------------------------------------------------------------------------------
  // What the operators compute
  // ---------------------------------------------------------------------------------------------

  lemma {:induction false} HalveWindows(x: nat, m: nat)
    requires m > 0
    ensures Low(x, 2 * m) == x % 2 + 2 * Low(x / 2, m)
    ensures Windows(x, 2 * m) == Windows(x / 2, m)
    decreases x
  {
    if x < 2 * m {
      assert x / 2 < m;
    } else {
      HalveWindows(x - 2 * m, m);
      assert (x - 2 * m) / 2 == x / 2 - m && (x - 2 * m) % 2 == x % 2;
    }
  }

  lemma {:induction false} UnitWindows(x: nat)
    ensures Low(x, 1) == 0 && Windows(x, 1) == x
    decreases x
  {
    if x == 0 {
    } else {
      UnitWindows(x - 1);
    }
  }

  /** Masking with w one-bits is the remainder modulo 2^w. */
  lemma {:induction false} MaskIsLow(x: nat, w: nat)
    ensures And(x, Pow2(w) - 1) == Low(x, Pow2(w))
  {
    if x == 0 || w == 0 {
      if w == 0 { UnitWindows(x); }
    } else {
      var p := Pow2(w - 1);
      MaskIsLow(x / 2, w - 1);
      HalveWindows(x, p);
      assert (2 * p - 1) % 2 == 1 && (2 * p - 1) / 2 == p - 1;
    }
  }

  /** Shifting right by w divides by 2^w. */
  lemma {:induction false} ShrIsDiv(x: nat, w: nat)
    ensures Shr(x, w) == Windows(x, Pow2(w))
  {
    if w == 0 {
      UnitWindows(x);
    } else {
      ShrIsDiv(x / 2, w - 1);
      HalveWindows(x, Pow2(w - 1));
    }
  }

  /** x doubled w times. */
  function Doubled(x: nat, w: nat): (d: nat)
    ensures d >= x
    decreases w
  {
    if w == 0 then x else Doubled(2 * x, w - 1)
  }

  lemma {:induction false} DoubledIsMul(x: nat, w: nat)
    ensures Doubled(x, w) == x * Pow2(w)
    decreases w
  {
    if w == 0 {
    } else {
      DoubledIsMul(2 * x, w - 1);
      DoubleScale(x, Pow2(w - 1));
    }
  }

  lemma DoubleScale(x: nat, p: nat)
    ensures x * (2 * p) == (2 * x) * p
  {
  }

  /** Shifting left by w multiplies by 2^w, except that 2^64 becomes 0. */
  lemma ShlIsMul(x: uint64, w: nat)
    requires x * Pow2(w) <= U64
    ensures Shl(x, w) == if x * Pow2(w) < U64 then x * Pow2(w) else 0
  {
    DoubledIsMul(x, w);
    ShlIsDoubled(x, w);
  }

  lemma {:induction false} ShlIsDoubled(x: uint64, w: nat)
    requires Doubled(x, w) <= U64
    ensures Shl(x, w) == if Doubled(x, w) < U64 then Doubled(x, w) else 0
    decreases w
  {
    if w == 0 {
    } else if 2 * x == U64 {
      ShlOfZero(w - 1);
    } else {
      ShlIsDoubled(2 * x, w - 1);
    }
  }

  lemma {:induction false} ShlOfZero(w: nat)
    ensures Shl(0, w) == 0
  {
    if w == 0 {
    } else {
      ShlOfZero(w - 1);
    }
  }

  lemma FactorBelow(a: nat, b: nat)
    requires a > 0
    ensures b <= b * a && b <= a * b
  {
  }

  /** The low w bits of x are clear. */
  predicate Aligned(x: nat, w: nat) {
    w == 0 || (x % 2 == 0 && Aligned(x / 2, w - 1))
  }

  lemma {:induction false} ScaledIsAligned(q: nat, w: nat)
    ensures Aligned(q * Pow2(w), w)
  {
    if w == 0 {
    } else {
      ScaledIsAligned(q, w - 1);
      var half := q * Pow2(w - 1);
      assert q * Pow2(w) == 2 * half;
    }
  }

  /** When the low w bits of the left operand are clear, `|` is addition. */
  lemma {:induction false} OrIsAdd(a: nat, b: nat, w: nat)
    requires Aligned(a, w) && b < Pow2(w)
    ensures Or(a, b) == a + b
    decreases w
  {
    if a == 0 || b == 0 || w == 0 {
    } else {
      OrIsAdd(a / 2, b / 2, w - 1);
    }
  }

  lemma Pow2Values()
    ensures Pow2(15) == 0x8000 && Pow2(16) == U16
    ensures Pow2(31) == 0x8000_0000 && Pow2(32) == U32
    ensures Pow2(63) == 0x8000_0000_0000_0000 && Pow2(64) == U64
  {
    assert Pow2(8) == 0x100;
    assert Pow2(15) == 0x8000;
    assert Pow2(24) == 0x100_0000;
    assert Pow2(31) == 0x8000_0000;
    assert Pow2(40) == 0x100_0000_0000;
    assert Pow2(48) == 0x1_0000_0000_0000;
    assert Pow2(56) == 0x100_0000_0000_0000;
    assert Pow2(63) == 0x8000_0000_0000_0000;
  }

  lemma {:induction false} Pow2Adds(a: nat, b: nat)
    ensures Pow2(a + b) == Pow2(a) * Pow2(b)
  {
    if a == 0 {
    } else {
      Pow2Adds(a - 1, b);
      assert Pow2(a + b) == 2 * (Pow2(a - 1) * Pow2(b)) == Pow2(a) * Pow2(b);
    }
  }

  /** The windows of a counter of width w tile the 64-bit range. */
  lemma Tiles(w: nat)
    requires 1 <= w <= 64
    ensures Pow2(64 - w) * Pow2(w) == U64 && Pow2(w) == 2 * Pow2(w - 1) && Pow2(w) <= U64
  {
    Pow2Values();
    Pow2Adds(64 - w, w);
    FactorBelow(Pow2(64 - w), Pow2(w));
  }
}
