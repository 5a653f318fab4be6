/** Unwrapping of a truncated counter: `ExpandCounter` and what it computes.

    The specification speaks of `half`, half the size of a window: a counter of width w has windows of 2^w values
    and `half` is 2^(w-1). */
module Counter {
  import opened Bits

  /** The variable that `ExpandCounter` receives a pointer to. */
  class Latest {
    var value: uint64

    constructor (v: uint64)
      ensures value == v
    {
      value := v;
    }
  }

  function Max(a: nat, b: nat): nat {
    if a > b then a else b
  }

  function Distance(a: int, b: int): nat {
    if a < b then b - a else a - b
  }

  /** The index that `t` stands for when `l` is the latest index seen: `t` in the window of `l`, in the next one or
      in the previous one, over the unbounded integers. */
  function Unwrap(t: nat, half: nat, l: nat): (x: nat)
    requires half > 0
  {
    var m, start := 2 * half, WindowStart(l, 2 * half);
    if l - start > t && l - start - t > half then start + m + Low(t, m)
    else if l >= m && t > l - start && t - (l - start) > half then start - m + Low(t, m)
    else start + Low(t, m)
  }

  /** Half windows of the counters a `uint64` can hold. */
  type Half = h: nat | 0 < h <= 0x8000_0000_0000_0000 witness 1

  /** The half window of a counter of width w. */
  function HalfOf(w: nat): (half: Half)
    requires 1 <= w <= 64
    ensures 2 * half == Pow2(w) && half == Pow2(w - 1)
  {
    Tiles(w);
    Pow2(w - 1)
  }

  /** What the code returns: the unwrapped index in 64 bits. */
  function Expand(t: nat, half: Half, l: uint64): uint64 {
    Wrap64(Unwrap(t, half, l))
  }

  /** The running maximum that `ExpandCounter` leaves behind. */
  function ExpandedLatest(t: nat, half: Half, l: uint64): uint64 {
    Max(Expand(t, half, l), l)
  }

  /** What the code returns for any width: Go shifts a word out for widths of 64 and more, and a counter of width 0 has
      windows of one value. */
  function ExpandAny(t: uint64, width: uint64, l: uint64): uint64 {
    if width == 0 then if l > 0 && t > 0 then l - 1 else l
    else if width <= 64 then Expand(t, HalfOf(width), l)
    else t
  }

  method ExpandCounter(truncated: uint64, width: uint64, latest: Latest) returns (expanded: uint64)
    modifies latest
    ensures expanded == ExpandAny(truncated, width, old(latest.value))
    ensures latest.value == Max(expanded, old(latest.value))
  {
    Constants(width);
    var mask: uint64 := Wrap64(Shl(1, width) - 1);
    var reallyBig: uint64 := Shl(1, Wrap64(width - 1));
    SplitLatest(latest.value, width);
    var truncatedLatest: uint64 := And(latest.value, mask);
    var latestROC: uint64 := Shr(latest.value, width);
    var ROC: uint64;
    if truncatedLatest > truncated && truncatedLatest - truncated > reallyBig {
      ROC := latestROC + 1;
    } else if latestROC > 0 && truncated > truncatedLatest && truncated - truncatedLatest > reallyBig {
      ROC := latestROC - 1;
    } else {
      ROC := latestROC;
    }
    Assembled(latest.value, ROC, truncated, width);
    expanded := Or(Shl(ROC, width), And(truncated, mask));
    if expanded > latest.value {
      latest.value := expanded;
    }
  }

  // ---------------------------------------------------------------------------------------------
  // The bit operations of the method
  // ---------------------------------------------------------------------------------------------

  lemma ShiftedOne(w: nat)
    requires w <= 64
    ensures Shl(1, w) == if w < 64 then Pow2(w) else 0
    ensures if w < 64 then Pow2(w) < U64 else Pow2(w) == U64
  {
    Pow2Values();
    assert 1 * Pow2(w) == Pow2(w);
    if w == 64 {
    } else {
      Tiles(w + 1);
    }
    ShlIsMul(1, w);
  }

  lemma MaskConstant(w: nat)
    requires 1 <= w <= 64
    ensures Wrap64(Shl(1, w) - 1) == Pow2(w) - 1
  {
    ShiftedOne(w);
  }

  lemma HalfConstant(w: nat)
    requires 1 <= w <= 64
    ensures Shl(1, w - 1) == Pow2(w - 1) < U64
  {
    ShiftedOne(w - 1);
  }

  lemma BitsOfLatest(l: uint64, w: nat)
    requires 1 <= w <= 64
    ensures And(l, Pow2(w) - 1) == l - WindowStart(l, Pow2(w))
    ensures Shr(l, w) == Windows(l, Pow2(w)) && Shr(l, w) + 1 < U64
    ensures Shr(l, w) > 0 <==> l >= Pow2(w)
  {
    MaskIsLow(l, w);
    ShrIsDiv(l, w);
    Tiles(w);
    StartIsScaled(l, Pow2(w));
    FewWindows(l, Pow2(w));
  }

  lemma {:induction false} FewWindows(l: nat, m: nat)
    requires m >= 2
    ensures 2 * Windows(l, m) <= l
    decreases l
  {
    if l < m {
    } else {
      FewWindows(l - m, m);
    }
  }

  /** The window of `l` ends at or below 2^64, and if below then there is room for another. */
  lemma LastWindow(l: uint64, w: nat)
    requires 1 <= w <= 64
    ensures var m := Pow2(w); WindowStart(l, m) + m == U64 || WindowStart(l, m) + 2 * m <= U64
  {
    var m, k, q := Pow2(w), Pow2(64 - w), Windows(l, Pow2(w));
    Tiles(w);
    StartIsScaled(l, m);
    Distribute(q, m);
    Distribute(1 + q, m);
    MulMonotone(k, q, m);
    MulMonotone(2 + q, k, m);
  }

  lemma MulMonotone(a: nat, b: nat, m: nat)
    ensures a <= b ==> a * m <= b * m
  {
  }

  /** The ROC the method picks. */
  function PickedRoc(t: nat, half: nat, l: nat): nat
    requires half > 0
  {
    var m, low := 2 * half, l - WindowStart(l, 2 * half);
    if low > t && low - t > half then Windows(l, m) + 1
    else if l >= m && t > low && t - low > half && Windows(l, m) > 0 then Windows(l, m) - 1
    else Windows(l, m)
  }

  lemma UnwrapIsRocForm(t: nat, half: nat, l: nat)
    requires half > 0
    ensures Unwrap(t, half, l) == PickedRoc(t, half, l) * (2 * half) + Low(t, 2 * half)
    ensures PickedRoc(t, half, l) * (2 * half) <= WindowStart(l, 2 * half) + 2 * half
  {
    var m := 2 * half;
    StartIsScaled(l, m);
    Distribute(Windows(l, m), m);
    Distribute(Windows(l, m) - 1, m);
  }

  /** `ROC << w | t & mask` is the unwrapped index in 64 bits. */
  lemma Reassemble(l: uint64, roc: uint64, t: uint64, w: nat)
    requires 1 <= w <= 64 && roc == PickedRoc(t, HalfOf(w), l)
    ensures Or(Shl(roc, w), And(t, Pow2(w) - 1)) == Expand(t, HalfOf(w), l)
  {
    assert roc * Pow2(w) <= U64 && Unwrap(t, HalfOf(w), l) == roc * Pow2(w) + Low(t, Pow2(w)) by {
      Tiles(w);
      UnwrapIsRocForm(t, HalfOf(w), l);
      LastWindow(l, w);
    }
    MaskIsLow(t, w);
    ShiftOr(roc, Low(t, Pow2(w)), w);
  }

  lemma ShiftOr(roc: uint64, b: nat, w: nat)
    requires 1 <= w <= 64 && roc * Pow2(w) <= U64 && b < Pow2(w) <= U64
    ensures Or(Shl(roc, w), b) == Wrap64(roc * Pow2(w) + b)
  {
    var high := roc * Pow2(w);
    assert high < U64 ==> high + Pow2(w) <= U64 by {
      Tiles(w);
      RoomInWindow(roc, Pow2(w), Pow2(64 - w));
    }
    assert Shl(roc, w) == if high < U64 then high else 0 by { ShlIsMul(roc, w); }
    assert Or(high, b) == high + b by { OrAligned(roc, b, w); }
    OrShifted(Shl(roc, w), high, b, Pow2(w));
  }

  lemma OrAligned(roc: nat, b: nat, w: nat)
    requires b < Pow2(w)
    ensures Or(roc * Pow2(w), b) == roc * Pow2(w) + b
  {
    ScaledIsAligned(roc, w);
    OrIsAdd(roc * Pow2(w), b, w);
  }

  lemma OrShifted(shifted: nat, high: nat, b: nat, m: nat)
    requires high <= U64 && b < m <= U64 && (high < U64 ==> high + m <= U64)
    requires shifted == if high < U64 then high else 0
    requires high < U64 ==> Or(shifted, b) == shifted + b
    ensures Or(shifted, b) == Wrap64(high + b)
  {
  }

  /** A multiple of the window size below 2^64 leaves room for a whole window. */
  lemma RoomInWindow(q: nat, m: nat, k: nat)
    requires k * m == U64
    ensures q * m < U64 ==> q * m + m <= U64
  {
    Distribute(q, m);
    MulMonotone(k, q, m);
    MulMonotone(1 + q, k, m);
  }

  // ---------------------------------------------------------------------------------------------
  // Every width
  // ---------------------------------------------------------------------------------------------

  /** The mask and half a window; beyond 64 bits the shifts leave nothing, and for width 0 so does the second one, whose
      count wraps around. */
  lemma Constants(w: uint64)
    ensures Wrap64(Shl(1, w) - 1) == if w <= 64 then Pow2(w) - 1 else U64 - 1
    ensures Shl(1, Wrap64(w - 1)) == if 1 <= w <= 64 then Pow2(w - 1) else 0
  {
    if 1 <= w <= 64 {
      MaskConstant(w);
      HalfConstant(w);
    } else if w == 0 {
      OneShiftedOut(Wrap64(w - 1));
    } else {
      OneShiftedOut(w);
      OneShiftedOut(w - 1);
    }
  }

  lemma OneShiftedOut(w: nat)
    requires w >= 64
    ensures Shl(1, w) == 0
  {
    ShiftedOne(64);
    ShlTwice(1, 64, w - 64);
    ShlOfZero(w - 64);
  }

  lemma {:induction false} ShlTwice(a: uint64, m: nat, n: nat)
    ensures Shl(a, m + n) == Shl(Shl(a, m), n)
    decreases m
  {
    if m == 0 {
    } else {
      ShlTwice(Wrap64(2 * a), m - 1, n);
    }
  }

  lemma SplitLatest(l: uint64, w: uint64)
    ensures 1 <= w <= 64 ==> And(l, Pow2(w) - 1) == l - WindowStart(l, Pow2(w))
    ensures w == 0 ==> And(l, Pow2(w) - 1) == 0
    ensures w > 64 ==> And(l, U64 - 1) == l
    ensures Shr(l, w) == if w == 0 then l else if w <= 64 then Windows(l, Pow2(w)) else 0
    ensures w > 0 ==> Shr(l, w) + 1 < U64
    ensures 1 <= w <= 64 ==> (Shr(l, w) > 0 <==> l >= Pow2(w))
  {
    if 1 <= w <= 64 {
      BitsOfLatest(l, w);
    } else if w > 64 {
      WholeWord(l);
      ShrIsDiv(l, w);
      Pow2Above(w);
    } else {
      MaskIsLow(l, 0);
    }
  }

  lemma WholeWord(x: uint64)
    ensures And(x, U64 - 1) == x
  {
    Pow2Values();
    MaskIsLow(x, 64);
  }

  lemma {:induction false} Pow2Above(w: nat)
    requires w >= 64
    ensures Pow2(w) >= U64
    decreases w
  {
    Pow2Values();
    if w == 64 {
    } else {
      Pow2Above(w - 1);
    }
  }

  lemma Assembled(l: uint64, roc: uint64, t: uint64, w: uint64)
    requires w == 0 ==> roc == if l > 0 && t > 0 then l - 1 else l
    requires 1 <= w <= 64 ==> roc == PickedRoc(t, HalfOf(w), l)
    requires w > 64 ==> roc <= 1
    ensures Or(Shl(roc, w), And(t, if w <= 64 then Pow2(w) - 1 else U64 - 1)) == ExpandAny(t, w, l)
  {
    if 1 <= w <= 64 {
      Reassemble(l, roc, t, w);
    } else if w == 0 {
      MaskIsLow(t, 0);
    } else {
      WholeWord(t);
      OneShiftedOut(w);
      ShlOfZero(w);
    }
  }

  // ---------------------------------------------------------------------------------------------
  // What the estimate means
  // ---------------------------------------------------------------------------------------------

  lemma {:induction false} LowOfStart(l: nat, m: nat, r: nat)
    requires m > 0 && r < m
    ensures Low(WindowStart(l, m) + r, m) == r
    decreases l
  {
    if l < m {
    } else {
      LowOfStart(l - m, m, r);
    }
  }

  lemma UnwrapCongruent(t: nat, half: nat, l: nat)
    requires half > 0
    ensures Low(Unwrap(t, half, l), 2 * half) == Low(t, 2 * half)
  {
    var m, r := 2 * half, Low(t, 2 * half);
    var x := WindowStart(l, m) + r;
    LowOfStart(l, m, r);
    LowPlusWindow(x, m);
    if x >= m { LowPlusWindow(x - m, m); }
  }

  /** Two different indices with the same truncation are at least a whole window apart. */
  lemma CongruentApart(x: nat, y: nat, m: nat)
    requires m > 0 && Low(x, m) == Low(y, m) && x != y
    ensures Distance(x, y) >= m
  {
    WindowsApart(x, y, m);
  }

  /** How far from `l` the estimate can land: half a window either way, except in the very first window, below which
      nothing exists. */
  lemma UnwrapNear(t: nat, half: nat, l: nat)
    requires half > 0 && t < 2 * half
    ensures var x := Unwrap(t, half, l);
            || Distance(x, l) <= half
            || (l < 2 * half && x == t && x > l + half)
  {
  }

  /** The unwrapped index is congruent to the truncated counter, and no non-negative index congruent to it is closer
      to the latest one. */
  lemma UnwrapNearest(t: nat, half: nat, l: nat, v: nat)
    requires half > 0 && t < 2 * half && Low(v, 2 * half) == t
    ensures Low(Unwrap(t, half, l), 2 * half) == t
    ensures Distance(Unwrap(t, half, l), l) <= Distance(v, l)
  {
    UnwrapCongruent(t, half, l);
    UnwrapNear(t, half, l);
    if v != Unwrap(t, half, l) { CongruentApart(Unwrap(t, half, l), v, 2 * half); }
  }

  /** The roll-over branch is taken from the last window that fits a `uint64`. */
  predicate RollsPastTheEnd(t: nat, half: Half, l: uint64) {
    var start := WindowStart(l, 2 * half);
    l - start > t && l - start - t > half && start + 2 * half == U64
  }

  /** Only that branch loses bits: everywhere else the 64-bit result is the unbounded one. */
  lemma ExpandFits(t: nat, w: nat, l: uint64)
    requires 1 <= w <= 64
    ensures var half := HalfOf(w);
            if RollsPastTheEnd(t, half, l) then Unwrap(t, half, l) == U64 + t && Expand(t, half, l) == t
            else Expand(t, half, l) == Unwrap(t, half, l) < U64
  {
    LastWindow(l, w);
    FitsByCases(t, HalfOf(w), l);
  }

  lemma FitsByCases(t: nat, half: Half, l: uint64)
    requires WindowStart(l, 2 * half) + 2 * half == U64 || WindowStart(l, 2 * half) + 4 * half <= U64
    ensures if RollsPastTheEnd(t, half, l) then Unwrap(t, half, l) == U64 + t && Expand(t, half, l) == t
            else Expand(t, half, l) == Unwrap(t, half, l) < U64
  {
  }

  /** The 64-bit result is a nearest index exactly when the roll-over branch does not run past the last window. */
  lemma ExpandNearestIff(t: nat, w: nat, l: uint64)
    requires 1 <= w <= 64 && t < Pow2(w)
    ensures var half := HalfOf(w);
            (forall v: nat | Low(v, Pow2(w)) == t :: Distance(Expand(t, half, l), l) <= Distance(v, l))
            <==> !RollsPastTheEnd(t, half, l)
  {
    var half, m := HalfOf(w), Pow2(w);
    ExpandFits(t, w, l);
    UnwrapCongruent(t, half, l);
    if RollsPastTheEnd(t, half, l) {
      assert Distance(U64 + t, l) < Distance(t, l);
      assert Low(U64 + t, m) == t;
    } else {
      forall v: nat | Low(v, m) == t ensures Distance(Expand(t, half, l), l) <= Distance(v, l) {
        UnwrapNearest(t, half, l, v);
      }
    }
  }

  /** Exactly the indices that survive truncation and expansion: those less than half a window from the latest one,
      those half a window away in the same window, and, in the first window, everything above. */
  predicate Recoverable(x: nat, half: nat, l: nat)
    requires half > 0
  {
    var m := 2 * half;
    || Distance(x, l) < half
    || (WindowStart(x, m) == WindowStart(l, m) && (Distance(x, l) == half || (l < m && x > l)))
  }

  /** Unwrapping a truncated index gives it back exactly when it is recoverable. */
  lemma UnwrapRecovers(x: nat, half: nat, l: nat)
    requires half > 0
    ensures Unwrap(Low(x, 2 * half), half, l) == x <==> Recoverable(x, half, l)
  {
    WindowsApart(x, l, 2 * half);
  }

  lemma UnwrapNearby(x: nat, half: nat, l: nat)
    requires half > 0 && Distance(x, l) < half
    ensures Unwrap(Low(x, 2 * half), half, l) == x
  {
    UnwrapRecovers(x, half, l);
  }

  /** In 64 bits there is one family more: past the last window the counter starts over, so a latest index there
      brings back the indices of the first window. */
  predicate Survives(x: uint64, half: Half, l: uint64) {
    Recoverable(x, half, l) || (RollsPastTheEnd(Low(x, 2 * half), half, l) && x < 2 * half)
  }

  lemma SurvivesIff(x: uint64, w: nat, l: uint64)
    requires 1 <= w <= 64
    ensures Expand(Low(x, Pow2(w)), HalfOf(w), l) == x <==> Survives(x, HalfOf(w), l)
  {
    ExpandFits(Low(x, Pow2(w)), w, l);
    UnwrapRecovers(x, HalfOf(w), l);
  }

  /** The index estimate of Appendix A of RFC 3711, with its 32-bit roll-over counter. */
  function Rfc3711Index(seqNum: uint16, roc: uint32, highest: uint16): nat {
    var v :=
      if highest < 0x8000 then
        if seqNum - highest > 0x8000 then Wrap32(roc - 1) else roc
      else
        if highest - 0x8000 > seqNum then Wrap32(roc + 1) else roc;
    seqNum + v * 0x1_0000
  }

  lemma {:induction false} StartOf16(roc: nat, low: uint16)
    ensures WindowStart(roc * 0x1_0000 + low, 0x1_0000) == roc * 0x1_0000
    decreases roc
  {
    if roc == 0 {
    } else {
      StartOf16(roc - 1, low);
    }
  }

  /** For 16-bit counters the code computes that estimate, except below the first window, where the RFC's roll-over
      counter wraps to its maximum, and past its last window, where it wraps to zero. */
  lemma SameAsRfc3711Iff(seqNum: uint16, roc: uint32, highest: uint16)
    ensures Expand(seqNum, 0x8000, roc * 0x1_0000 + highest) == Rfc3711Index(seqNum, roc, highest)
       <==> !(roc == 0 && seqNum - highest > 0x8000) && !(roc == U32 - 1 && highest - seqNum > 0x8000)
  {
    StartOf16(roc, highest);
  }
}
