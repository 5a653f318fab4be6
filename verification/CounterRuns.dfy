/** Whole runs of `ExpandCounter` over one counter. */
module CounterRuns {
  import opened Bits
  import opened Counter

  /** The values returned for a sequence of truncated counters. */
  function Expanded(l: uint64, half: Half, wire: seq<nat>): (xs: seq<uint64>)
    ensures |xs| == |wire|
    decreases |wire|
  {
    if wire == [] then []
    else [Expand(wire[0], half, l)] + Expanded(ExpandedLatest(wire[0], half, l), half, wire[1..])
  }

  /** The latest value left behind. */
  function Latest(l: uint64, half: Half, wire: seq<nat>): uint64
    decreases |wire|
  {
    if wire == [] then l else Latest(ExpandedLatest(wire[0], half, l), half, wire[1..])
  }

  function Truncated(xs: seq<uint64>, half: Half): (wire: seq<nat>)
    ensures |wire| == |xs|
    ensures forall i :: 0 <= i < |xs| ==> wire[i] == Low(xs[i], 2 * half) < 2 * half
  {
    seq(|xs|, i requires 0 <= i < |xs| => Low(xs[i], 2 * half))
  }

  /** Every index survives truncation, seen from the maximum of the ones before it. */
  predicate AllSurvive(l: uint64, half: Half, xs: seq<uint64>)
    decreases |xs|
  {
    xs != [] ==> Survives(xs[0], half, l) && AllSurvive(Max(xs[0], l), half, xs[1..])
  }

  /** Every index lies within half a window of the maximum of the ones before it. */
  predicate WithinHalfWindow(l: uint64, half: Half, xs: seq<uint64>)
    decreases |xs|
  {
    xs != [] ==> Distance(xs[0], l) < half && WithinHalfWindow(Max(xs[0], l), half, xs[1..])
  }

  function MaxOf(l: uint64, xs: seq<uint64>): uint64
    decreases |xs|
  {
    if xs == [] then l else MaxOf(Max(xs[0], l), xs[1..])
  }

  /** Unwrapping a run of truncated indices gives the run back exactly when every index survives. */
  lemma {:induction false} UnwrappingExactIff(l: uint64, w: nat, xs: seq<uint64>)
    requires 1 <= w <= 64
    ensures var half := HalfOf(w);
            Expanded(l, half, Truncated(xs, half)) == xs <==> AllSurvive(l, half, xs)
    decreases |xs|
  {
    var half := HalfOf(w);
    if xs == [] {
    } else {
      var wire := Truncated(xs, half);
      SurvivesIff(xs[0], w, l);
      assert wire[1..] == Truncated(xs[1..], half);
      var rest := Expanded(ExpandedLatest(wire[0], half, l), half, wire[1..]);
      assert Expanded(l, half, wire)[0] == Expand(wire[0], half, l);
      assert Expanded(l, half, wire)[1..] == rest;
      assert xs == [xs[0]] + xs[1..];
      if Survives(xs[0], half, l) {
        UnwrappingExactIff(Max(xs[0], l), w, xs[1..]);
      }
    }
  }

  lemma {:induction false} NearbyIndicesSurvive(l: uint64, half: Half, xs: seq<uint64>)
    requires WithinHalfWindow(l, half, xs)
    ensures AllSurvive(l, half, xs)
    decreases |xs|
  {
    if xs == [] {
    } else {
      NearbyIndicesSurvive(Max(xs[0], l), half, xs[1..]);
    }
  }

  /** The promise of the unwrapping: indices that stay within half a window of the running maximum are recovered one
      by one, and the latest index is their maximum. */
  lemma UnwrappingExact(l: uint64, w: nat, xs: seq<uint64>)
    requires 1 <= w <= 64 && WithinHalfWindow(l, HalfOf(w), xs)
    ensures Expanded(l, HalfOf(w), Truncated(xs, HalfOf(w))) == xs
    ensures Latest(l, HalfOf(w), Truncated(xs, HalfOf(w))) == MaxOf(l, xs)
  {
    NearbyIndicesSurvive(l, HalfOf(w), xs);
    UnwrappingExactIff(l, w, xs);
    LatestIsMax(l, HalfOf(w), xs);
  }

  lemma {:induction false} LatestIsMax(l: uint64, half: Half, xs: seq<uint64>)
    requires Expanded(l, half, Truncated(xs, half)) == xs
    ensures Latest(l, half, Truncated(xs, half)) == MaxOf(l, xs)
    decreases |xs|
  {
    if xs == [] {
    } else {
      var wire := Truncated(xs, half);
      assert wire[1..] == Truncated(xs[1..], half);
      assert xs[0] == Expand(wire[0], half, l) && xs[1..] == Expanded(Max(xs[0], l), half, wire[1..]);
      LatestIsMax(Max(xs[0], l), half, xs[1..]);
    }
  }

  /** No step of the run leaves the last window of the 64-bit range. */
  predicate StaysInRange(l: uint64, half: Half, wire: seq<nat>)
    decreases |wire|
  {
    wire != [] ==> !RollsPastTheEnd(wire[0], half, l) && StaysInRange(ExpandedLatest(wire[0], half, l), half, wire[1..])
  }

  function Ceiling(l: nat, half: Half, n: nat): nat
  {
    Max(l, 2 * half - 1) + n * half
  }

  /** Whatever arrives, the latest index never falls and n packets raise it by at most n half windows above the first
      window; and while that ceiling is below the last window the 64-bit counter cannot start over. */
  lemma {:induction false} GrowthBound(l: uint64, w: nat, wire: seq<nat>)
    requires 1 <= w <= 64 && forall t :: t in wire ==> t < Pow2(w)
    ensures l <= Latest(l, HalfOf(w), wire) <= Ceiling(l, HalfOf(w), |wire|)
    ensures Ceiling(l, HalfOf(w), |wire|) < U64 ==> StaysInRange(l, HalfOf(w), wire)
    decreases |wire|
  {
    var half := HalfOf(w);
    if wire == [] {
    } else {
      var l' := ExpandedLatest(wire[0], half, l);
      assert wire[0] in wire;
      GrowthStep(wire[0], w, l);
      assert forall t :: t in wire[1..] ==> t in wire;
      GrowthBound(l', w, wire[1..]);
      CeilingStep(l, l', half, |wire|);
    }
  }

  /** One packet: the latest index never falls, rises by at most half a window above the first one, and the result is
      never more than half a window behind it. */
  lemma GrowthStep(t: nat, w: nat, l: uint64)
    requires 1 <= w <= 64 && t < Pow2(w)
    ensures var half := HalfOf(w);
            && l <= ExpandedLatest(t, half, l) <= Max(l, 2 * half - 1) + half
            && (RollsPastTheEnd(t, half, l) ==> U64 <= l + half)
            && (!RollsPastTheEnd(t, half, l) ==> l <= Expand(t, half, l) + half)
  {
    ExpandFits(t, w, l);
    UnwrapNear(t, HalfOf(w), l);
  }

  lemma CeilingStep(l: nat, l': nat, half: Half, n: nat)
    requires n > 0 && half > 0 && l' <= Max(l, 2 * half - 1) + half
    ensures Ceiling(l', half, n - 1) <= Ceiling(l, half, n)
    ensures Max(l, 2 * half - 1) + half <= Ceiling(l, half, n)
  {
    Distribute(n - 1, half);
    MulMonotone(0, n - 1, half);
  }
}
