/** Choice of the simulcast layer for a subscriber. */
module Layers {

  datatype Layer = None | Low | Medium | High {
    function Rank(): nat {
      match this
      case None => 0
      case Low => 1
      case Medium => 2
      case High => 3
    }
  }

  datatype Metadata = Metadata(maxWidth: int, maxHeight: int, muted: bool)

  /** The layer that the code's comparisons pick for a computed ratio. */
  function LayerOfRatio(ratio: real): Layer {
    if ratio <= 1.0 then High else if ratio <= 2.0 then Medium else Low
  }

  /** The layer whose resolution is closest to the requested one. */
  function DesiredLayer(fullWidth: int, fullHeight: int, width: int, height: int): Layer {
    var fullSize, desiredSize := fullWidth + fullHeight, width + height;
    if fullSize == 0 || desiredSize == 0 then Low
    else LayerOfRatio(fullSize as real / desiredSize as real)
  }

  function FirstAvailable(priority: seq<Layer>, layers: set<Layer>): Layer {
    if priority == [] then Low
    else if priority[0] in layers then priority[0]
    else FirstAvailable(priority[1..], layers)
  }

  function OptimalLayer(layers: set<Layer>, metadata: Metadata, width: int, height: int): Layer {
    if None in layers || layers == {} then None
    else
      var desired := DesiredLayer(metadata.maxWidth, metadata.maxHeight, width, height);
      FirstAvailable([desired, Medium, Low, High], layers)
  }

  lemma UnfoldPriority(desired: Layer, layers: set<Layer>)
    ensures FirstAvailable([desired, Medium, Low, High], layers)
            == if desired in layers then desired
               else if Medium in layers then Medium
               else if Low in layers then Low
               else if High in layers then High
               else Low
  {
    var p0, p1, p2, p3 := [desired, Medium, Low, High], [Medium, Low, High], [Low, High], [High];
    assert p0[1..] == p1 && p1[1..] == p2 && p2[1..] == p3 && p3[1..] == [];
    assert FirstAvailable(p3, layers) == if High in layers then High else Low;
    assert FirstAvailable(p2, layers) == if Low in layers then Low else FirstAvailable(p3, layers);
    assert FirstAvailable(p1, layers) == if Medium in layers then Medium else FirstAvailable(p2, layers);
  }

  /** The chosen layer is available as soon as any simulcast layer is, and `None` otherwise: the fallback at the end of
      the search is never reached. */
  lemma OptimalIsAvailable(layers: set<Layer>, metadata: Metadata, width: int, height: int)
    ensures var l := OptimalLayer(layers, metadata, width, height);
            if layers == {} || None in layers then l == None else l in layers
  {
    if layers != {} && None !in layers {
      var l :| l in layers;
      UnfoldPriority(DesiredLayer(metadata.maxWidth, metadata.maxHeight, width, height), layers);
      assert l == Low || l == Medium || l == High;
    }
  }

  function Apart(a: Layer, b: Layer): nat {
    if a.Rank() < b.Rank() then b.Rank() - a.Rank() else a.Rank() - b.Rank()
  }

  /** It is the closest available layer to the desired one, the lower of two equally close ones. */
  lemma OptimalIsClosest(layers: set<Layer>, metadata: Metadata, width: int, height: int, other: Layer)
    requires None !in layers && other in layers
    ensures var l := OptimalLayer(layers, metadata, width, height);
            var desired := DesiredLayer(metadata.maxWidth, metadata.maxHeight, width, height);
            && Apart(l, desired) <= Apart(other, desired)
            && (Apart(l, desired) == Apart(other, desired) ==> l.Rank() <= other.Rank())
  {
    UnfoldPriority(DesiredLayer(metadata.maxWidth, metadata.maxHeight, width, height), layers);
  }

  lemma RatioTest(full: int, desired: int, bound: real)
    requires desired > 0
    ensures full as real / desired as real <= bound <==> full as real <= bound * desired as real
  {
    var q := full as real / desired as real;
    assert q * desired as real == full as real;
    if q <= bound {
      Scaled(q, bound, desired as real);
    } else {
      Scaled(bound, q, desired as real);
      assert bound * desired as real != q * desired as real;
    }
  }

  lemma Scaled(a: real, b: real, d: real)
    requires a <= b && d > 0.0
    ensures a * d <= b * d && (a < b ==> a * d < b * d)
  {
    assert (b - a) * d >= 0.0;
    assert a < b ==> (b - a) * d > 0.0;
  }

  lemma DesiredByComparison(fullWidth: int, fullHeight: int, width: int, height: int)
    requires width + height > 0
    ensures var full, size := fullWidth + fullHeight, width + height;
            DesiredLayer(fullWidth, fullHeight, width, height)
            == if full == 0 then Low
               else if full <= size then High
               else if full <= 2 * size then Medium
               else Low
  {
    RatioTest(fullWidth + fullHeight, width + height, 1.0);
    RatioTest(fullWidth + fullHeight, width + height, 2.0);
  }

  /** Asking for more never gets less, whatever layers are available. */
  lemma OptimalIsMonotone(layers: set<Layer>, metadata: Metadata, w: int, h: int, w': int, h': int)
    requires 0 <= w + h <= w' + h'
    ensures OptimalLayer(layers, metadata, w, h).Rank() <= OptimalLayer(layers, metadata, w', h').Rank()
  {
    if w + h > 0 { DesiredByComparison(metadata.maxWidth, metadata.maxHeight, w, h); }
    if w' + h' > 0 { DesiredByComparison(metadata.maxWidth, metadata.maxHeight, w', h'); }
    UnfoldPriority(DesiredLayer(metadata.maxWidth, metadata.maxHeight, w, h), layers);
    UnfoldPriority(DesiredLayer(metadata.maxWidth, metadata.maxHeight, w', h'), layers);
  }

  /** A negative request is answered as if the sign were gone from both sizes. */
  lemma DesiredForNegative(fullWidth: int, fullHeight: int, width: int, height: int)
    requires width + height < 0
    ensures var full, size := fullWidth + fullHeight, width + height;
            DesiredLayer(fullWidth, fullHeight, width, height)
            == if full == 0 then Low
               else if size <= full then High
               else if 2 * size <= full then Medium
               else Low
  {
    var full, size := fullWidth + fullHeight, width + height;
    NegateBoth(full, size);
    RatioTest(-full, -size, 1.0);
    RatioTest(-full, -size, 2.0);
  }

  lemma NegateBoth(full: int, size: int)
    requires size < 0
    ensures full as real / size as real == (-full) as real / (-size) as real
  {
    var q, d := full as real / size as real, size as real;
    assert q * d == full as real;
    assert q * (-d) == -(full as real);
    assert (-full) as real == -(full as real) && (-size) as real == -d;
  }

  lemma ZeroRequestGetsLeast(layers: set<Layer>, metadata: Metadata, w: int, h: int)
    ensures OptimalLayer(layers, metadata, 0, 0).Rank() <= OptimalLayer(layers, metadata, w, h).Rank()
  {
    UnfoldPriority(Low, layers);
    UnfoldPriority(DesiredLayer(metadata.maxWidth, metadata.maxHeight, w, h), layers);
  }

  /** The request is negative, the track's size is known, and there is a lower layer to choose than the one that the
      request, with its sign taken away on both sides of the comparison, asks for. */
  predicate CanDrop(layers: set<Layer>, metadata: Metadata, size: int) {
    var full := metadata.maxWidth + metadata.maxHeight;
    && size < 0 && full != 0 && None !in layers
    && if size <= full then exists a, b :: a in layers && b in layers && a != b
       else 2 * size <= full && Low in layers && Medium in layers
  }

  ghost predicate NotLower(layers: set<Layer>, metadata: Metadata, w: int, h: int, w': int, h': int) {
    OptimalLayer(layers, metadata, w, h).Rank() <= OptimalLayer(layers, metadata, w', h').Rank()
  }

  /** Asking for more can get less exactly then; sizes come from clients and may have any sign. */
  lemma OptimalIsMonotoneIff(layers: set<Layer>, metadata: Metadata, w: int, h: int)
    ensures (forall w': int, h': int :: w' + h' >= w + h ==> NotLower(layers, metadata, w, h, w', h'))
            <==> !CanDrop(layers, metadata, w + h)
  {
    if w + h >= 0 {
      forall w': int, h': int | w' + h' >= w + h ensures NotLower(layers, metadata, w, h, w', h') {
        OptimalIsMonotone(layers, metadata, w, h, w', h');
      }
    } else {
      NegativeGetsMoreIff(layers, metadata, w, h);
      forall w': int, h': int
        ensures NotLower(layers, metadata, w, h, 0, 0) ==> NotLower(layers, metadata, w, h, w', h')
      {
        ZeroRequestGetsLeast(layers, metadata, w', h');
      }
    }
  }

  lemma NegativeGetsMoreIff(layers: set<Layer>, metadata: Metadata, w: int, h: int)
    requires w + h < 0
    ensures NotLower(layers, metadata, w, h, 0, 0) <==> !CanDrop(layers, metadata, w + h)
  {
    DesiredForNegative(metadata.maxWidth, metadata.maxHeight, w, h);
    UnfoldPriority(DesiredLayer(metadata.maxWidth, metadata.maxHeight, w, h), layers);
    UnfoldPriority(Low, layers);
    if layers != {} && None !in layers {
      var a :| a in layers;
      assert forall b :: b in layers ==> b == Low || b == Medium || b == High;
    }
  }

  // ---------------------------------------------------------------------------------------------
  // Rounding
  // ---------------------------------------------------------------------------------------------

  function Gap(a: real, b: real): real {
    if a < b then b - a else a - b
  }

  /** Next above 1 and 2 among the binary32 numbers: steps of 2^-23 and 2^-22. */
  const AFTER_ONE: real := 8388609.0 / 8388608.0
  const AFTER_TWO: real := 8388609.0 / 4194304.0

  /** What rounding to nearest guarantees of a computed quotient, in so far as it matters here: none of these four
      binary32 numbers is closer to the exact one. */
  predicate RoundedToNearest(exact: real, computed: real) {
    && Gap(exact, computed) <= Gap(exact, 1.0) && Gap(exact, computed) <= Gap(exact, 2.0)
    && Gap(exact, computed) <= Gap(exact, AFTER_ONE) && Gap(exact, computed) <= Gap(exact, AFTER_TWO)
  }

  /** Sizes below 2^24 are binary32 numbers themselves, and then rounding the quotient cannot change the layer. */
  lemma RoundingKeepsLayer(full: int, size: int, computed: real)
    requires 0 < full < 0x100_0000 && 0 < size < 0x100_0000
    requires RoundedToNearest(full as real / size as real, computed)
    ensures LayerOfRatio(computed) == DesiredLayer(full, 0, size, 0)
  {
    var q := full as real / size as real;
    RatioTest(full, size, 1.0);
    RatioTest(full, size, 2.0);
    if full > size { AboveByMore(full, size, 1, 16777216.0); }
    if full > 2 * size { AboveByMore(full, size, 2, 8388608.0); }
  }

  /** A quotient above n exceeds it by more than 1/bound when the divisor is below the bound. */
  lemma AboveByMore(full: int, size: int, n: int, bound: real)
    requires size > 0 && full > n * size && size as real < bound
    ensures full as real / size as real - n as real > 1.0 / bound
  {
    var d, q := size as real, full as real / size as real;
    assert (q - n as real) * d >= 1.0 by {
      assert q * d == full as real;
      assert (q - n as real) * d == full as real - n as real * d;
      assert full - n * size >= 1;
      assert (n * size) as real == n as real * d;
    }
    DivideOut(q - n as real, d, bound);
  }

  lemma DivideOut(x: real, d: real, bound: real)
    requires x * d >= 1.0 && 0.0 < d < bound
    ensures x > 1.0 / bound
  {
    var e, gap := 1.0 / bound, bound - d;
    assert x > 0.0 && gap > 0.0;
    assert x * gap > 0.0;
    assert x * bound == x * d + x * gap;
    assert e * bound == 1.0;
    assert (x - e) * bound == x * bound - e * bound;
  }
}
