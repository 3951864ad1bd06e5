/**
  Zoom steps and the inch-to-pixel conversion of pages/index.js. Zoom is an exact real,
  so the binary rounding of the source's 0.1 steps is not part of this model.
 */
module Sizing {
  import opened Catalog

  /** Fixed reference scale: a 36-inch side is drawn 250 pixels long at zoom 1. */
  const PixelsPerInch: real := 250.0 / 36.0

  const MinZoom: real := 0.5
  const MaxZoom: real := 2.0
  const ZoomStep: real := 0.1
  const DefaultZoom: real := 1.0

  predicate InZoomRange(scale: real) {
    MinZoom <= scale <= MaxZoom
  }

  function Max(a: real, b: real): real { if a < b then b else a }
  function Min(a: real, b: real): real { if a < b then a else b }

  /** The zoom-out button: one step down, never below the minimum. */
  function ZoomOut(scale: real): (r: real)
    ensures MinZoom <= r
    ensures r <= scale || r == MinZoom
    ensures InZoomRange(scale) ==> InZoomRange(r)
  {
    Max(MinZoom, scale - ZoomStep)
  }

  /** The zoom-in button: one step up, never above the maximum. */
  function ZoomIn(scale: real): (r: real)
    ensures r <= MaxZoom
    ensures scale <= r || r == MaxZoom
    ensures InZoomRange(scale) ==> InZoomRange(r)
  {
    Min(MaxZoom, scale + ZoomStep)
  }

  /** Pressing zoom-out `n` times in a row. */
  function ZoomOutTimes(scale: real, n: nat): real
  {
    if n == 0 then scale else ZoomOut(ZoomOutTimes(scale, n - 1))
  }

  /** Pressing zoom-in `n` times in a row. */
  function ZoomInTimes(scale: real, n: nat): real
  {
    if n == 0 then scale else ZoomIn(ZoomInTimes(scale, n - 1))
  }

  /** `n` zoom-out presses land on the unclamped value or on the floor, whichever is larger. */
  lemma {:induction false} ZoomOutTimesClamps(scale: real, n: nat)
    requires scale >= MinZoom
    ensures ZoomOutTimes(scale, n) == Max(MinZoom, scale - n as real * ZoomStep)
  {
    if n > 0 {
      ZoomOutTimesClamps(scale, n - 1);
    }
  }

  /** `n` zoom-in presses land on the unclamped value or on the ceiling, whichever is smaller. */
  lemma {:induction false} ZoomInTimesClamps(scale: real, n: nat)
    requires scale <= MaxZoom
    ensures ZoomInTimes(scale, n) == Min(MaxZoom, scale + n as real * ZoomStep)
  {
    if n > 0 {
      ZoomInTimesClamps(scale, n - 1);
    }
  }

  /**
    Presses at a bound change nothing, and from any in-range scale fifteen presses reach the
    bound; so a run of presses always ends at the bound and stays there.
   */
  lemma ZoomSaturates(scale: real, n: nat)
    requires InZoomRange(scale) && n >= 15
    ensures ZoomOut(MinZoom) == MinZoom && ZoomIn(MaxZoom) == MaxZoom
    ensures ZoomOutTimes(scale, n) == MinZoom
    ensures ZoomInTimes(scale, n) == MaxZoom
  {
    ZoomOutTimesClamps(scale, n);
    ZoomInTimesClamps(scale, n);
  }

  /** Away from the bounds the two buttons undo each other. */
  lemma ZoomInverse(scale: real)
    ensures MinZoom + ZoomStep <= scale <= MaxZoom ==> ZoomIn(ZoomOut(scale)) == scale
    ensures MinZoom <= scale <= MaxZoom - ZoomStep ==> ZoomOut(ZoomIn(scale)) == scale
  {
  }

  /** On-screen pixel size of the artwork overlay. */
  datatype Dimensions = Dimensions(width: real, height: real)

  /** `getArtworkDimensions`: inches times the fixed reference scale times the zoom. */
  function ArtworkDimensions(size: Size, scale: real): (d: Dimensions)
    ensures Positive(size) && scale > 0.0 ==> d.width > 0.0 && d.height > 0.0
    ensures d.width * size.height == d.height * size.width
    ensures scale != 0.0 ==> d.width / (PixelsPerInch * scale) == size.width
    ensures scale != 0.0 ==> d.height / (PixelsPerInch * scale) == size.height
  {
    var k := PixelsPerInch * scale;
    assert size.width * k * size.height == size.height * k * size.width;
    Dimensions(size.width * k, size.height * k)
  }

  /**
    For catalog sizes and in-range zoom the overlay is non-degenerate and has the print's
    aspect ratio; zoom scales both sides by the same factor.
   */
  lemma DimensionsPreserveAspect(size: Size, scale: real, other: real)
    requires size in SIZES && InZoomRange(scale) && InZoomRange(other)
    ensures ArtworkDimensions(size, scale).width > 0.0
    ensures ArtworkDimensions(size, scale).height > 0.0
    ensures ArtworkDimensions(size, scale).width / ArtworkDimensions(size, scale).height
         == size.width / size.height
    ensures ArtworkDimensions(size, other).width * scale
         == ArtworkDimensions(size, scale).width * other
  {
    CatalogShape();
    var d := ArtworkDimensions(size, scale);
    var k := PixelsPerInch * scale;
    assert d.width == size.width * k && d.height == size.height * k;
    assert k > 0.0;
    CancelFactor(size.width, size.height, k);
    var k2 := PixelsPerInch * other;
    assert size.width * k2 * scale == size.width * PixelsPerInch * (other * scale);
    assert size.width * k * other == size.width * PixelsPerInch * (scale * other);
  }

  /** A common non-zero factor cancels from a quotient. */
  lemma CancelFactor(a: real, b: real, k: real)
    requires b != 0.0 && k != 0.0
    ensures (a * k) / (b * k) == a / b
  {
  }

  /** The 36-inch side of the landscape entry is drawn 250 px at the default zoom. */
  lemma ReferenceLength()
    ensures ArtworkDimensions(SIZES[2], DefaultZoom).height == 250.0
  {
  }
}
