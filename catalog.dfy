/**
  The static size catalog (`SIZES` in pages/index.js): three print sizes in inches,
  each tagged with the orientation that selects which uploaded image is shown.
 */
module Catalog {

  datatype Orientation = Portrait | Landscape

  /** One catalog entry; `width` and `height` are in inches, `caption` is the button text (`label`). */
  datatype Size = Size(id: string, width: real, height: real, caption: string, orientation: Orientation)

  const SIZES: seq<Size> := [
    Size("16x20", 16.0, 20.0, "16\" × 20\"", Portrait),
    Size("19.5x27.5", 19.5, 27.5, "19.5\" × 27.5\"", Portrait),
    Size("24x36", 24.0, 36.0, "24\" × 36\"", Landscape)
  ]

  /** The entry selected when the component first renders. */
  const DefaultSize: Size := SIZES[0]

  /** A size has a drawable, strictly positive extent. */
  predicate Positive(size: Size) {
    size.width > 0.0 && size.height > 0.0
  }

  /**
    The catalog as written: three entries with distinct ids, every one positive; the first
    two are portrait and the third landscape, and the default is the 16" x 20" portrait entry.
   */
  lemma CatalogShape()
    ensures |SIZES| == 3
    ensures forall i :: 0 <= i < |SIZES| ==> Positive(SIZES[i])
    ensures forall i, j :: 0 <= i < j < |SIZES| ==> SIZES[i].id != SIZES[j].id
    ensures SIZES[0].orientation == Portrait && SIZES[1].orientation == Portrait
    ensures SIZES[2].orientation == Landscape
    ensures DefaultSize.id == "16x20" && DefaultSize.orientation == Portrait
  {
  }

  /**
    Every entry, the landscape one included, is taller than it is wide: the landscape
    entry is recorded as 24 wide by 36 high, so its overlay is drawn in portrait shape.
   */
  lemma EveryEntryTallerThanWide(size: Size)
    requires size in SIZES
    ensures size.height > size.width
    ensures size.orientation == Landscape <==> size.id == "24x36"
  {
  }
}
