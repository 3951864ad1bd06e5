/**
  Where a tap lands: which coordinate of the pointer event is used, and how it is turned
  into percentages of the camera container (`placeArtwork` in pages/index.js).
 */
module Placement {

  /** A point in client (viewport) pixels, or a position in percent of the container. */
  datatype Point = Point(x: real, y: real)

  /** The container's bounding client rectangle. */
  datatype Rect = Rect(left: real, top: real, width: real, height: real)

  predicate NonEmpty(rect: Rect) {
    rect.width > 0.0 && rect.height > 0.0
  }

  /** The two kinds of event the tap layer listens to (`onClick` and `onTouchEnd`). */
  datatype EventType = Click | TouchEnd

  /**
    A pointer event: its touch lists (empty where the event has none) and its own
    `clientX`/`clientY` fields.
   */
  datatype PointerEvent = PointerEvent(kind: EventType, changedTouches: seq<Point>, touches: seq<Point>, client: Point)

  /** The tap coordinate: the first changed touch of a touch-end, else the first active touch, else the event's own fields. */
  function TapPoint(e: PointerEvent): Point
  {
    if e.kind == TouchEnd && |e.changedTouches| > 0 then e.changedTouches[0]
    else if |e.touches| > 0 then e.touches[0]
    else e.client
  }

  /** An independent reading of the same rule: the head of the first non-empty candidate list, else the fallback. */
  function FirstAvailable(candidates: seq<seq<Point>>, fallback: Point): Point
  {
    if candidates == [] then fallback
    else if candidates[0] != [] then candidates[0][0]
    else FirstAvailable(candidates[1..], fallback)
  }

  /**
    The coordinate source is an ordered fallback: changed touches (only for a touch-end),
    then active touches, then the event's client fields. In particular a touch-end whose
    active-touch list is already empty still uses its changed touch.
   */
  lemma {:induction false} TapPointOrder(e: PointerEvent)
    ensures TapPoint(e) == FirstAvailable([if e.kind == TouchEnd then e.changedTouches else [], e.touches], e.client)
    ensures e.kind == TouchEnd && e.changedTouches != [] ==> TapPoint(e) == e.changedTouches[0]
    ensures e.kind == Click && e.touches == [] ==> TapPoint(e) == e.client
  {
    var first := if e.kind == TouchEnd then e.changedTouches else [];
    var cs := [first, e.touches];
    assert cs[1..] == [e.touches];
    assert [e.touches][1..] == [];
    if first == [] {
      assert FirstAvailable(cs, e.client) == FirstAvailable([e.touches], e.client);
      if e.touches == [] {
        assert FirstAvailable([e.touches], e.client) == FirstAvailable([], e.client);
      }
    }
  }

  /** Client point to percent of the container's width and height. */
  function Normalize(p: Point, rect: Rect): (pos: Point)
    requires NonEmpty(rect)
    ensures Denormalize(pos, rect) == p
  {
    PercentRoundTrip(p.x - rect.left, rect.width);
    PercentRoundTrip(p.y - rect.top, rect.height);
    Point((p.x - rect.left) / rect.width * 100.0, (p.y - rect.top) / rect.height * 100.0)
  }

  /** An offset taken to percent of an extent and back is the offset itself. */
  lemma PercentRoundTrip(offset: real, extent: real)
    requires extent > 0.0
    ensures offset / extent * 100.0 / 100.0 * extent == offset
  {
  }

  /** Percent of the container back to a client point: where the overlay's centre is drawn. */
  function Denormalize(pos: Point, rect: Rect): Point
  {
    Point(rect.left + pos.x / 100.0 * rect.width, rect.top + pos.y / 100.0 * rect.height)
  }

  predicate Inside(p: Point, rect: Rect) {
    rect.left <= p.x <= rect.left + rect.width && rect.top <= p.y <= rect.top + rect.height
  }

  predicate InPercentRange(pos: Point) {
    0.0 <= pos.x <= 100.0 && 0.0 <= pos.y <= 100.0
  }

  /** A point lies in the container exactly when its normalised position is within 0..100 on both axes. */
  lemma NormalizeRange(p: Point, rect: Rect)
    requires NonEmpty(rect)
    ensures Inside(p, rect) <==> InPercentRange(Normalize(p, rect))
  {
    PercentInRange(p.x - rect.left, rect.width);
    PercentInRange(p.y - rect.top, rect.height);
  }

  /** An offset lies within an extent exactly when its percentage lies within 0..100. */
  lemma PercentInRange(offset: real, extent: real)
    requires extent > 0.0
    ensures 0.0 <= offset / extent * 100.0 <= 100.0 <==> 0.0 <= offset <= extent
  {
    var q := offset / extent;
    assert q * extent == offset;
  }

  /** Distinct taps give distinct positions: normalisation loses nothing. */
  lemma NormalizeInjective(p: Point, q: Point, rect: Rect)
    requires NonEmpty(rect) && Normalize(p, rect) == Normalize(q, rect)
    ensures p == q
  {
  }

  /** A tap at (300, 400) in a 1000 x 800 container at the origin lands at (30 %, 50 %). */
  lemma NormalizeExample()
    ensures Normalize(Point(300.0, 400.0), Rect(0.0, 0.0, 1000.0, 800.0)) == Point(30.0, 50.0)
  {
  }
}
