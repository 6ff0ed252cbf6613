/**
 * The tap-to-focus transform: a point in the view's coordinates becomes a
 * point of interest in the capture device's coordinates, where the unit
 * square covers the frame and the axes are rotated a quarter turn.
 */
module Focus {

  datatype Point = Point(x: real, y: real)

  /** Width and height of the view that received the tap; a tap can only land on a non-empty view. */
  datatype ViewSize = ViewSize(width: real, height: real)

  predicate NonEmpty(v: ViewSize) {
    v.width > 0.0 && v.height > 0.0
  }

  predicate InView(p: Point, v: ViewSize) {
    0.0 <= p.x <= v.width && 0.0 <= p.y <= v.height
  }

  predicate InUnitSquare(f: Point) {
    0.0 <= f.x <= 1.0 && 0.0 <= f.y <= 1.0
  }

  /**
   * The point of interest for a tap at `p`: the tap's y over the height, and
   * one minus its x over the width. It is determined by the relations below,
   * and a tap inside the view gives a point in the unit square.
   */
  function FocusPoint(p: Point, v: ViewSize): (f: Point)
    requires NonEmpty(v)
    ensures f.x * v.height == p.y
    ensures (1.0 - f.y) * v.width == p.x
    ensures InView(p, v) ==> InUnitSquare(f)
  {
    Point(p.y / v.height, 1.0 - p.x / v.width)
  }

  /** The inverse transform: the view point a point of interest stands for. */
  function ViewPoint(f: Point, v: ViewSize): Point
  {
    Point(v.width * (1.0 - f.y), v.height * f.x)
  }

  lemma ScaleUnit(k: real, t: real)
    requires k > 0.0 && 0.0 <= t <= 1.0
    ensures 0.0 <= k * t <= k
  {
    assert k * t <= k * 1.0;
  }

  lemma MulDiv(a: real, k: real)
    requires k != 0.0
    ensures (k * a) / k == a
  {
  }

  /** Tapping and mapping back returns the tap. */
  lemma {:induction false} FocusPointRoundTrip(p: Point, v: ViewSize)
    requires NonEmpty(v)
    ensures ViewPoint(FocusPoint(p, v), v) == p
  {
    var f := FocusPoint(p, v);
    assert v.height * f.x == p.y;
    assert v.width * (1.0 - f.y) == p.x;
  }

  /** Every point of interest is the transform of the view point it stands for. */
  lemma {:induction false} ViewPointRoundTrip(f: Point, v: ViewSize)
    requires NonEmpty(v)
    ensures FocusPoint(ViewPoint(f, v), v) == f
  {
    MulDiv(f.x, v.height);
    MulDiv(1.0 - f.y, v.width);
  }

  /** The unit square stands for the view: its points map back to points inside the view. */
  lemma {:induction false} UnitSquareCoversView(f: Point, v: ViewSize)
    requires NonEmpty(v) && InUnitSquare(f)
    ensures InView(ViewPoint(f, v), v)
  {
    ScaleUnit(v.width, 1.0 - f.y);
    ScaleUnit(v.height, f.x);
  }
}
