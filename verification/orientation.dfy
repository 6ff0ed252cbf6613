/**
 * Device orientations and the accelerometer tilt classifier of FSCameraView.
 * Accelerometer readings are doubles in the source; here they are reals.
 */
module Orientation {

  /** UIDeviceOrientation: what the platform or the tilt sensor says about the device's attitude. */
  datatype DeviceOrientation =
    | Unknown
    | Portrait
    | PortraitUpsideDown
    | LandscapeLeft
    | LandscapeRight
    | FaceUp
    | FaceDown

  /** One accelerometer sample, in units of g along the device's x and y axes. */
  datatype Acceleration = Acceleration(x: real, y: real)

  function Abs(r: real): (a: real)
    ensures a >= 0.0 && (a == r || a == -r)
  {
    if r < 0.0 then -r else r
  }

  predicate IsLandscape(o: DeviceOrientation) {
    o.LandscapeLeft? || o.LandscapeRight?
  }

  /** The four orientations the tilt classifier can produce. */
  predicate IsUpright(o: DeviceOrientation) {
    o.Portrait? || o.PortraitUpsideDown? || IsLandscape(o)
  }

  /**
   * The accelerometer callback's classification: a sample whose x component
   * dominates strictly is landscape (right when x is positive), every other
   * sample, ties included, is portrait (upside down when y is positive).
   */
  function TiltOrientation(a: Acceleration): (o: DeviceOrientation)
    ensures IsUpright(o)
    ensures IsLandscape(o) <==> Abs(a.y) < Abs(a.x)
    ensures o.LandscapeRight? <==> Abs(a.y) < Abs(a.x) && a.x > 0.0
    ensures o.LandscapeLeft? <==> Abs(a.y) < Abs(a.x) && a.x <= 0.0
    ensures o.PortraitUpsideDown? <==> Abs(a.x) <= Abs(a.y) && a.y > 0.0
    ensures o.Portrait? <==> Abs(a.x) <= Abs(a.y) && a.y <= 0.0
  {
    if Abs(a.y) < Abs(a.x) then
      (if a.x > 0.0 then LandscapeRight else LandscapeLeft)
    else
      (if a.y > 0.0 then PortraitUpsideDown else Portrait)
  }

  /** The orientation reached by turning the device half a turn within the screen plane. */
  function HalfTurn(o: DeviceOrientation): (h: DeviceOrientation)
    ensures IsUpright(o) <==> IsUpright(h)
    ensures IsUpright(o) ==> h != o
    ensures IsLandscape(o) <==> IsLandscape(h)
  {
    match o
    case Portrait => PortraitUpsideDown
    case PortraitUpsideDown => Portrait
    case LandscapeLeft => LandscapeRight
    case LandscapeRight => LandscapeLeft
    case _ => o
  }

  /** Two half turns bring the device back to where it was. */
  lemma HalfTurnInvolution(o: DeviceOrientation)
    ensures HalfTurn(HalfTurn(o)) == o
  {
  }

  /** A sample with a tie between the axes is always classified as a portrait orientation. */
  lemma TiltTieIsPortrait(a: Acceleration)
    requires Abs(a.x) == Abs(a.y)
    ensures !IsLandscape(TiltOrientation(a))
  {
  }

  lemma AbsScale(r: real, k: real)
    requires k > 0.0
    ensures Abs(k * r) == k * Abs(r)
  {
    if r < 0.0 {
      assert k * r < 0.0;
    } else {
      assert k * r >= 0.0;
    }
  }

  /** Multiplying by a positive factor keeps the order: `ku` and `kw` are the scaled `u` and `w`. */
  lemma ScaleOrder(k: real, u: real, w: real, ku: real, kw: real)
    requires k > 0.0 && ku == k * u && kw == k * w
    ensures ku < kw <==> u < w
  {
    assert kw - ku == k * (w - u);
  }

  /**
   * Only the direction of the gravity vector matters: scaling a sample by any
   * positive factor leaves its classification unchanged.
   */
  lemma TiltScaleInvariant(a: Acceleration, k: real)
    requires k > 0.0
    ensures TiltOrientation(Acceleration(k * a.x, k * a.y)) == TiltOrientation(a)
  {
    var b := Acceleration(k * a.x, k * a.y);
    AbsScale(a.x, k);
    AbsScale(a.y, k);
    ScaleOrder(k, Abs(a.y), Abs(a.x), Abs(b.y), Abs(b.x));
    ScaleOrder(k, 0.0, a.x, 0.0, b.x);
    ScaleOrder(k, 0.0, a.y, 0.0, b.y);
  }

  /**
   * Turning the device half a turn negates the sample; every sample other
   * than zero is then classified as the half-turned orientation.
   */
  lemma TiltHalfTurn(a: Acceleration)
    requires a != Acceleration(0.0, 0.0)
    ensures TiltOrientation(Acceleration(-a.x, -a.y)) == HalfTurn(TiltOrientation(a))
  {
  }
}
