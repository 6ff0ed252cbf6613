/**
 * The still-capture decisions of FSCameraView's shutter handler: which
 * orientation is in effect, how the video connection is rotated, the
 * width/height swap, the square crop rectangle and the choice of the image
 * handed to the delegate. Sizes are CGFloat in the source; here they are reals.
 */
module Capture {
  import opened Options
  import opened Orientation

  /** AVCaptureVideoOrientation: the rotation requested of the still-image connection. */
  datatype VideoOrientation =
    | Portrait
    | PortraitUpsideDown
    | LandscapeRight
    | LandscapeLeft

  /** UIImage.Orientation: the orientation tag an image carries. */
  datatype ImageOrientation =
    | Up | Down | Left | Right
    | UpMirrored | DownMirrored | LeftMirrored | RightMirrored

  datatype Size = Size(width: real, height: real)

  datatype Rect = Rect(x: real, y: real, width: real, height: real)

  /** The decoded still: its size as UIImage reports it and its orientation tag. */
  datatype CapturedImage = CapturedImage(size: Size, orientation: ImageOrientation)

  /**
   * What reaches the delegate: the decoded still itself, or a new image made
   * from the cropped pixels with a scale and an orientation tag.
   */
  datatype OutputImage =
    | Original
    | Cropped(crop: Rect, scale: real, orientation: ImageOrientation)

  /**
   * The orientation the shutter handler uses: the last tilt sample when the
   * accelerometer has produced one, otherwise the orientation the device reports.
   */
  function OrientationInEffect(stored: Option<DeviceOrientation>, reported: DeviceOrientation): (o: DeviceOrientation)
    ensures stored.Some? ==> o == stored.value
    ensures stored.None? ==> o == reported
  {
    stored.GetOr(reported)
  }

  /**
   * The rotation requested of the video connection. The two landscape
   * directions are exchanged; the portrait ones keep their name; anything
   * else (unknown, face up, face down) falls back to portrait.
   */
  function CaptureRotation(o: DeviceOrientation): (v: VideoOrientation)
    ensures o == DeviceOrientation.Portrait ==> v == VideoOrientation.Portrait
    ensures o == DeviceOrientation.PortraitUpsideDown ==> v == VideoOrientation.PortraitUpsideDown
    ensures o == DeviceOrientation.LandscapeRight ==> v == VideoOrientation.LandscapeLeft
    ensures o == DeviceOrientation.LandscapeLeft ==> v == VideoOrientation.LandscapeRight
    ensures !IsUpright(o) ==> v == VideoOrientation.Portrait
  {
    match o
    case Portrait => VideoOrientation.Portrait
    case PortraitUpsideDown => VideoOrientation.PortraitUpsideDown
    case LandscapeRight => VideoOrientation.LandscapeLeft
    case LandscapeLeft => VideoOrientation.LandscapeRight
    case _ => VideoOrientation.Portrait
  }

  /** The device orientation whose name a video orientation carries. */
  function SameNamed(v: VideoOrientation): (o: DeviceOrientation)
    ensures IsUpright(o)
  {
    match v
    case Portrait => DeviceOrientation.Portrait
    case PortraitUpsideDown => DeviceOrientation.PortraitUpsideDown
    case LandscapeRight => DeviceOrientation.LandscapeRight
    case LandscapeLeft => DeviceOrientation.LandscapeLeft
  }

  predicate IsLandscapeRotation(v: VideoOrientation) {
    v.LandscapeLeft? || v.LandscapeRight?
  }

  /**
   * On the landscape orientations the rotation table is the half turn, so
   * applying it twice (reading each result back by name) is the identity there.
   */
  lemma CaptureRotationLandscapeInvolution(o: DeviceOrientation)
    requires IsLandscape(o)
    ensures SameNamed(CaptureRotation(o)) == HalfTurn(o)
    ensures IsLandscape(SameNamed(CaptureRotation(o)))
    ensures SameNamed(CaptureRotation(SameNamed(CaptureRotation(o)))) == o
  {
  }

  /** The connection is rotated to a landscape orientation exactly when the orientation in effect is landscape. */
  lemma CaptureRotationLandscapeIff(o: DeviceOrientation)
    ensures IsLandscapeRotation(CaptureRotation(o)) <==> IsLandscape(o)
  {
  }

  /**
   * For an orientation that came from a tilt sample the fallback row of the
   * table is never used: the connection is landscape exactly when the x axis
   * dominates, and the landscape direction is the half turn of the tilt's.
   */
  lemma TiltCaptureRotation(a: Acceleration)
    ensures var t := TiltOrientation(a);
      && (IsLandscapeRotation(CaptureRotation(t)) <==> Abs(a.y) < Abs(a.x))
      && SameNamed(CaptureRotation(t)) == (if IsLandscape(t) then HalfTurn(t) else t)
  {
  }

  /**
   * The image size the crop is computed from: the reported width and height,
   * exchanged when the orientation in effect is landscape.
   */
  function EffectiveSize(o: DeviceOrientation, image: Size): (s: Size)
    ensures IsLandscape(o) ==> s.width == image.height && s.height == image.width
    ensures !IsLandscape(o) ==> s == image
  {
    match o
    case LandscapeLeft | LandscapeRight => Size(image.height, image.width)
    case _ => image
  }

  /** The width/height exchange happens exactly when the connection was rotated to landscape. */
  lemma EffectiveSizeFollowsRotation(o: DeviceOrientation, image: Size)
    requires image.width != image.height
    ensures EffectiveSize(o, image) != image <==> IsLandscapeRotation(CaptureRotation(o))
  {
  }

  /**
   * The crop rectangle: a square of side iw whose horizontal centre is ih/2,
   * at y = 0. It starts at a non-negative x exactly when ih >= iw. Nothing
   * checks that condition: when ih < iw the rectangle has a negative x.
   */
  function CropRect(s: Size): (r: Rect)
    ensures r.width == s.width && r.height == s.width && r.y == 0.0
    ensures r.x + r.width / 2.0 == s.height / 2.0
    ensures r.x >= 0.0 <==> s.height >= s.width
    ensures s.width == s.height ==> r.x == 0.0
  {
    var rcy := s.height * 0.5;
    Rect(rcy - s.width * 0.5, 0.0, s.width, s.width)
  }

  /**
   * The square spans [x, x + iw], which lies inside [0, ih] exactly when
   * ih >= iw, and then leaves equal margins on both sides.
   */
  lemma CropRectWithinSpan(s: Size)
    ensures var r := CropRect(s);
      (0.0 <= r.x && r.x + r.width <= s.height) <==> s.width <= s.height
    ensures var r := CropRect(s);
      r.x == s.height - (r.x + r.width)
  {
  }

  /** Both dimensions of a decoded still are positive. */
  predicate ValidSize(s: Size) {
    s.width > 0.0 && s.height > 0.0
  }

  /**
   * The image delivered to the delegate for one shot, or None when
   * CGImage cropping produced nothing (`croppingSucceeded` false). The
   * crop is attempted in both modes, so a failed crop delivers nothing even
   * when cropping is switched off. Uncropped, the delegate receives the
   * decoded still untouched, front camera included. Cropped, the scale maps
   * the crop width to the preview width `sw`, and the tag is the still's own,
   * except on the front camera, where it is left-mirrored.
   */
  function ShotOutput(
    o: DeviceOrientation, image: CapturedImage, sw: real,
    cropEnabled: bool, isFront: bool, croppingSucceeded: bool): (r: Option<OutputImage>)
    requires ValidSize(image.size)
    ensures r.Some? <==> croppingSucceeded
    ensures r.Some? && !cropEnabled ==> r.value == Original
    ensures r.Some? && cropEnabled ==> r.value.Cropped?
    ensures r.Some? && cropEnabled ==>
      && r.value.crop == CropRect(EffectiveSize(o, image.size))
      && r.value.scale * r.value.crop.width == sw
      && r.value.orientation == (if isFront then LeftMirrored else image.orientation)
  {
    var s := EffectiveSize(o, image.size);
    var rect := CropRect(s);
    if !croppingSucceeded then None
    else if !cropEnabled then Some(Original)
    else if isFront then Some(Cropped(rect, sw / s.width, LeftMirrored))
    else Some(Cropped(rect, sw / s.width, image.orientation))
  }

  /** The mirroring override applies to every orientation, but only to cropped output. */
  lemma FrontCameraMirroring(o: DeviceOrientation, image: CapturedImage, sw: real, cropEnabled: bool)
    requires ValidSize(image.size)
    ensures cropEnabled ==>
      ShotOutput(o, image, sw, cropEnabled, true, true).value.orientation == LeftMirrored
    ensures !cropEnabled ==>
      ShotOutput(o, image, sw, cropEnabled, true, true) == ShotOutput(o, image, sw, cropEnabled, false, true)
  {
  }

  /** A portrait-native 3024 x 4032 still held in portrait, shown in a 375-point-wide preview. */
  lemma PortraitStillExample()
    ensures var r := ShotOutput(DeviceOrientation.Portrait, CapturedImage(Size(3024.0, 4032.0), Right), 375.0, true, false, true);
      r == Some(Cropped(Rect(504.0, 0.0, 3024.0, 3024.0), 375.0 / 3024.0, Right))
  {
  }

  /** A 4032 x 3024 still in portrait: nothing is swapped and the rectangle starts at x = -504. */
  lemma WideStillInPortraitExample()
    ensures CropRect(EffectiveSize(DeviceOrientation.Portrait, Size(4032.0, 3024.0))) == Rect(-504.0, 0.0, 4032.0, 4032.0)
    ensures CropRect(EffectiveSize(DeviceOrientation.LandscapeLeft, Size(4032.0, 3024.0))) == Rect(504.0, 0.0, 3024.0, 3024.0)
  {
  }
}
