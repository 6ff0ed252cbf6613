# FSCameraView decision rules and crop geometry

A verified model of the small pieces of logic inside Fusuma's camera view
(`Sources/FSCameraView.swift`). The view is mostly glue around the platform's
capture framework. The model keeps only the rules that can be stated on their own:

- the accelerometer tilt classifier and the stored "last tilt sample", which
  `stopCamera` clears;
- the orientation in effect at the shutter (the last tilt sample, else the
  orientation the device reports), and the table that turns it into the still
  connection's rotation;
- the crop geometry: the width/height swap for landscape, the square crop
  rectangle, and the choice of the image handed to the delegate (original or
  cropped, the scale, the left-mirrored tag on the front camera);
- the flash button's off/on toggle and the initial reset to off;
- the tap-to-focus point transform.

Modules: `Orientation` (orientation.dfy), `Capture` (capture.dfy), `Flash`
(flash.dfy), `Focus` (focus.dfy), the class `CameraView.CameraView` with the
device class `CameraView.CaptureDevice` (camera_view.dfy), and a small `Options`
module for Swift optionals (options.dfy).

The pure rules are Dafny functions with lemmas. The state the view changes in
place is a class. That state is the stored tilt sample, the device's flash
mode, the device reference and whether a still-image output is attached. Its
methods are proved against the functions.

Numbers are idealised. `CGFloat` sizes and the accelerometer's doubles are
Dafny `real`. The halvings `* 0.5` are exact in binary floating point. The
subtraction `rcy - iw*0.5` and the divisions (`sw/iw`, the focus transform) are
exact here and rounded in the source.

Platform calls are inputs to the model. These are camera authorization,
`lockForConfiguration`, JPEG decoding together with the presence of a delegate,
and `CGImage.cropping(to:)` returning nil. Each appears as a boolean parameter
saying whether the call succeeded. The reported device orientation and the
preview width are plain parameters.

Behaviour of the code that the model keeps as it is:

- The code has no error path for a still whose effective height is smaller
  than its width. It builds a rectangle with a negative x
  (`Capture.WideStillInPortraitExample`). The only failure after decoding is
  the silent return when cropping yields nil.
- With cropping switched off, the delegate receives the decoded still itself,
  on the front camera too. The left-mirrored tag is applied only to cropped
  output.
- The crop is attempted even when cropping is switched off. So a nil crop
  delivers nothing in either mode.

Preconditions that the source does not state:

- A decoded still has positive width and height (`Capture.ValidSize`). This
  is needed for `sw/iw`. The shutter method asks it only of a still that was
  decoded.
- A tap lands only on a view with positive width and height
  (`Focus.NonEmpty`). This is needed for the focus divisions.

## Model

| member | source | states |
|---|---|---|
| Orientation.TiltOrientation | Sources/FSCameraView.swift:156-163 | always one of portrait, upside down, landscape left or right; landscape iff abs(y) < abs(x), right iff also x > 0; otherwise upside down iff y > 0, else portrait |
| Orientation.TiltTieIsPortrait | Sources/FSCameraView.swift:156-162 | a sample with abs(x) = abs(y) is classified as a portrait orientation |
| Orientation.HalfTurnInvolution | Sources/FSCameraView.swift:156-163 | two half turns give back the orientation, so the half-turn reading of the classifier (`TiltHalfTurn`) and of the landscape rows of the rotation table is a symmetry |
| Orientation.TiltScaleInvariant | Sources/FSCameraView.swift:156-163 | scaling a sample by any positive factor does not change its classification |
| Orientation.TiltHalfTurn | Sources/FSCameraView.swift:156-163 | negating a non-zero sample (device turned half a turn) gives the half-turned orientation: left and right swap, portrait and upside down swap |
| Capture.OrientationInEffect | Sources/FSCameraView.swift:196 | the stored tilt orientation when there is one, otherwise the reported device orientation |
| Capture.CaptureRotation | Sources/FSCameraView.swift:198-219 | portrait and upside down keep their name, landscape right gives landscape left and vice versa, every other orientation gives portrait |
| Capture.CaptureRotationLandscapeInvolution | Sources/FSCameraView.swift:208-214 | on the landscape orientations the table is the half turn, and applying it twice returns the orientation |
| Capture.CaptureRotationLandscapeIff | Sources/FSCameraView.swift:198-219 | the connection is rotated to landscape iff the orientation in effect is landscape |
| Capture.TiltCaptureRotation | Sources/FSCameraView.swift:198-219 | for an orientation from a tilt sample, the rotation is landscape iff abs(y) < abs(x), and the fallback row is never used |
| Capture.EffectiveSize | Sources/FSCameraView.swift:236-249 | (iw, ih) is (height, width) when the orientation is landscape left or right, and (width, height) otherwise |
| Capture.EffectiveSizeFollowsRotation | Sources/FSCameraView.swift:236-249 | for a non-square still, width and height are exchanged iff the connection was rotated to landscape |
| Capture.CropRect | Sources/FSCameraView.swift:255-257 | the rectangle is a square of side iw at y = 0 with horizontal centre ih/2; x >= 0 iff ih >= iw; x = 0 when iw = ih |
| Capture.CropRectWithinSpan | Sources/FSCameraView.swift:255-257 | the square's horizontal extent lies within [0, ih] iff iw <= ih, with equal margins on both sides |
| Capture.ShotOutput | Sources/FSCameraView.swift:257-266 | nothing is delivered iff cropping fails; uncropped output is the original still; cropped output uses the crop rectangle, its scale times the crop width is the preview width, and its tag is the still's own, or left-mirrored on the front camera |
| Capture.FrontCameraMirroring | Sources/FSCameraView.swift:264-266 | on the front camera cropped output is left-mirrored for every orientation; uncropped output is the same as on the back camera |
| Capture.PortraitStillExample | Sources/FSCameraView.swift:236-266 | a 3024 x 4032 still in portrait gives the crop (504, 0, 3024, 3024) at scale 375/3024 for a 375-wide preview |
| Capture.WideStillInPortraitExample | Sources/FSCameraView.swift:236-257 | a 4032 x 3024 still gives x = -504 in portrait and x = 504 once swapped in landscape |
| Flash.Toggle | Sources/FSCameraView.swift:351-366 | off becomes on, on becomes off, auto stays auto, and each iff |
| Flash.ToggleTwice | Sources/FSCameraView.swift:351-366 | pressing twice restores the mode |
| Flash.PressesParity | Sources/FSCameraView.swift:351-366 | after n presses the mode is the initial one for even n and the toggled one for odd n |
| Flash.Configured | Sources/FSCameraView.swift:456-462 | a device with a flash is left off; one without a flash is untouched |
| Flash.PressesFromConfigured | Sources/FSCameraView.swift:347-366 | from the configured state an odd number of presses leaves the flash on and an even number leaves it off |
| Focus.FocusPoint | Sources/FSCameraView.swift:395 | the point of interest (fx, fy) satisfies fx * h = py and (1 - fy) * w = px; a tap inside the view gives a point in the unit square |
| Focus.FocusPointRoundTrip | Sources/FSCameraView.swift:395 | mapping the point of interest back to the view returns the tap |
| Focus.ViewPointRoundTrip | Sources/FSCameraView.swift:395 | every point of interest is the transform of the view point it maps back to |
| Focus.UnitSquareCoversView | Sources/FSCameraView.swift:395 | a point of interest in the unit square maps back to a point inside the view |
| CameraView.CameraView.AccelerometerUpdate | Sources/FSCameraView.swift:152-164 | a delivered sample replaces the stored orientation with its tilt classification; a missing sample changes nothing |
| CameraView.CameraView.StopCamera | Sources/FSCameraView.swift:177-182 | the stored tilt sample is cleared, so the orientation in effect becomes the reported one |
| CameraView.CameraView.FlashButtonPressed | Sources/FSCameraView.swift:341-377 | the device's flash mode is toggled when the camera is authorized, the device has a flash and can be locked; otherwise it is unchanged |
| CameraView.CameraView.FlashConfiguration | Sources/FSCameraView.swift:452-473 | a device with a flash that can be locked is set to off; otherwise its mode is unchanged |
| CameraView.CameraView.ShotButtonPressed | Sources/FSCameraView.swift:184-284 | without an output nothing changes; otherwise the rotation follows the orientation in effect, the stored sample is cleared, the delivered image is the output choice for that orientation and the device's camera side, and a delivery releases the device and the output |

## Left out

- Session, device discovery, input/output setup and the flip-camera reconfiguration (lines 80-113, 286-339). These are calls into the capture framework, whose behaviour is not visible here.
- Camera permission checks (`startCamera`'s switch, `cameraIsAvailable`). These are platform services; their outcome is a parameter.
- The motion-manager subscription, its 0.2 s interval and the background and main-queue hops (lines 150-152, 192, 262). The model assumes each method runs to completion and that no tilt sample is stored between the shutter reading the stored orientation and the capture. In the source the callback runs on its own queue (line 152), so a sample already queued can be stored after `stopCamera` clears the field (line 181); `CameraView.CameraView.ShotButtonPressed`'s promise that the stored sample is cleared holds only in the model.
- JPEG decoding and pixel extraction by `CGImage.cropping(to:)`. Only the rectangle is modelled. Whether cropping returns nil is a parameter, and so is whether decoding and the delegate succeed.
- Button images, tint colours, the focus-view animation, notification observers and the focus and exposure mode settings on the device (lines 55-75, 129, 404-449). These are UI and device configuration.
- Shutter-button enable/disable bookkeeping (lines 133, 185, 270). This is UI state. In the source, the early returns at 189, 229 and 259 leave the button disabled.
- Saving to the photo library (lines 272-275, 382-389). This is fire-and-forget I/O.
- Floating-point rounding: all sizes, samples and coordinates are `real`.
- CameraView.CameraView.ShotButtonPressed: does not model clearing `session` and `motionManager` after a delivery. Only the device and the still-image output are released.
