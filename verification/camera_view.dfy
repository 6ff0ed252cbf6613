/**
 * The state FSCameraView keeps and updates in place: the last tilt sample,
 * the capture device (whose flash mode is changed on the device object) and
 * whether a still-image output is attached. Results of platform calls
 * (authorization, locking the device, decoding, cropping) are parameters.
 */
module CameraView {
  import opened Options
  import opened Orientation
  import opened Capture
  import opened Flash

  /** The part of an AVCaptureDevice the view reads or writes. */
  class CaptureDevice {
    const hasFlash: bool
    const isFront: bool
    var flashMode: FlashMode

    constructor (hasFlash: bool, isFront: bool, flashMode: FlashMode)
      ensures this.hasFlash == hasFlash && this.isFront == isFront && this.flashMode == flashMode
    {
      this.hasFlash := hasFlash;
      this.isFront := isFront;
      this.flashMode := flashMode;
    }
  }

  class CameraView {
    var device: CaptureDevice?
    /** Whether a still-image output is attached (`imageOutput != nil`). */
    var imageOutputReady: bool
    /** The last orientation the accelerometer callback classified, if any. */
    var currentDeviceOrientation: Option<DeviceOrientation>

    constructor (device: CaptureDevice?, imageOutputReady: bool)
      ensures this.device == device && this.imageOutputReady == imageOutputReady
      ensures currentDeviceOrientation == None
    {
      this.device := device;
      this.imageOutputReady := imageOutputReady;
      currentDeviceOrientation := None;
    }

    /** The accelerometer callback: a delivered sample replaces the stored orientation; a missing one changes nothing. */
    method AccelerometerUpdate(data: Option<Acceleration>)
      modifies this`currentDeviceOrientation
      ensures data.Some? ==> currentDeviceOrientation == Some(TiltOrientation(data.value))
      ensures data.Some? ==> IsUpright(currentDeviceOrientation.value)
      ensures data.None? ==> currentDeviceOrientation == old(currentDeviceOrientation)
    {
      if data.Some? {
        var a := data.value;
        if Abs(a.y) < Abs(a.x) {
          currentDeviceOrientation := Some(if a.x > 0.0 then DeviceOrientation.LandscapeRight else DeviceOrientation.LandscapeLeft);
        } else {
          currentDeviceOrientation := Some(if a.y > 0.0 then DeviceOrientation.PortraitUpsideDown else DeviceOrientation.Portrait);
        }
      }
    }

    /** Stopping the camera forgets the stored tilt sample, so the next shot uses the reported orientation until a new sample arrives. */
    method StopCamera()
      modifies this`currentDeviceOrientation
      ensures currentDeviceOrientation == None
      ensures forall reported :: OrientationInEffect(currentDeviceOrientation, reported) == reported
    {
      currentDeviceOrientation := None;
    }

    /**
     * The flash button. Nothing happens unless the camera is authorized and
     * the device has a flash; when locking the device fails the mode stays;
     * otherwise off and on swap and any other mode stays.
     */
    method FlashButtonPressed(cameraAvailable: bool, lockSucceeds: bool)
      modifies device
      ensures device != null ==>
        device.flashMode ==
          if cameraAvailable && device.hasFlash && lockSucceeds then Toggle(old(device.flashMode)) else old(device.flashMode)
    {
      if !cameraAvailable { return; }
      if device == null || !device.hasFlash { return; }
      if !lockSucceeds { return; }
      match device.flashMode
      case Off => device.flashMode := On;
      case On => device.flashMode := Off;
      case _ =>
    }

    /** The initial flash configuration: a device with a flash that can be locked is left with its flash off. */
    method FlashConfiguration(lockSucceeds: bool)
      modifies device
      ensures device != null ==>
        device.flashMode ==
          if lockSucceeds then Configured(old(device.flashMode), device.hasFlash) else old(device.flashMode)
    {
      if device != null {
        if !device.hasFlash { return; }
        if !lockSucceeds { return; }
        device.flashMode := Off;
      }
    }

    /**
     * The shutter button. Without a still-image output nothing happens.
     * Otherwise the orientation in effect is taken once; it decides the
     * connection's rotation and, after capture, the crop. The capture
     * completion stops the camera, which clears the stored tilt sample, before
     * decoding. A still that fails to decode (or has no delegate to receive it)
     * or whose crop fails delivers nothing; a delivered still releases the
     * device and the output.
     */
    method ShotButtonPressed(
      reported: DeviceOrientation, decoded: bool, image: CapturedImage, sw: real,
      cropEnabled: bool, croppingSucceeded: bool)
      returns (rotation: Option<VideoOrientation>, delivered: Option<OutputImage>)
      requires decoded ==> ValidSize(image.size)
      modifies this
      ensures !old(imageOutputReady) ==> rotation == None && delivered == None
      ensures !old(imageOutputReady) ==> unchanged(this)
      ensures old(imageOutputReady) ==>
        rotation == Some(CaptureRotation(OrientationInEffect(old(currentDeviceOrientation), reported)))
      ensures old(imageOutputReady) ==> currentDeviceOrientation == None
      ensures delivered ==
        if old(imageOutputReady) && decoded then
          ShotOutput(OrientationInEffect(old(currentDeviceOrientation), reported), image, sw,
                     cropEnabled, old(device) != null && old(device).isFront, croppingSucceeded)
        else None
      ensures delivered.Some? ==> device == null && !imageOutputReady
      ensures delivered.None? ==> device == old(device) && imageOutputReady == old(imageOutputReady)
    {
      rotation, delivered := None, None;
      if !imageOutputReady { return; }
      var orientation := OrientationInEffect(currentDeviceOrientation, reported);
      rotation := Some(CaptureRotation(orientation));
      StopCamera();
      if !decoded { return; }
      var isFront := device != null && device.isFront;
      delivered := ShotOutput(orientation, image, sw, cropEnabled, isFront, croppingSucceeded);
      if delivered.None? { return; }
      device := null;
      imageOutputReady := false;
    }
  }
}
