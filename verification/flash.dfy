/** The flash button's two-state machine over AVCaptureFlashMode. */
module Flash {

  datatype FlashMode = Off | On | Auto

  /** One press of the flash button on a device that has a flash: off and on swap, auto stays. */
  function Toggle(m: FlashMode): (r: FlashMode)
    ensures m == Off <==> r == On
    ensures m == On <==> r == Off
    ensures m == Auto <==> r == Auto
  {
    match m
    case Off => On
    case On => Off
    case Auto => Auto
  }

  /** Pressing twice restores the mode. */
  lemma ToggleTwice(m: FlashMode)
    ensures Toggle(Toggle(m)) == m
  {
  }

  /** The mode after `n` successful presses, starting from `m`. */
  function Presses(m: FlashMode, n: nat): FlashMode
  {
    if n == 0 then m else Toggle(Presses(m, n - 1))
  }

  /** After n presses the mode depends only on the parity of n. */
  lemma {:induction false} PressesParity(m: FlashMode, n: nat)
    ensures Presses(m, n) == if n % 2 == 0 then m else Toggle(m)
  {
    if n >= 2 {
      PressesParity(m, n - 2);
      ToggleTwice(Presses(m, n - 2));
    }
  }

  /** The configuration step after the device is found leaves the flash off, whatever its mode was. */
  function Configured(m: FlashMode, hasFlash: bool): (r: FlashMode)
    ensures hasFlash ==> r == Off
    ensures !hasFlash ==> r == m
  {
    if hasFlash then Off else m
  }

  /** From the configured state, an odd number of presses turns the flash on and an even number leaves it off. */
  lemma PressesFromConfigured(m: FlashMode, n: nat)
    ensures Presses(Configured(m, true), n) == if n % 2 == 0 then Off else On
  {
    PressesParity(Configured(m, true), n);
  }
}
