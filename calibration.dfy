/**
 * Compile-time defaults of the driver: the raw calibration window, the screen
 * resolution in portrait orientation, the default flips and rotation, and the
 * noise tolerance of a press.
 */
module Calibration {

  /** Raw X reading at the left edge of the visible screen. */
  const XMIN: int := 0
  /** Raw X reading at the right edge of the visible screen. */
  const XMAX: int := 4095
  /** Raw Y reading at the top edge of the visible screen. */
  const YMIN: int := 0
  /** Raw Y reading at the bottom edge of the visible screen. */
  const YMAX: int := 4095

  /** Screen width in pixels, portrait orientation. */
  const XRES: int := 320
  /** Screen height in pixels, portrait orientation. */
  const YRES: int := 240

  /** 0 for normal x coordinates, 1 to flip them. */
  const XFLIP: int := 0
  /** 0 for normal y coordinates, 1 to flip them. */
  const YFLIP: int := 0

  /** Default screen orientation, 0 to 3. */
  const ROTATION: int := 1

  /** Largest allowed difference between the first raw sample of a press and a later one. */
  const RAWERR: int := 10
}
