/** Geometry constants shared by the dial widget (src/widgets/TimeFrameSlider/model/constants.ts). */
module DialConstants {

  /** Degrees in a full turn. */
  const FullCircleDegrees: int := 360

  /** Degrees in half a turn. */
  const HalfCircleDegrees: int := 180

  /** Radius of the dial, in pixels. */
  const CircleRadius: int := 265
}
