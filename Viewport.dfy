/**
 * The game screen's camera viewport, in world units: the screen sets its
 * orthographic camera to 80 x 48 once, and the player clamp uses these sizes.
 */
module Viewport {
  const WIDTH: real := 80.0
  const HEIGHT: real := 48.0
}
