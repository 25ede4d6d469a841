/** The interface of the camera helper module that the bounding-box code calls.
    Its bodies are not part of this model: each helper is a given function. */
module CameraUtils {

  /** One projected point of the box: pixel column `x`, pixel row `y`, and the
      point's depth along the camera's forward axis (a row of `camera_bbox`). */
  datatype Projected = Projected(x: real, y: real, depth: real)

  /** An axis-aligned 2D box in pixels, in the field order of the
      `(xmin, ymin, xmax, ymax)` tuple. */
  datatype Bbox2d = Bbox2d(xmin: real, ymin: real, xmax: real, ymax: real)

  /** The helpers the bounding-box code consumes.
      `pointInCanvas` and `pointIsOccluded` take the pixel in (row, column)
      order, as their callers pass it; `pointIsOccluded` also takes the point's
      depth and stands for the lookup in the frame's depth map, which it holds.
      `calcProjected2dBbox` maps the projected corners to their 2D box. */
  datatype Helpers = Helpers(
    pointInCanvas: (real, real) -> bool,
    pointIsOccluded: (real, real, real) -> bool,
    calcProjected2dBbox: seq<Projected> -> Bbox2d)
}
