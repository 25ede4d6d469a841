# KITTI label decision for simulated agents

A Dafny model of the part of `bounding_box.py` (CARLA-KITTI) that decides
whether a simulated agent seen by the camera gets a KITTI-style detection
label, and what that label holds.

- `camera_utils.dfy` (module `CameraUtils`): a projected point (pixel x,
  pixel y, depth), a 2D box `(xmin, ymin, xmax, ymax)`, and the three camera
  helpers the code calls (`point_in_canvas`, `point_is_occluded`,
  `calc_projected_2d_bbox`), which are given functions here. `point_is_occluded`
  holds the frame's depth map.
- `strings.dfy` (module `Strings`): Python's `sub in s` on strings.
- `occlusion.dfy` (module `Occlusion`): `calculate_occlusion_stats`. The loop
  is a method whose counters are proved equal to a recursive specification
  function over the points visited so far. Each point is outside (behind the
  camera, at or past `max_render_depth`, or off the canvas), occluded, or
  visible. Only visible and outside points are counted. The lemmas say what
  the counts are: the number of visible and outside verdicts, additive over
  concatenation, independent of point order, blind to the helpers where they
  are not consulted, and `(0, n)` for a box behind the camera. The vertex
  drawing is modelled as the list of `draw_rect` requests. The method proves
  that the counts do not depend on `draw_vertices`.
- `kitti_datapoint.dfy` (module `KittiDatapoint`): the type classification of
  `transforms_from_agent` ("pedestrian" wins over "vehicle"), `calc_bbox2d_area`,
  and the three gates of `create_kitti_datapoint`, which run in this order:
  unclassified type, then the chained visibility comparison
  `num_visible >= 4 > num_outside`, then the strict area gate `area < 100`.
  The result is one `Outcome` type: a rejection that names the gate, or the
  label. The label holds the class, the 2D box, the extent and the
  sensor-frame reference point. The constants are `MIN_VISIBLE_VERTICES_FOR_RENDER = 4`,
  `MIN_BBOX_AREA_IN_PX = 100` and the default render depth 70, which is the
default of `maxRenderDepth`; `drawVertices` defaults to `true`, as in the code.

Coordinates, depths and areas are Dafny `real`, so the model's arithmetic is
exact. The depth and canvas tests only compare inputs. The area gate, however,
tests a product of two differences, which the code rounds (see "## Left out").

The area boundary follows the code: `area < 100` is refused, so an area of
exactly 100 is accepted.

## Model

| member | source | states |
|---|---|---|
| `Occlusion.CalculateOcclusionStats` | bounding_box.py:18-44 | the two counters the loop returns are the counts of `OcclusionStats` over all points, whatever `draw_vertices` is; the markers drawn are exactly `VertexMarkers` when drawing is on and none when it is off |
| `Occlusion.OcclusionStats` | bounding_box.py:23-43 | each point raises at most one counter, so `num_visible + num_outside <= len(bbox_points)` |
| `Occlusion.MarkersCoverInViewPoints` | bounding_box.py:32-43 | with drawing on, one marker is drawn for every point that is not counted as outside |
| `Occlusion.MarkersUseVertexColors` | bounding_box.py:11-41 | every marker has size 4 and is either the occluded colour (255, 0, 0) or the visible colour (0, 255, 0) |
| `Occlusion.VerdictsAt` | bounding_box.py:26-43 | there is one verdict per point, and the verdict at position `i` is the loop's decision for point `i` |
| `Occlusion.StatsCountVerdicts` | bounding_box.py:26-43 | `num_visible` is the number of points judged visible (in range, on the canvas and not occluded) and `num_outside` the number judged outside; with the occluded ones they account for every point |
| `Occlusion.StatsConcat` | bounding_box.py:26-43 | the counts of a concatenation are the sums of the counts of its parts |
| `Occlusion.StatsPermutation` | bounding_box.py:26-43 | any rearrangement of the same points gives the same counts |
| `Occlusion.StatsIgnoresUnconsultedHelpers` | bounding_box.py:32-34 | the canvas test is not consulted for a point out of depth range, and the occlusion test is not consulted for a point out of view: helpers that agree where consulted give equal counts |
| `Occlusion.StatsOutOfRange` | bounding_box.py:32-43 | points with depth `<= 0` or `>= max_render_depth` are all counted outside whatever their pixel, giving `(0, len(bbox_points))` |
| `Occlusion.StatsAllVisible` | bounding_box.py:32-38 | points all in range, on the canvas and unoccluded give `(len(bbox_points), 0)` |
| `KittiDatapoint.ObjectTypeOf` | bounding_box.py:131-136 | a tag containing "pedestrian" is a Pedestrian even if it contains "vehicle"; otherwise a tag containing "vehicle" is a Car; any other tag has no class |
| `KittiDatapoint.TransformsFromAgent` | bounding_box.py:129-147 | nothing for an unclassified agent; otherwise its class, its transform, a rotation-free transform at the box offset, the box extent and the agent's location |
| `KittiDatapoint.CalcBbox2dArea` | bounding_box.py:150-155 | the area is never negative when `xmin <= xmax` and `ymin <= ymax`, and it is zero for a box with no width or no height |
| `KittiDatapoint.CreateKittiDatapoint` | bounding_box.py:72-117 | rejected for an unclassified type exactly when the tag has no class; rejected at the visibility gate exactly when a classified agent fails `num_visible >= 4 and num_outside < 4`, carrying the counts; rejected for area only below 100, carrying the area; labelled exactly when all three gates pass, with the class name ("Pedestrian" or "Car"), 2D box over all corners, extent and sensor reference point |
| `KittiDatapoint.ClassifyExamples` | bounding_box.py:133-139 | "walker.pedestrian.0001" is a Pedestrian, named "Pedestrian", "vehicle.tesla.model3" a Car, named "Car", and "static.prop.box" has no class |
| `KittiDatapoint.OutOfRangeBoxRejected` | bounding_box.py:87-94 | a box whose corners are all behind the camera or past the render depth is never labelled; a classified agent is refused at the visibility gate with counts `(0, n)` |
| `KittiDatapoint.FullyVisibleBoxAccepted` | bounding_box.py:87-115 | a classified agent whose 8 corners are all in view and unoccluded, and whose 2D box has area at least 100, is labelled |
| `KittiDatapoint.DecisionIgnoresCornerOrder` | bounding_box.py:87-103 | listing the corners in another order, given the same 2D box, does not change whether the agent is labelled; a rejection is the same rejection, with the same counts or area; with the same sensor reference point, a label is the same label |
| `KittiDatapoint.CreateKittiDatapointAsWritten` | bounding_box.py:80-117 | the source's return has one element after the image exactly on the unclassified-type path and two on every other path; it carries a datapoint exactly when the one outcome is a label |
| `KittiDatapoint.ReturnArityMismatch` | bounding_box.py:83-117 | an unclassified agent and a car behind the camera are both refused, yet come back as tuples of different lengths |

## Findings

| source | as written | input that shows it | evidently intended | confidence | as-written member | corrected member |
|---|---|---|---|---|---|---|
| bounding_box.py:83 | the unclassified-type path returns `(image, None)`, while the paths at lines 105, 115 and 117 return three values | an agent tagged "static.prop.box" gives a 2-tuple; an agent tagged "vehicle.tesla.model3" with every corner at depth -1 gives a 3-tuple; a caller that unpacks three values fails on the first | every path returns `(image, datapoint, camera_bbox)`, with `None` for both on a rejection | medium, not executed | `KittiDatapoint.CreateKittiDatapointAsWritten`, `KittiDatapoint.ReturnArityMismatch` | `KittiDatapoint.CreateKittiDatapoint` |

The model uses the corrected form. `CreateKittiDatapoint` returns one
`Outcome` type on every path. Its contract says which gate refused the agent,
and that a label is produced exactly when all three gates pass.

## Left out

- `get_bounding_box_and_refpoint` (bounding_box.py:47-69) is not modelled. It uses floating-point numpy matrix products, perspective division, and calls into `ClientSideBoundingBoxes`, which is not part of this model. Its output is an input here (`BoxGeometry`). The code computes it only after the type gate; since the model is pure, this order makes no difference.
- `get_relative_rotation_y` and the `% math.pi` reduction (bounding_box.py:107, 120-126) are not modelled, because they are float trigonometry. The reduced heading is an input, `rotationY`, copied into the label.
- `point_in_canvas`, `point_is_occluded` and `calc_projected_2d_bbox` come from `camera_utils`, which is not part of this model. They are given functions, so the canvas bounds, the depth-map lookup and the min/max of the 2D box are not modelled.
- `draw_rect` painting pixels into the image is not modelled. The model records each call it would make, but not the image; the image returned as the first tuple element is not modelled.
- Logging (bounding_box.py:81-82, 104) is not modelled. It is a side effect with no influence on the result.
- CARLA's `Transform`, `agent.get_transform()`, `agent.bounding_box` and the `KittiDescriptor` class are simulator and serialisation classes. They become plain records holding only the fields this code reads or sets. The descriptor's other fields and its text format are not modelled.
- The inputs (pixel coordinates, depths, the 2D box) are taken as exact values. Their own rounding upstream, in `get_bounding_box_and_refpoint` and `camera_utils`, is not modelled.
- `KittiDatapoint.CalcBbox2dArea`: computes `(ymax - ymin) * (xmax - xmin)` exactly over `real`, while the code rounds each subtraction and the product to IEEE doubles. The two can differ by the rounding error.
- `KittiDatapoint.CreateKittiDatapoint`: its area gate uses the exact area. An area within rounding error of 100 can fall on the other side of `area < 100` from the code's decision. For example, the double box (95.74334646733374, 3.955332996629979, 100.74334646733374, 23.955332996629977) has an area of exactly 100.0 in doubles, and the code accepts it. Its exact area is just below 100, and the model rejects it. The depth and canvas comparisons do no arithmetic, so they decide as the code does.
