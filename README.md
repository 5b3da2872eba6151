# Tennis analytics: spatial core in Dafny

This project models the spatial-analytics core of a tennis video pipeline and proves
properties of it. The model has four parts:

- **Geometry kernel** (`BBoxUtils`, `bbox_utils.dfy`):
  - bbox centre, foot point, width and height, with Python's `int()` modelled as truncation toward zero;
  - x/y offset and Euclidean distance, with the square root supplied as a parameter;
  - the nearest-keypoint search by vertical distance, found with a loop;
  - the pixel/metre ratio conversions.
- **Ball-track cleanup** (`Tracker`, `tracker.dfy`):
  - each frame's ball record becomes a row of four NaN-able floats;
  - single-frame teleports of more than 100 px are rejected;
  - rows are turned back into frame dictionaries;
  - `add_position_to_tracks` attaches a centre or foot position to every record of the shared `tracks` dictionary, in place.
- **Mini-court projection** (`MiniCourtProjection`, `mini_court.dfy`):
  - a `MiniCourt` class whose setters derive the canvas layout from the frame width and fill the 28-slot court keypoint table;
  - the projection of a pixel position onto the drawing, through the nearest of keypoints 0, 2, 12 and 13 and the player's tallest bbox in a frame window;
  - the in-place write-back of `mini_court_position` for every player, and for the ball through the player nearest it.
- **Physics** (`Physics`, `physics.dfy`): a `PhysicsEngine` class that writes into every player record, in place:
  - the cumulative distance per track id;
  - a windowed speed in km/h that keeps its last good value.

Shared pieces:
- `Tracks` (`tracks.dfy`) holds the per-frame record (`Entry`), a frame as a map from track id to record, and the `TrackStore` class for the mutable `tracks` dictionary.
- `Constants` (`constants.dfy`) holds the court dimensions, player heights and tracker thresholds.
- `Optional` (`optional.dfy`) holds the `Option` type.

Each in-place operation is a method. It is proved against a specification function of its inputs: for example,
`AddSpeedAndDistanceToTracks` ensures the new `tracks` equals `WithPhysics` of the old one. The lemmas then prove
what the source promises about those functions.

## Model

| member | source | states |
|---|---|---|
| BBoxUtils.Trunc | utils/bbox_utils.py:3 | `int()` on a real gives a whole number that rounds toward zero |
| BBoxUtils.TruncationUnique | utils/bbox_utils.py:3 | `int()` has exactly one result for each real |
| BBoxUtils.FloorIsTruncation | utils/bbox_utils.py:3 | for a non-negative argument `int()` is the floor |
| BBoxUtils.TruncatedMidpointInside | utils/bbox_utils.py:1-3 | for 0 ≤ lo ≤ hi the truncated midpoint is its floor and lies between ⌊lo⌋ and hi |
| BBoxUtils.CenterOfBBox | utils/bbox_utils.py:1-3 | the centre's coordinates are the truncations of `(x1+x2)/2` and `(y1+y2)/2` |
| BBoxUtils.CenterOfNonNegativeBox | utils/bbox_utils.py:1-3 | for non-negative coordinates the centre is the floored midpoint and lies within the box |
| BBoxUtils.BBoxWidth | utils/bbox_utils.py:5-6 | `x1 + width == x2`; the width is non-negative for a well-formed box |
| BBoxUtils.BBoxHeight | utils/bbox_utils.py:18-19 | `y1 + height == y2`; the height is non-negative for a well-formed box |
| BBoxUtils.FootPosition | utils/bbox_utils.py:14-16 | the foot point has the centre's x, and its y is the truncation of `y2` |
| BBoxUtils.MeasureXYDistance | utils/bbox_utils.py:11-12 | adding the offset to q gives p, on each axis |
| BBoxUtils.XYDistanceAntisymmetric | utils/bbox_utils.py:11-12 | the offset from p to q is the exact negation of the offset from q to p |
| BBoxUtils.SquaredDistance | utils/bbox_utils.py:8-9 | the sum of squares is non-negative |
| BBoxUtils.SquaredDistanceSymmetric | utils/bbox_utils.py:8-9 | the squared distance does not depend on the order of the two points |
| BBoxUtils.MeasureDistance | utils/bbox_utils.py:8-9 | with a true square root the distance is non-negative and squares to the sum of squares |
| BBoxUtils.DistanceSymmetric | utils/bbox_utils.py:8-9 | the distance is symmetric |
| BBoxUtils.DistanceZeroIffSamePoint | utils/bbox_utils.py:8-9 | the distance is 0 exactly when the points are equal |
| BBoxUtils.DistanceExceedsIff | utils/bbox_utils.py:8-9 | for t ≥ 0, `dist > t` exactly when the squared distance exceeds t² |
| BBoxUtils.PixelDistanceToMeters | utils/bbox_utils.py:32-33 | metres times the reference pixels equals pixels times the reference metres |
| BBoxUtils.MetersToPixelDistance | utils/bbox_utils.py:35-36 | pixels times the reference metres equals metres times the reference pixels |
| BBoxUtils.ConversionRoundTrip | utils/bbox_utils.py:32-36 | with one (metres, pixels) reference pair, each conversion undoes the other |
| BBoxUtils.ConversionsLinear | utils/bbox_utils.py:32-36 | both conversions are linear in the distance |
| BBoxUtils.VerticalDistance | utils/bbox_utils.py:25-26 | `abs(point.y - kp.y)`, which is NaN exactly when the keypoint's y is NaN |
| BBoxUtils.ClosestFromIsClosest | utils/bbox_utils.py:24-29 | the rest of the scan from any reachable state ends at the closest index |
| BBoxUtils.ClosestKeypointIndex | utils/bbox_utils.py:21-30 | the result is an element of `valid_indices` |
| BBoxUtils.ClosestKeypointIndexIsClosest | utils/bbox_utils.py:21-30 | the result satisfies the independent specification `IsClosest` |
| BBoxUtils.ClosestIsUnique | utils/bbox_utils.py:21-30 | `IsClosest` admits one index only, so it determines the result |
| BBoxUtils.ClosestIsNearestAndFirst | utils/bbox_utils.py:21-30 | the result is vertically no farther than any numeric candidate, and on a tie it comes first, since the comparison is a strict `<` |
| BBoxUtils.ClosestWithoutNumbersIsFirst | utils/bbox_utils.py:21-30 | when no comparison can succeed (every candidate is NaN) the result is `valid_indices[0]` |
| BBoxUtils.GetClosestKeypointIndex | utils/bbox_utils.py:21-30 | the loop with `closest_distance` and `key_point_ind` returns `ClosestKeypointIndex` |
| Tracker.ToRow | core/trackers/tracker.py:71-76 | a frame without key 1 or without a bbox becomes the all-NaN row; otherwise the row is the bbox's four numbers |
| Tracker.RowCentre | core/trackers/tracker.py:81-82 | the `center_x`, `center_y` columns: the untruncated bbox midpoint of a numeric row, absent (NaN) otherwise; related to the raw input by `RejectedIffTeleport` |
| Tracker.Displacement | core/trackers/tracker.py:83-86 | the `dist` column: NaN at frame 0 and when either adjacent centre is NaN, otherwise the distance between the centres of frames i−1 and i |
| Tracker.IsOutlier | core/trackers/tracker.py:88 | `dist > 100`, false for a NaN distance; characterised in both directions by `RejectedIffTeleport` |
| Tracker.RejectOutliers | core/trackers/tracker.py:81-89 | keeps the length; each row is kept or nulled; frame 0 and any frame after a frame with no detection are kept |
| Tracker.RejectedIffTeleport | core/trackers/tracker.py:81-89 | a row is NaN after rejection exactly when there is no ball, or both it and the previous frame have a detection and their centres are more than 100 px apart |
| Tracker.MoveOfExactlyThresholdKept | core/trackers/tracker.py:88 | the threshold is strict, so a move of exactly 100 px keeps the frame |
| Tracker.SpikeAlsoRejectsReturn | core/trackers/tracker.py:81-89 | the mask is computed from the raw centres, so after a spike A, B, A both B and the return to A are nulled |
| Tracker.FromRow | core/trackers/tracker.py:106-110 | a reconstructed frame is `{}` exactly when x1 is NaN, otherwise `{1: {bbox: first four values}}` |
| Tracker.RowRoundTrip | core/trackers/tracker.py:71-76 | row building and reconstruction are mutually inverse on ball frames and on aligned rows |
| Tracker.InterpolateBallPositions | core/trackers/tracker.py:68-112 | the output has as many frames as the input, and each is the reconstruction of the filled, rejected row |
| Tracker.PositionFor | core/trackers/tracker.py:121-124 | the bbox centre for "tennis ball", the foot point for any other object type |
| Tracker.TracksWithPositions | core/trackers/tracker.py:114-126 | the dictionary after the stage, with every record's `position` set by `PositionFor`; its properties are proved in `PositionsAttached` |
| Tracker.PositionsAttached | core/trackers/tracker.py:114-126 | every record gains `position` (the centre under "tennis ball", the foot point elsewhere); types, frames, ids, bboxes and other fields are unchanged |
| Tracker.AddPositionToTracks | core/trackers/tracker.py:114-126 | the in-place loops leave `tracks` equal to `TracksWithPositions` of the old dictionary |
| MiniCourtProjection.MetersToDrawing | core/annotation/mini_court.py:31-32 | drawing pixels times 10.97 equals metres times the court drawing width |
| MiniCourtProjection.MetersToDrawingAdditive | core/annotation/mini_court.py:31-32 | the metre-to-drawing conversion is additive |
| MiniCourtProjection.CourtKeyPoints | core/annotation/mini_court.py:34-64 | the keypoint table has exactly 28 slots |
| MiniCourtProjection.CourtCorners | core/annotation/mini_court.py:37-42 | point 0 is `(court_start_x, court_start_y)`, point 1 is `(court_end_x, court_start_y)`, points 2 and 3 lie `m2p(2·11.88)` lower, and points 0 and 1 are 10.97 m apart |
| MiniCourtProjection.SinglesSidelines | core/annotation/mini_court.py:43-53 | points 4 to 7 are inset by the alley width, and the singles line ends meet the right-hand inset line because 8.23 + 2·1.37 = 10.97 |
| MiniCourtProjection.ServiceLines | core/annotation/mini_court.py:51-62 | the service lines lie 5.48 m inside the baselines, symmetric about the net; points 12 and 13 have the truncated midpoint x of points 8 and 9 and of points 10 and 11 |
| MiniCourtProjection.NearestAnchor | core/annotation/mini_court.py:155 | the anchor found is one of 0, 2, 12 and 13, and it indexes into the keypoint list |
| MiniCourtProjection.MappedId | core/annotation/mini_court.py:131-135 | the id map gives 1 or 2, and 2 exactly for a listed id other than the first |
| MiniCourtProjection.HeightInMeters | core/annotation/mini_court.py:128 | id 2 gives 1.91 m, while 1 and any other id give the 1.88 m default |
| MiniCourtProjection.IdMapHeights | core/annotation/mini_court.py:128-135 | the first listed id gets 1.88 m and every other listed id gets 1.91 m |
| MiniCourtProjection.WindowHeights | core/annotation/mini_court.py:161-165 | `bboxes_heights_in_pixels`: the id's bbox heights over the frames `[lo, hi)` that contain it, in frame order; characterised by `WindowHeightsMembers` and `WindowHeightsFromWindow` |
| MiniCourtProjection.SeqMax | core/annotation/mini_court.py:166 | Python's `max` of a non-empty list; proved a bounding member by `SeqMaxIsMax` |
| MiniCourtProjection.ReferenceHeight | core/annotation/mini_court.py:159-166 | `max_player_height_in_pixels`: the window maximum, with the current bbox height as the fallback; proved the window maximum by `ReferenceHeightIsWindowMax` |
| MiniCourtProjection.SeqMaxIsMax | core/annotation/mini_court.py:166 | `max` of a non-empty list is an element of it and bounds every element |
| MiniCourtProjection.WindowHeightsMembers | core/annotation/mini_court.py:161-165 | every in-window frame that has the id contributes its bbox height to the list |
| MiniCourtProjection.WindowHeightsFromWindow | core/annotation/mini_court.py:161-165 | every listed height comes from an in-window frame that has the id |
| MiniCourtProjection.ReferenceHeightIsWindowMax | core/annotation/mini_court.py:159-166 | the reference height is the tallest bbox of the id over frames `[max(0,f−20), min(N,f+50))`; the current frame is always inside, so the fallback is never taken and the result is at least the current height |
| MiniCourtProjection.BallPosition | core/annotation/mini_court.py:140-142 | the ball has a position exactly when key 1 has a bbox |
| MiniCourtProjection.NearestFrom | core/annotation/mini_court.py:146-149 | the scan of `min` stays inside the key order |
| MiniCourtProjection.NearestFromIsFirstNearest | core/annotation/mini_court.py:146-149 | `min` returns the first key, in key order, at the least distance |
| MiniCourtProjection.ClosestPlayer | core/annotation/mini_court.py:146-149 | the player chosen is a key of the frame, at a position of the key order where it is first-nearest |
| MiniCourtProjection.ClosestPlayerIsNearestAndFirst | core/annotation/mini_court.py:146-149 | the chosen player is no farther from the ball than any key, and precedes any key at the same distance |
| MiniCourtProjection.ClosestPlayerOverKeys | core/annotation/mini_court.py:146-149 | the same stated over all of the frame's keys |
| MiniCourtProjection.MiniCourt.constructor | core/annotation/mini_court.py:20-29 | the layout fields hold; `end_x = width − 50`, `start_x = width − 300`, `start_y = 50`, `end_y = 550` |
| MiniCourtProjection.MiniCourt.LayoutIndependentOfFrame | core/annotation/mini_court.py:72-84 | the court is inset by 20 on every side and `court_drawing_width = 210` for any frame width |
| MiniCourtProjection.MiniCourt.SetCanvasBackgroundBoxPosition | core/annotation/mini_court.py:79-84 | the canvas box is anchored `buffer` pixels from the top-right corner, 250 by 500 pixels |
| MiniCourtProjection.MiniCourt.SetMiniCourtPosition | core/annotation/mini_court.py:72-77 | the court is the canvas box inset by the padding, and its width is `court_end_x − court_start_x` |
| MiniCourtProjection.MiniCourt.ConvertMetersToPixels | core/annotation/mini_court.py:31-32 | pixels times 10.97 equals metres times `court_drawing_width` |
| MiniCourtProjection.MiniCourt.MetersToPixelsScale | core/annotation/mini_court.py:31-32 | 10.97 m converts to exactly `court_drawing_width`, and the conversion is linear |
| MiniCourtProjection.MiniCourt.SetCourtDrawingKeyPoints | core/annotation/mini_court.py:34-64 | filling the 28-slot list one slot at a time gives `CourtKeyPoints` of the court rectangle |
| MiniCourtProjection.MiniCourt.SetCourtLines | core/annotation/mini_court.py:66-70 | the eight line index pairs |
| MiniCourtProjection.CourtLinesInRange | core/annotation/mini_court.py:66-70 | every line joins two of the 14 points of a 28-slot keypoint table, so drawing a line never indexes out of range |
| MiniCourtProjection.MiniCourt.MiniCourtCoordinates | core/annotation/mini_court.py:112-125 | an object exactly at the source keypoint maps onto the same-index point of the drawing |
| MiniCourtProjection.Project | core/annotation/mini_court.py:112-125 | the arithmetic of `get_mini_court_coordinates` maps the source keypoint onto the same-index drawing point |
| MiniCourtProjection.ProjectIsScaledOffset | core/annotation/mini_court.py:112-125 | the projection is the drawing keypoint plus the pixel offset scaled by `h_m/h_px · court_drawing_width/10.97` |
| MiniCourtProjection.ScaledConversion | core/annotation/mini_court.py:115-119 | one axis: pixels to metres against the reference height, then metres to drawing pixels, is multiplication by the scale |
| MiniCourtProjection.PlayerMiniCourtPosition | core/annotation/mini_court.py:152-173 | a player's new position: its foot point projected from its nearest anchor, against its window reference height and its mapped id's height in metres |
| MiniCourtProjection.BallMiniCourtPosition | core/annotation/mini_court.py:177-184 | the ball's new position: its centre projected from its own nearest anchor, against the reference height and height in metres of the nearest player |
| MiniCourtProjection.PlayersFrameAfter | core/annotation/mini_court.py:151-174 | a player frame after the stage: every record with `mini_court_position` set, same keys |
| MiniCourtProjection.BallFrameAfter | core/annotation/mini_court.py:138-185 | a ball frame after the stage: written through the nearest player when there is a ball bbox and a player, else unchanged; see `BallUsesNearestPlayer` and `BallUntouchedWithoutBallOrPlayers` |
| MiniCourtProjection.MiniCourtTracks | core/annotation/mini_court.py:127-187 | the whole dictionary after the stage; its properties are proved in `MiniCourtTracksShape`, `PlayersGainOnlyMiniCourtPosition` and the two ball lemmas |
| MiniCourtProjection.MiniCourt.ProjectEntry | core/annotation/mini_court.py:151-185 | one player id: the player gains the projected foot position, and the ball is written only if this is the nearest player and the ball has a position |
| MiniCourtProjection.MiniCourt.BallAndNearestPlayer | core/annotation/mini_court.py:140-149 | the ball position, and the nearest player exactly when there is a ball and at least one player |
| MiniCourtProjection.MiniCourt.ProjectFrame | core/annotation/mini_court.py:137-185 | one frame: the players and the ball after the id loop equal `PlayersFrameAfter` and `BallFrameAfter` |
| MiniCourtProjection.MiniCourt.ConvertBoundingBoxesToMiniCourtCoordinates | core/annotation/mini_court.py:127-187 | the in-place frame loop leaves `tracks` equal to `MiniCourtTracks` of the old dictionary |
| MiniCourtProjection.EnumeratesNonEmpty | core/annotation/mini_court.py:145 | a non-empty player dictionary has a non-empty key order |
| MiniCourtProjection.MiniCourtTracksShape | core/annotation/mini_court.py:137-187 | other object types, list lengths and every frame's keys are unchanged |
| MiniCourtProjection.PlayersGainOnlyMiniCourtPosition | core/annotation/mini_court.py:151-174 | every player record gains `mini_court_position` equal to `PlayerMiniCourtPosition`, and its other fields are unchanged |
| MiniCourtProjection.BallUntouchedWithoutBallOrPlayers | core/annotation/mini_court.py:140-145 | in a frame past the player list, without a ball bbox under key 1 or with an empty player dictionary, the ball frame is unchanged |
| MiniCourtProjection.BallUsesNearestPlayer | core/annotation/mini_court.py:140-185 | with a ball bbox and at least one player, the ball gains a position computed with the height reference of the nearest player (first in key order on ties), and nothing else changes |
| MiniCourtProjection.UpdatedAll | core/annotation/mini_court.py:151 | after a visit of every key in order, the frame is the target frame |
| Physics.MetersPerPixel | core/analysis/physics.py:5-8 | `meters_per_pixel · mini_court_width = 10.97`, and the ratio is positive for a positive width |
| Physics.PhysicsEngine.constructor | core/analysis/physics.py:5-8 | stores `fps` and `meters_per_pixel = 10.97 / mini_court_width` |
| Physics.StepDistance | core/analysis/physics.py:22-29 | the metres added for an id at frame f: its mini-court move since frame f−1 when it is there and both positions exist, else zero |
| Physics.WindowSpeed | core/analysis/physics.py:32-43 | the km/h speed over the window ending at f, `dist·mpp/(window/fps)·3.6`, when frame f−window has the id and both positions exist |
| Physics.TotalDistance | core/analysis/physics.py:12-29 | `total_distance.get(id)` after n frames; characterised by `TotalsDefinedIffSeen`, `TotalDistanceMonotone` and `TotalsCarryOverGap` |
| Physics.LastSpeed | core/analysis/physics.py:13-45 | `last_speed.get(id)` after n frames: the window speed when defined, else the kept value; characterised by `SpeedRecomputedOrKept` and `SpeedNonNegative` |
| Physics.WithPhysics | core/analysis/physics.py:15-49 | the player list after the stage, each record carrying both totals after its frame; see `EveryRecordGetsPhysics` |
| Physics.TotalsDefinedIffSeen | core/analysis/physics.py:15-19 | an id has a running total exactly when it has appeared so far, and then it also has a speed |
| Physics.EveryRecordGetsPhysics | core/analysis/physics.py:15-49 | every player record receives `distance` and `speed`; the frame count, ids and other fields are unchanged |
| Physics.FirstAppearanceIsZero | core/analysis/physics.py:17-19 | on an id's first appearance both distance and speed are 0.0 |
| Physics.StepDistanceNonNegative | core/analysis/physics.py:22-29 | each distance increment `dist·mpp` is non-negative |
| Physics.TotalDistanceMonotone | core/analysis/physics.py:12-29 | an id's running total never decreases from one frame to a later one |
| Physics.DistanceNeverDecreases | core/analysis/physics.py:12-48 | per track id the written `distance` never decreases across frames |
| Physics.TotalsCarryOverGap | core/analysis/physics.py:15-19 | frames without the id leave its totals unchanged, so they are not reset |
| Physics.DistanceFromPreviousAppearance | core/analysis/physics.py:22-29 | the distance grows only when the id is also in frame f−1 and both positions exist; across a gap it adds zero |
| Physics.SpeedRecomputedOrKept | core/analysis/physics.py:32-45 | the speed is recomputed only when f ≥ window, the id is in frame f−window and both positions exist, as `dist_px·mpp/(window/fps)·3.6`; otherwise the previous value is kept |
| Physics.SpeedNonNegative | core/analysis/physics.py:32-45 | with a positive frame rate every speed is non-negative |
| Physics.DistanceVisited | core/analysis/physics.py:15-29 | storing a visited id's total keeps `total_distance` in step with the specification |
| Physics.SpeedVisited | core/analysis/physics.py:15-45 | storing a visited id's speed keeps `last_speed` in step with the specification |
| Physics.PhysicsEngine.TrackStep | core/analysis/physics.py:17-45 | the id-loop body returns the id's `total_distance` and `last_speed` after this frame |
| Physics.PhysicsEngine.PhysicsForFrame | core/analysis/physics.py:16-49 | one frame: its records gain the totals, and both dictionaries advance by one frame |
| Physics.PhysicsEngine.AddSpeedAndDistanceToTracks | core/analysis/physics.py:10-51 | the in-place loops leave `tracks` equal to the old one with `WithPhysics` for the players |
| Physics.PhysicsEngine.AddSpeedAndDistanceToTracksDefault | core/analysis/physics.py:10-11 | called without `frame_window`, the stage uses the 12-frame default window |

## Left out

- The pandas steps (linear `interpolate`, centred `rolling` mean, `bfill`) at core/trackers/tracker.py:92-102 are a parameter `fill` of `InterpolateBallPositions`. The model claims nothing about gap filling.
- InterpolateBallPositions: requires that `fill` keeps the length and the columns' NaN masks aligned. This is what pandas does for these rows, but it is assumed, not proved.
- The ByteTrack tracking loop (`Tracker.get_object_tracks`), the YOLO and court-keypoint detectors, the drawing code and all I/O are not part of this model. `draw_court` and `draw_background_rectangle` are drawing only.
- Floating point is modelled as exact reals; NaN is a separate `Float` value.
- The square root of `measure_distance` and `np.sqrt` is a parameter. The distance lemmas assume it is the true non-negative square root.
- The iteration order of Python sets and dicts is an input sequence: `uniqueIds` for `list(unique_ids)` and `keyOrders` for each frame's player keys. The player dictionary of `add_position_to_tracks` and the physics stage is visited in an arbitrary order. Its per-id updates are independent, so the result does not depend on it.
- The tracker writes the ball under "tennis ball", but the projection reads "ball". Each operation uses the key its own code uses; the model does not connect the two.
- A bbox of `None` models both a missing `bbox` key and an empty bbox list. The projection reads `ball_dict[1]['bbox']` when the key exists. That would crash on an empty list, which the model does not capture.
- MiniCourtProjection.MiniCourt.ConvertBoundingBoxesToMiniCourtCoordinates: requires the four anchor keypoints (0, 2, 12 and 13) of the detected court to be numbers. With a NaN anchor, the source silently carries NaN into positions.
- MiniCourtProjection.MiniCourt.ConvertBoundingBoxesToMiniCourtCoordinates: requires every player record to have a bbox and the detected keypoint list to have all 28 values. The source would raise `KeyError` or `IndexError` without them.
- MiniCourtProjection.MiniCourt.ConvertBoundingBoxesToMiniCourtCoordinates: requires every reference height to be non-zero. The source raises `ZeroDivisionError` for a player whose tallest bbox in the window has height 0.
- MiniCourtProjection.MiniCourt.ConvertBoundingBoxesToMiniCourtCoordinates: requires at least as many ball frames as player frames, as the source's indexing does.
- Physics.PhysicsEngine.constructor: requires `mini_court_width != 0`. The source raises `ZeroDivisionError` for a zero width; that error path is not modelled.
- Physics.MetersPerPixel: requires a non-zero width, for the same reason.
- Tracker.AddPositionToTracks: requires every record of every object type to have a bbox. The source raises `KeyError` on a record without `'bbox'`; that error path is not modelled.
- Tracker.TracksWithPositions: requires every record to have a bbox, for the same reason.
- BBoxUtils.ClosestKeypointIndex: requires a non-empty `valid_indices` and every index to name a keypoint of the list. The source raises `IndexError` on an empty list. Python's negative list indices would wrap around, and indices are modelled as naturals, so that wrap-around is not captured.
- BBoxUtils.GetClosestKeypointIndex: the same requires as `ClosestKeypointIndex`, for the same reasons.
- Physics.PhysicsEngine.AddSpeedAndDistanceToTracks: requires `fps != 0` and `frame_window >= 1`. The source raises `ZeroDivisionError` only once a speed is computed, and indexes out of range for a negative window; those error paths are not modelled.
- The methods read earlier frames from a snapshot of the lists taken on entry, while the source reads them from the dictionaries it is updating. The only fields written are never read again, so the results agree, but aliasing is not modelled.
- The loop bodies of the two frame loops are split into their own methods (`ProjectEntry`, `ProjectFrame`, `TrackStep`, `PhysicsForFrame`) so that each proof stays small.

### Behaviour of the code worth knowing

- Outlier rejection compares consecutive frames, not the last two detected centres. A frame after a frame with no detection is never rejected, because the pandas `diff` is NaN there.
- Which tracker id becomes player 1 is not the first one seen. The id map enumerates `list(set(...))`, so it depends on set order.
- The reference window is `[max(0, f−20), min(N, f+50))`, so it reaches 49 frames after the current one.
- Nothing checks the frame window. It is a parameter of `add_speed_and_distance_to_tracks` with default 12, not of the constructor.
- Player-vs-crowd selection and a camera homography are not in the modelled files.
