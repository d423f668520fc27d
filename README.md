# Camera path planner — a Dafny model

This project models the camera-path planner of a pseudo-3D "tour into the
picture" video generator. From a list of control points the planner does three things:

1. **Bezier chain** (`generate_bezier_path_and_orientations`). It splits the points
   into cubic Bezier segments. For every segment after the first, it re-synthesises
   the second handle by mirroring the previous segment's third handle through the
   shared end point. This gives C1 continuity in x and y. The handle's z is taken
   from the raw point. Each segment is sampled at 256 steps `t = j/256`. x and y come
   from the Bernstein polynomial. z comes from a separate three-chunk piecewise-linear
   ramp over the z anchors. Each step also gets a heading in `[0, 360)` derived from
   the (x, y) tangent.
2. **Zero-heading filter** (the loop inside the `/generate_video` route). It drops every
   step whose heading is 0 and keeps points and headings paired.
3. **Smoothing** (`smoothen_camera`). For each consecutive pair of headings it emits one
   orientation frame per whole degree of a Python `range`. Each frame is paired with
   the *later* path point. The frame is `[horizontal, vertical, optical]`, where the
   vertical axis is fixed at `(0, 0, -1)`, the optical axis is `(cos, sin, 0)` and
   horizontal = vertical × optical.

Files and modules (one module each):

- `bezier_path.dfy` — `BezierPath`: segments, sampling, depth, headings, the
  generating method and its specification functions `BezierPoints` / `BezierHeadings`.
- `heading_filter.dfy` — `HeadingFilter`: the filter method and `KeptIndices`.
- `camera_smoothing.dfy` — `CameraSmoothing`: frames, Python `range`, per-pair
  degrees, the smoothing methods and their specification `Expansion`.
- `camera_planner.dfy` — `CameraPlanner`: the three stages in sequence as the route
  runs them, and the straight-line scenario.

Modelling choices:

- Coordinates are exact `real`s.
- The heading `ceil(atan2(dy, dx) * 180 / pi)` is the parameter `headingOf`. Only its
  range `[-180, 180]` is known, through the subset type `RawHeading`. Only the
  normalisation `(a + 360) % 360` is concrete.
- `cos` and `sin` of a whole number of degrees are the parameters `cosDeg` and `sinDeg`.
- Python 2's `ceil` returns a whole-valued float, so headings are integers here. The
  `int(...)` truncations in the filter and the smoother are then the identity.
- Python 2's `(len - 1) / order` is floor division. It agrees with Dafny's `/` for the
  positive divisor 3, and gives -1 for an empty list, where `range(-1)` runs no iteration.

Behaviour of the code worth knowing:

- A control-point count that is not `1 + 3k` is not rejected. It is silently truncated
  (`NumSegments`).
- Equal consecutive headings emit no frame. The `+1` on `end_range` meets a step of -1
  (`PairDegreesCases`).
- A backward jump of more than 180 degrees emits nothing (`PairDegreesCases`,
  `TurnScenarios`).
- The smoothed output is not always longer than its input.

## Model

| member | source | states |
|---|---|---|
| `BezierPath.NumSegments` | app/process.py:67 | the segment count is `(len-1)` floor-divided by 3: for a non-empty list `3n+1 <= len <= 3n+3` (extra points silently ignored), for an empty one -1 |
| `BezierPath.RangeLength` | app/process.py:71 | `range(n)` runs n iterations for `n >= 0` and none for a negative n |
| `BezierPath.SegmentsInBounds` | app/process.py:71-84 | every index `3i+k` (k ≤ 3) read for a segment `i < range(num_bezier_sets)` is inside the list |
| `BezierPath.SegmentOf` | app/process.py:72-84 | p0, p2, p3 are the raw points `3i`, `3i+2`, `3i+3`; for segment 0, p1 is raw; for `i > 0`, `p1 - p0 == p0 - prev_p2` in x and y, with prev_p2 the previous raw p2, and `p1.z` is the raw z of point `3i+1` |
| `BezierPath.RawHandleIgnored` | app/process.py:73-80 | for `i > 0` the raw x and y of point `3i+1` never influence the segment |
| `BezierPath.C1Continuity` | app/process.py:74-84 | segment i's (x, y) tangent at t = 1 equals segment i+1's at t = 0 |
| `BezierPath.Bezier` | app/process.py:89-90 | the cubic Bernstein formula for x and y; its end values are stated by `BezierEndpoints` |
| `BezierPath.BezierSlope` | app/process.py:102-103 | the derivative formula `dQtx`/`dQty`; its end values are stated by `BezierSlopeEndpoints` |
| `BezierPath.TangentX` | app/process.py:102 | `dQtx` of a segment at t; its agreement across a join is stated by `C1Continuity` |
| `BezierPath.TangentY` | app/process.py:103 | `dQty` of a segment at t; its agreement across a join is stated by `C1Continuity` |
| `BezierPath.BezierEndpoints` | app/process.py:89-90 | the Bernstein polynomial is the first handle at t = 0 and the last at t = 1 |
| `BezierPath.BezierSlopeEndpoints` | app/process.py:102-103 | the derivative polynomial is `3(p1-p0)` at t = 0 and `3(p3-p2)` at t = 1 |
| `BezierPath.Param` | app/process.py:88 | `t = j/256` lies in `[0, 1)` and is 0 at step 0 |
| `BezierPath.FirstStepIsStart` | app/process.py:88-92 | step 0 of a segment is exactly `(p0.x, p0.y, p0.z)` |
| `BezierPath.DepthAt` | app/process.py:91-96 | the three-chunk z rule; its bounds per chunk are stated by `DepthWithinChunk`, its value at step 255 by `LastStepDepthIsP2` |
| `BezierPath.Ramp` | app/process.py:92-96 | the linear ramp `(b-a)·f + a` of each chunk; its bounds are stated by `RampBetween` |
| `BezierPath.PathPointAt` | app/process.py:88-97 | the point appended at step j; step 0 is p0 by `FirstStepIsStart`, and its place in the path is stated by `PathAt` |
| `BezierPath.ChunkFraction` | app/process.py:91-96 | the chunk fraction `(j % 85) / 85` lies in `[0, 1)` and is 0 exactly at a chunk boundary |
| `BezierPath.RampBetween` | app/process.py:91-96 | a depth ramp `(b-a)·f + a` with `f` in `[0,1]` lies between a and b, and is a at `f = 0` |
| `BezierPath.DepthWithinChunk` | app/process.py:91-96 | in chunk k (`[0,85)`, `[85,170)`, `[170,256)`) the depth lies between anchors k and k+1 and equals anchor k at the chunk's first step |
| `BezierPath.LastStepDepthIsP2` | app/process.py:85-96 | since `255 % 85 == 0`, step 255 has depth `p2.z`, not near `p3.z` |
| `BezierPath.NormalizeHeading` | app/process.py:106 | `(a+360)%360` of a heading in `[-180,180]` is in `[0,360)`: `a` itself when `a >= 0`, `a+360` otherwise |
| `BezierPath.HeadingAt` | app/process.py:101-106 | a step's stored heading is in `[0, 360)` |
| `BezierPath.SegmentPoints` | app/process.py:86-97 | a segment contributes 256 points, point j being the sample at step j |
| `BezierPath.SegmentHeadings` | app/process.py:99-107 | a segment contributes 256 headings, heading j being the heading at step j |
| `BezierPath.Path` | app/process.py:68-97 | n segments give `256 n` path points |
| `BezierPath.Headings` | app/process.py:99-107 | n segments give `256 n` headings |
| `BezierPath.BezierPoints` | app/process.py:67-97 | the path has `256 × range length` points |
| `BezierPath.BezierHeadings` | app/process.py:99-107 | the headings list has the same length as the path |
| `BezierPath.PathAt` | app/process.py:86-97 | path entry k is step `k % 256` of segment `k / 256` |
| `BezierPath.HeadingsAt` | app/process.py:99-107 | heading entry k belongs to the same segment and step as path entry k (index-aligned) |
| `BezierPath.HeadingsInRange` | app/process.py:105-107 | every stored heading is in `[0, 360)` |
| `BezierPath.AppendSegmentPoints` | app/process.py:86-97 | the first inner loop appends exactly the segment's 256 sampled points to the path |
| `BezierPath.AppendSegmentHeadings` | app/process.py:99-107 | the second inner loop appends exactly the segment's 256 headings |
| `BezierPath.GenerateBezierPathAndOrientations` | app/process.py:62-109 | the loop, which threads `prev_p2`, returns exactly `BezierPoints` and `BezierHeadings`, both of length `256 × segments` |
| `HeadingFilter.KeptIndices` | app/process.py:36-40 | the kept indices are exactly those below n whose heading is non-zero, strictly increasing, at most n of them |
| `HeadingFilter.Select` | app/process.py:36-40 | the kept elements in index order: entry k is `s[indices[k]]`, one per index |
| `HeadingFilter.KeptStep` | app/process.py:36-40 | one more step of the walk appends `s[i]` exactly when heading i is non-zero |
| `HeadingFilter.AllZeroKeepsNothing` | app/process.py:36-40 | all-zero headings leave nothing |
| `HeadingFilter.NoZeroKeepsAll` | app/process.py:36-40 | with no zero heading the filter keeps every index, in order |
| `HeadingFilter.FilterZeroHeadings` | app/process.py:36-40 | the outputs are the path and headings at the kept indices: same length, order kept, pairing kept, no zero heading, no longer than the input |
| `CameraSmoothing.Cross` | app/process.py:133 | the cross product is perpendicular to both arguments |
| `CameraSmoothing.FrameAt` | app/process.py:132-134 | vertical is `(0,0,-1)`, optical is `(cos θ, sin θ, 0)`, horizontal = vertical × optical = `(sin θ, -cos θ, 0)` |
| `CameraSmoothing.FrameAxesPerpendicular` | app/process.py:132-134 | the three axes are pairwise perpendicular for any cos, sin |
| `CameraSmoothing.FrameIsOrthonormal` | app/process.py:132-134 | with `cos²+sin² = 1` all three axes are unit vectors |
| `CameraSmoothing.PairRange` | app/process.py:118-129 | the `step` chosen for the inner range is always +1 or -1 (the outcome per case is `PairDegreesCases`) |
| `CameraSmoothing.PairDegrees` | app/process.py:118-130 | the degree list of one pair; characterised case by case by `PairDegreesCases`, bounded by `PerPairBound` |
| `CameraSmoothing.PyRange` | app/process.py:130 | Python's `range(start, end, ±1)`, built step by step, has the closed form: length `max(0, ±(end-start))`, entry k = `start ± k` |
| `CameraSmoothing.PairDegreesCases` | app/process.py:118-130 | per pair `(p, c)` in `[0,360)`: `p<c≤p+180` gives `p..c-1`; `c<p≤c+180` gives `p` down to `c+1`; `p==c` gives none; `c-p>180` gives `p+360` down to `c+1` (`360-(c-p)` values); `p-c>180` gives none |
| `CameraSmoothing.ForwardWrapTakesMinorArc` | app/process.py:121-125 | a forward jump over 180 emits fewer than 180 degrees, all in `(c, p+360]` |
| `CameraSmoothing.TurnScenarios` | app/process.py:118-130 | 0→90 emits 0..89; 10→350 emits 370 down to 351 (20 frames); 350→10 emits none |
| `CameraSmoothing.PairEmissions` | app/process.py:130-135 | every frame of a pair is paired with the later index i |
| `CameraSmoothing.Expansion` | app/process.py:117-135 | every emission is paired with the later point `i` of a pair, `1 <= i < n` |
| `CameraSmoothing.ExpansionSplit` | app/process.py:117-135 | emission k of the first n pairs is emission k of the first n-1 pairs, or else it belongs to pair n-1 (source `n-1`) |
| `CameraSmoothing.ExpansionLastPair` | app/process.py:130-135 | an emission of the last pair carries that pair's degree at its offset past the earlier pairs' output |
| `CameraSmoothing.ExpansionDegree` | app/process.py:117-135 | every emitted degree is one of the degrees of its own pair, the pair ending at the emission's source index |
| `CameraSmoothing.ExpansionOrdered` | app/process.py:117-135 | emissions come pair by pair, in path order |
| `CameraSmoothing.ShortInputEmitsNothing` | app/process.py:117 | fewer than two headings give empty output |
| `CameraSmoothing.PerPairBound` | app/process.py:118-130 | with both headings in `[0,360)` a single pair emits at most 180 degrees |
| `CameraSmoothing.ExpansionBound` | app/process.py:117-130 | with headings in `[0,360)` at most 180 frames per heading are emitted |
| `CameraSmoothing.PointsOf` | app/process.py:135 | position k of the output is `camera_path[source]` of emission k |
| `CameraSmoothing.FramesOf` | app/process.py:131-134 | frame k of the output is the frame of emission k's degree |
| `CameraSmoothing.ExpansionStep` | app/process.py:117-135 | the output after pair i is the output before it followed by pair i's points and frames |
| `CameraSmoothing.SmoothPair` | app/process.py:118-135 | one pass of the outer loop, with the `step`/`start_range`/`end_range` choice and wrap-around correction, emits exactly its pair's degrees as frames, each with path point i |
| `CameraSmoothing.SmoothenCamera` | app/process.py:111-136 | two lists of equal length: position k is `camera_path[source]` and frame k is `FrameAt(degree)` for emission k of `Expansion` |
| `CameraPlanner.PlannedEmissions` | app/process.py:35-42 | the emissions of the whole route, indexed into the filtered lists; what they pair with is stated by `PlanCameraPath` |
| `CameraPlanner.PlanCameraPath` | app/process.py:35-42 | every rendered position is a generated path point whose heading is non-zero, every frame has the fixed vertical axis, and positions and frames are aligned |
| `CameraPlanner.StraightSlope` | app/process.py:102 | for the control x values 0, 10, 20, 30 the derivative is 30 at every t |
| `CameraPlanner.StraightLineAllFiltered` | app/process.py:36-42 | four collinear points give 256 points on `y = 0, z = 0` with tangent `(30, 0)`; if that heading is 0, every step is filtered out and nothing is emitted |

## Left out

- Request parsing, scene reconstruction (`cut_image`, `Space`, `Polyhedron`),
  rendering (`Camera.project_space`), video assembly and progress output
  (app/process.py:14-35, 42-58). These are I/O and calls into code that is not part
  of this model. Only lines 35-42 are modelled, in `CameraPlanner.PlanCameraPath`.
- `atan2`, `ceil` of its result, `cos`, `sin` and `pi`: floating-point transcendental
  functions. They are the parameters `headingOf`, `cosDeg` and `sinDeg`.
- IEEE floating-point rounding in the Bezier, depth and derivative formulas. The
  model computes them in exact reals.
- numpy arrays and `np.cross`: replaced by `Vec3` and the written-out cross product.
- The `order` argument of `generate_bezier_path_and_orientations`: fixed at 3
  (`ORDER`), its only value at the call site (app/process.py:33-35). The cubic
  formulas and the three depth chunks assume 3 anyway.
- app/plane.py: `Plane` only stores an image and point lists. It has no logic to model.
- `CameraSmoothing.SmoothenCamera` requires at least as many path points as headings.
  The source fails with an index error only when a pair that emits frames lacks its
  path point. Its only caller passes lists of equal length.
- `HeadingFilter.FilterZeroHeadings` requires at least as many headings as path points.
  This matches the source, which reads `camera_angles[i]` for every path index.
- Inner loops as methods: the inner loop of `smoothen_camera` is the method
  `SmoothPair`, which `SmoothenCamera` calls once per pair. It appends the frames of a
  pair in one step rather than one at a time; the resulting lists are the same. The two
  inner loops of `generate_bezier_path_and_orientations` are likewise the methods
  `AppendSegmentPoints` and `AppendSegmentHeadings`.
