/** Stage 1 of the camera-path planner: a chain of cubic Bezier segments
    through the user's control points, sampled at NUM_LINE_SEGMENTS steps per
    segment, with an independent piecewise-linear depth (z) and a heading per
    step derived from the (x, y) tangent.

    Coordinates are exact reals: the floating-point rounding of the source is
    not modelled.  The transcendental heading computation
    ceil(atan2(dy, dx) * 180 / pi) is a parameter `headingOf`, applied to the
    tangent (dx, dy); only its range [-180, 180] is known. */
module BezierPath {

  datatype Option<T> = None | Some(value: T)

  /** A control point or a generated path point, in world coordinates. */
  datatype Point3 = Point3(x: real, y: real, z: real)

  /** The four handles of one cubic segment (p1 after its C1 adjustment). */
  datatype Segment = Segment(p0: Point3, p1: Point3, p2: Point3, p3: Point3)

  /** A heading as ceil(atan2(..) in degrees) delivers it. */
  type RawHeading = a: int | -180 <= a <= 180

  /** The Bezier order; the planner always passes 3. */
  const ORDER: nat := 3
  /** Steps per segment. */
  const NUM_LINE_SEGMENTS: nat := 256
  /** Length of one depth chunk: 256 / 3 in integer division, i.e. 85. */
  const SEGMENT_CHUNK_LENGTH: nat := NUM_LINE_SEGMENTS / 3

  /** The segment count (len - 1) / order, with floor division: a count that
      is not 1 + 3k is silently truncated, and an empty list gives -1. */
  function NumSegments(count: nat): (n: int)
    ensures count == 0 ==> n == -1
    ensures count >= 1 ==> n >= 0 && ORDER * n + 1 <= count <= ORDER * n + ORDER
  {
    (count - 1) / ORDER
  }

  /** The number of iterations of Python's range(n). */
  function RangeLength(n: int): (r: nat)
    ensures n >= 0 ==> r == n
    ensures n < 0 ==> r == 0
  {
    if n < 0 then 0 else n
  }

  /** The handles of segment i, read from the raw control points: p0, p2 and
      p3 are raw; p1 is raw for the first segment only, and for every later
      one is the mirror image of the previous segment's raw p2 through p0 in
      x and y, with z taken from the raw point that p1 replaces. */
  function SegmentOf(points: seq<Point3>, i: nat): (s: Segment)
    requires ORDER * i + 3 < |points|
    ensures s.p0 == points[ORDER * i] && s.p2 == points[ORDER * i + 2] && s.p3 == points[ORDER * i + 3]
    ensures i == 0 ==> s.p1 == points[1]
    ensures i > 0 ==>
      var prevP2 := points[ORDER * i - 1];
      s.p1.x - s.p0.x == s.p0.x - prevP2.x &&
      s.p1.y - s.p0.y == s.p0.y - prevP2.y &&
      s.p1.z == points[ORDER * i + 1].z
  {
    var p0 := points[ORDER * i];
    var p1 :=
      if i != 0 then
        var prevP2 := points[ORDER * (i - 1) + 2];
        Point3(p0.x + (p0.x - prevP2.x), p0.y + (p0.y - prevP2.y), points[ORDER * i + 1].z)
      else
        points[ORDER * i + 1];
    Segment(p0, p1, points[ORDER * i + 2], points[ORDER * i + 3])
  }

  /** The parameter t = j / 256 of step j. */
  function Param(j: nat): (t: real)
    requires j < NUM_LINE_SEGMENTS
    ensures 0.0 <= t < 1.0
    ensures j == 0 ==> t == 0.0
  {
    j as real / NUM_LINE_SEGMENTS as real
  }

  /** The cubic Bernstein polynomial with coefficients a, b, c, d at t. */
  function Bezier(a: real, b: real, c: real, d: real, t: real): real
  {
    (1.0 - t) * (1.0 - t) * (1.0 - t) * a + 3.0 * (1.0 - t) * (1.0 - t) * t * b
      + 3.0 * (1.0 - t) * t * t * c + t * t * t * d
  }

  /** The derivative of Bezier(a, b, c, d, _) at t. */
  function BezierSlope(a: real, b: real, c: real, d: real, t: real): real
  {
    3.0 * (1.0 - t) * (1.0 - t) * (b - a) + 6.0 * (1.0 - t) * t * (c - b) + 3.0 * t * t * (d - c)
  }

  /** The curve starts at its first handle and ends at its last one. */
  lemma BezierEndpoints(a: real, b: real, c: real, d: real)
    ensures Bezier(a, b, c, d, 0.0) == a
    ensures Bezier(a, b, c, d, 1.0) == d
  {
  }

  /** The tangent at each end points from an end handle to its neighbour. */
  lemma BezierSlopeEndpoints(a: real, b: real, c: real, d: real)
    ensures BezierSlope(a, b, c, d, 0.0) == 3.0 * (b - a)
    ensures BezierSlope(a, b, c, d, 1.0) == 3.0 * (d - c)
  {
  }

  /** The depth at step j: three chunks of 85 steps, each a linear ramp
      between two successive z anchors p0.z, p1.z, p2.z, p3.z. The last
      chunk holds 86 steps and step 255 has j % 85 == 0. */
  function DepthAt(s: Segment, j: nat): real
    requires j < NUM_LINE_SEGMENTS
  {
    var fraction := ChunkFraction(j);
    if j < SEGMENT_CHUNK_LENGTH then
      Ramp(s.p0.z, s.p1.z, fraction)
    else if j < 2 * SEGMENT_CHUNK_LENGTH then
      Ramp(s.p1.z, s.p2.z, fraction)
    else
      Ramp(s.p2.z, s.p3.z, fraction)
  }

  /** The linear ramp from a (at f = 0) towards b (at f = 1). */
  function Ramp(a: real, b: real, f: real): real {
    (b - a) * f + a
  }

  /** How far step j has advanced through its chunk, as a fraction. */
  function ChunkFraction(j: nat): (f: real)
    ensures 0.0 <= f < 1.0
    ensures j % SEGMENT_CHUNK_LENGTH == 0 <==> f == 0.0
  {
    var m := j % SEGMENT_CHUNK_LENGTH;
    assert SEGMENT_CHUNK_LENGTH as real == 85.0 && 0 <= m < 85;
    m as real / SEGMENT_CHUNK_LENGTH as real
  }

  /** The path point generated at step j of segment s. */
  function PathPointAt(s: Segment, j: nat): Point3
    requires j < NUM_LINE_SEGMENTS
  {
    var t := Param(j);
    Point3(Bezier(s.p0.x, s.p1.x, s.p2.x, s.p3.x, t),
           Bezier(s.p0.y, s.p1.y, s.p2.y, s.p3.y, t),
           DepthAt(s, j))
  }

  /** The tangent (dx, dy) of segment s at parameter t. */
  function TangentX(s: Segment, t: real): real {
    BezierSlope(s.p0.x, s.p1.x, s.p2.x, s.p3.x, t)
  }

  function TangentY(s: Segment, t: real): real {
    BezierSlope(s.p0.y, s.p1.y, s.p2.y, s.p3.y, t)
  }

  /** (a + 360) % 360: a heading from [-180, 180] moved into [0, 360).
      Because a + 360 is positive, Python's % and Dafny's % agree here. */
  function NormalizeHeading(a: RawHeading): (r: int)
    ensures 0 <= r < 360
    ensures a >= 0 ==> r == a
    ensures a < 0 ==> r == a + 360
  {
    (a + 360) % 360
  }

  /** The stored heading of step j of segment s. */
  function HeadingAt(s: Segment, j: nat, headingOf: (real, real) -> RawHeading): (r: int)
    requires j < NUM_LINE_SEGMENTS
    ensures 0 <= r < 360
  {
    var t := Param(j);
    NormalizeHeading(headingOf(TangentX(s, t), TangentY(s, t)))
  }

  function SegmentPoints(s: Segment): (r: seq<Point3>)
    ensures |r| == NUM_LINE_SEGMENTS
    ensures forall j :: 0 <= j < NUM_LINE_SEGMENTS ==> r[j] == PathPointAt(s, j)
  {
    seq(NUM_LINE_SEGMENTS, j requires 0 <= j < NUM_LINE_SEGMENTS => PathPointAt(s, j))
  }

  function SegmentHeadings(s: Segment, headingOf: (real, real) -> RawHeading): (r: seq<int>)
    ensures |r| == NUM_LINE_SEGMENTS
    ensures forall j :: 0 <= j < NUM_LINE_SEGMENTS ==> r[j] == HeadingAt(s, j, headingOf)
  {
    seq(NUM_LINE_SEGMENTS, j requires 0 <= j < NUM_LINE_SEGMENTS => HeadingAt(s, j, headingOf))
  }

  /** The path points of the first n segments, in order. */
  function Path(points: seq<Point3>, n: nat): (r: seq<Point3>)
    requires n == 0 || ORDER * n < |points|
    ensures |r| == NUM_LINE_SEGMENTS * n
  {
    if n == 0 then [] else Path(points, n - 1) + SegmentPoints(SegmentOf(points, n - 1))
  }

  /** The headings of the first n segments, in order. */
  function Headings(points: seq<Point3>, headingOf: (real, real) -> RawHeading, n: nat): (r: seq<int>)
    requires n == 0 || ORDER * n < |points|
    ensures |r| == NUM_LINE_SEGMENTS * n
  {
    if n == 0 then [] else Headings(points, headingOf, n - 1) + SegmentHeadings(SegmentOf(points, n - 1), headingOf)
  }

  /** Every segment the planner reads lies inside the control-point list. */
  lemma SegmentsInBounds(count: nat)
    ensures var n := RangeLength(NumSegments(count));
      n == 0 || ORDER * n < count
    ensures forall i :: 0 <= i < RangeLength(NumSegments(count)) ==> ORDER * i + 3 < count
  {
  }

  /** All path points of the planner, and their headings. */
  function BezierPoints(points: seq<Point3>): (r: seq<Point3>)
    ensures |r| == NUM_LINE_SEGMENTS * RangeLength(NumSegments(|points|))
  {
    SegmentsInBounds(|points|);
    Path(points, RangeLength(NumSegments(|points|)))
  }

  function BezierHeadings(points: seq<Point3>, headingOf: (real, real) -> RawHeading): (r: seq<int>)
    ensures |r| == NUM_LINE_SEGMENTS * RangeLength(NumSegments(|points|))
  {
    SegmentsInBounds(|points|);
    Headings(points, headingOf, RangeLength(NumSegments(|points|)))
  }

  /** Entry k of the path is step k % 256 of segment k / 256. */
  lemma {:induction false} PathAt(points: seq<Point3>, n: nat, k: nat)
    requires n == 0 || ORDER * n < |points|
    requires k < NUM_LINE_SEGMENTS * n
    ensures k / NUM_LINE_SEGMENTS < n && ORDER * (k / NUM_LINE_SEGMENTS) + 3 < |points|
    ensures Path(points, n)[k] == PathPointAt(SegmentOf(points, k / NUM_LINE_SEGMENTS), k % NUM_LINE_SEGMENTS)
  {
    var prefix := NUM_LINE_SEGMENTS * (n - 1);
    if k < prefix {
      PathAt(points, n - 1, k);
    } else {
      var j := k - prefix;
      assert k == NUM_LINE_SEGMENTS * (n - 1) + j && 0 <= j < NUM_LINE_SEGMENTS;
      assert k / NUM_LINE_SEGMENTS == n - 1 && k % NUM_LINE_SEGMENTS == j;
    }
  }

  /** Entry k of the headings belongs to the same segment and step as entry
      k of the path: the two lists are index-aligned. */
  lemma {:induction false} HeadingsAt(points: seq<Point3>, headingOf: (real, real) -> RawHeading, n: nat, k: nat)
    requires n == 0 || ORDER * n < |points|
    requires k < NUM_LINE_SEGMENTS * n
    ensures k / NUM_LINE_SEGMENTS < n && ORDER * (k / NUM_LINE_SEGMENTS) + 3 < |points|
    ensures Headings(points, headingOf, n)[k]
         == HeadingAt(SegmentOf(points, k / NUM_LINE_SEGMENTS), k % NUM_LINE_SEGMENTS, headingOf)
  {
    var prefix := NUM_LINE_SEGMENTS * (n - 1);
    if k < prefix {
      HeadingsAt(points, headingOf, n - 1, k);
    } else {
      var j := k - prefix;
      assert k == NUM_LINE_SEGMENTS * (n - 1) + j && 0 <= j < NUM_LINE_SEGMENTS;
      assert k / NUM_LINE_SEGMENTS == n - 1 && k % NUM_LINE_SEGMENTS == j;
    }
  }

  /** Every stored heading lies in [0, 360). */
  lemma HeadingsInRange(points: seq<Point3>, headingOf: (real, real) -> RawHeading, k: nat)
    requires k < |BezierHeadings(points, headingOf)|
    ensures 0 <= BezierHeadings(points, headingOf)[k] < 360
  {
    SegmentsInBounds(|points|);
    HeadingsAt(points, headingOf, RangeLength(NumSegments(|points|)), k);
  }

  /** C1 continuity in (x, y): the tangent of segment i at its end (t = 1)
      equals the tangent of segment i + 1 at its start (t = 0), because
      segment i's p3 is segment i + 1's p0 and p1 is mirrored through it. */
  lemma C1Continuity(points: seq<Point3>, i: nat)
    requires ORDER * (i + 1) + 3 < |points|
    ensures TangentX(SegmentOf(points, i), 1.0) == TangentX(SegmentOf(points, i + 1), 0.0)
    ensures TangentY(SegmentOf(points, i), 1.0) == TangentY(SegmentOf(points, i + 1), 0.0)
  {
    var s, u := SegmentOf(points, i), SegmentOf(points, i + 1);
    BezierSlopeEndpoints(s.p0.x, s.p1.x, s.p2.x, s.p3.x);
    BezierSlopeEndpoints(s.p0.y, s.p1.y, s.p2.y, s.p3.y);
    BezierSlopeEndpoints(u.p0.x, u.p1.x, u.p2.x, u.p3.x);
    BezierSlopeEndpoints(u.p0.y, u.p1.y, u.p2.y, u.p3.y);
    assert u.p0 == s.p3;
  }

  /** For a later segment the raw x and y of the point that p1 replaces are
      never read: changing them leaves the segment as it was. */
  lemma RawHandleIgnored(points: seq<Point3>, i: nat, q: Point3)
    requires 0 < i && ORDER * i + 3 < |points|
    requires q.z == points[ORDER * i + 1].z
    ensures SegmentOf(points[ORDER * i + 1 := q], i) == SegmentOf(points, i)
  {
  }

  /** Step 0 of a segment is exactly its first handle. */
  lemma FirstStepIsStart(s: Segment)
    ensures PathPointAt(s, 0) == s.p0
  {
    BezierEndpoints(s.p0.x, s.p1.x, s.p2.x, s.p3.x);
    BezierEndpoints(s.p0.y, s.p1.y, s.p2.y, s.p3.y);
  }

  /** The depth anchor k: p0.z, p1.z, p2.z or p3.z. */
  function Anchor(s: Segment, k: nat): real
    requires k <= 3
  {
    if k == 0 then s.p0.z else if k == 1 then s.p1.z else if k == 2 then s.p2.z else s.p3.z
  }

  predicate Between(v: real, a: real, b: real) {
    (a <= v <= b) || (b <= v <= a)
  }

  lemma RampBetween(a: real, b: real, f: real)
    requires 0.0 <= f <= 1.0
    ensures Between(Ramp(a, b, f), a, b)
    ensures f == 0.0 ==> Ramp(a, b, f) == a
  {
    var d, g := b - a, 1.0 - f;
    assert d * f + d * g == d;
    if a <= b {
      assert 0.0 <= d * f && 0.0 <= d * g;
    } else {
      var e := a - b;
      assert e * f >= 0.0 && e * g >= 0.0;
      assert d * f == -(e * f) && d * g == -(e * g);
    }
  }

  /** Within chunk k (steps [85k, 85k + 85), the last chunk running to 255)
      the depth lies between anchors k and k + 1, and at the first step of the
      chunk it is anchor k. */
  lemma DepthWithinChunk(s: Segment, j: nat)
    requires j < NUM_LINE_SEGMENTS
    ensures var k := if j < 85 then 0 else if j < 170 then 1 else 2;
      Between(DepthAt(s, j), Anchor(s, k), Anchor(s, k + 1)) &&
      (j == 85 * k ==> DepthAt(s, j) == Anchor(s, k))
  {
    var fraction := ChunkFraction(j);
    if j < 85 {
      RampBetween(s.p0.z, s.p1.z, fraction);
    } else if j < 170 {
      RampBetween(s.p1.z, s.p2.z, fraction);
    } else {
      RampBetween(s.p2.z, s.p3.z, fraction);
    }
  }

  /** The last step does not reach p3.z: since 255 % 85 == 0 its depth snaps
      back to anchor p2.z. */
  lemma LastStepDepthIsP2(s: Segment)
    ensures DepthAt(s, NUM_LINE_SEGMENTS - 1) == s.p2.z
  {
    assert (NUM_LINE_SEGMENTS - 1) % SEGMENT_CHUNK_LENGTH == 0;
  }

  /** The first inner loop of generate_bezier_path_and_orientations: append
      the 256 sampled points of segment s to the path. */
  method AppendSegmentPoints(pathPoints: seq<Point3>, s: Segment) returns (extended: seq<Point3>)
    ensures extended == pathPoints + SegmentPoints(s)
  {
    extended := pathPoints;
    var j := 0;
    while j < NUM_LINE_SEGMENTS
      invariant 0 <= j <= NUM_LINE_SEGMENTS
      invariant extended == pathPoints + SegmentPoints(s)[..j]
    {
      var t := j as real / NUM_LINE_SEGMENTS as real;
      var x := Bezier(s.p0.x, s.p1.x, s.p2.x, s.p3.x, t);
      var y := Bezier(s.p0.y, s.p1.y, s.p2.y, s.p3.y, t);
      var z := DepthAt(s, j);
      extended := extended + [Point3(x, y, z)];
      assert SegmentPoints(s)[..j + 1] == SegmentPoints(s)[..j] + [PathPointAt(s, j)];
      j := j + 1;
    }
    assert SegmentPoints(s)[..NUM_LINE_SEGMENTS] == SegmentPoints(s);
  }

  /** The second inner loop: append the 256 headings of segment s. */
  method AppendSegmentHeadings(pathAngles: seq<int>, s: Segment, headingOf: (real, real) -> RawHeading)
    returns (extended: seq<int>)
    ensures extended == pathAngles + SegmentHeadings(s, headingOf)
  {
    extended := pathAngles;
    var j := 0;
    while j < NUM_LINE_SEGMENTS
      invariant 0 <= j <= NUM_LINE_SEGMENTS
      invariant extended == pathAngles + SegmentHeadings(s, headingOf)[..j]
    {
      var t := j as real / NUM_LINE_SEGMENTS as real;
      var dQtx := BezierSlope(s.p0.x, s.p1.x, s.p2.x, s.p3.x, t);
      var dQty := BezierSlope(s.p0.y, s.p1.y, s.p2.y, s.p3.y, t);
      var angleDeg := headingOf(dQtx, dQty);
      extended := extended + [NormalizeHeading(angleDeg)];
      assert SegmentHeadings(s, headingOf)[..j + 1] == SegmentHeadings(s, headingOf)[..j] + [HeadingAt(s, j, headingOf)];
      j := j + 1;
    }
    assert SegmentHeadings(s, headingOf)[..NUM_LINE_SEGMENTS] == SegmentHeadings(s, headingOf);
  }

  /** generate_bezier_path_and_orientations: segment by segment, threading
      the previous segment's raw p2 for the C1 adjustment, append 256 path
      points and then 256 headings. */
  method GenerateBezierPathAndOrientations(points: seq<Point3>, headingOf: (real, real) -> RawHeading)
    returns (pathPoints: seq<Point3>, pathAngles: seq<int>)
    ensures pathPoints == BezierPoints(points)
    ensures pathAngles == BezierHeadings(points, headingOf)
    ensures |pathPoints| == |pathAngles| == NUM_LINE_SEGMENTS * RangeLength(NumSegments(|points|))
  {
    var numBezierSets := (|points| - 1) / ORDER;
    var prevP2: Option<Point3> := None;
    pathPoints, pathAngles := [], [];
    var i := 0;
    while i < numBezierSets
      invariant 0 <= i <= RangeLength(numBezierSets)
      invariant i == 0 || ORDER * i < |points|
      invariant pathPoints == Path(points, i)
      invariant pathAngles == Headings(points, headingOf, i)
      invariant i > 0 ==> prevP2 == Some(points[ORDER * i - 1])
    {
      var p0 := points[i * ORDER];
      var p1: Point3;
      if i != 0 {
        var diffX := p0.x - prevP2.value.x;
        var diffY := p0.y - prevP2.value.y;
        p1 := Point3(p0.x + diffX, p0.y + diffY, points[i * ORDER + 1].z);
      } else {
        p1 := points[i * ORDER + 1];
      }
      var p2 := points[i * ORDER + 2];
      var p3 := points[i * ORDER + 3];
      var s := Segment(p0, p1, p2, p3);
      assert s == SegmentOf(points, i);
      pathPoints := AppendSegmentPoints(pathPoints, s);
      pathAngles := AppendSegmentHeadings(pathAngles, s, headingOf);
      prevP2 := Some(p2);
      i := i + 1;
    }
  }
}
