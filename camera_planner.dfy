/** The planner as the video route runs it (app/process.py:35-42): generate
    the Bezier path and its headings, drop the zero headings, then smooth
    the orientation between consecutive survivors.  The request parsing,
    scene reconstruction, rendering and video assembly around it are not
    part of this model. */
module CameraPlanner {
  import opened BezierPath
  import opened HeadingFilter
  import opened CameraSmoothing

  /** The emissions of the whole pipeline, indexed into the filtered lists. */
  function PlannedEmissions(points: seq<Point3>, headingOf: (real, real) -> RawHeading): seq<Emission>
  {
    var headings := BezierHeadings(points, headingOf);
    var kept := KeptIndices(headings, |headings|);
    Expansion(Select(headings, kept), |kept|)
  }

  /** Lines 35-42 of the route: the three stages in sequence.  Every frame
      handed to the renderer is paired with a generated path point whose
      heading was non-zero, every frame has the fixed vertical axis, and
      position k of the output is the later point of the pair that emitted
      frame k. */
  method PlanCameraPath(points: seq<Point3>, headingOf: (real, real) -> RawHeading,
                        cosDeg: int -> real, sinDeg: int -> real)
    returns (smoothPath: seq<Point3>, smoothFrames: seq<Frame>)
    ensures var headings := BezierHeadings(points, headingOf);
      var kept := KeptIndices(headings, |headings|);
      var e := PlannedEmissions(points, headingOf);
      |smoothPath| == |e| && |smoothFrames| == |e| &&
      forall k :: 0 <= k < |e| ==>
        e[k].source < |kept| &&
        smoothPath[k] == BezierPoints(points)[kept[e[k].source]] &&
        headings[kept[e[k].source]] != 0 &&
        smoothFrames[k] == FrameAt(e[k].degree, cosDeg, sinDeg)
    ensures forall k :: 0 <= k < |smoothFrames| ==> smoothFrames[k].vertical == VERTICAL_AXIS
  {
    var cameraPath, cameraAngles := GenerateBezierPathAndOrientations(points, headingOf);
    var filteredCameraPath, filteredCameraAngles := FilterZeroHeadings(cameraPath, cameraAngles);
    smoothPath, smoothFrames := SmoothenCamera(filteredCameraPath, filteredCameraAngles, cosDeg, sinDeg);
  }

  /** The straight line (0,0,0), (10,0,0), (20,0,0), (30,0,0). */
  function StraightLine(): seq<Point3> {
    [Point3(0.0, 0.0, 0.0), Point3(10.0, 0.0, 0.0), Point3(20.0, 0.0, 0.0), Point3(30.0, 0.0, 0.0)]
  }

  lemma StraightSlope(t: real)
    ensures BezierSlope(0.0, 10.0, 20.0, 30.0, t) == 30.0
  {
    calc {
      BezierSlope(0.0, 10.0, 20.0, 30.0, t);
      30.0 * ((1.0 - t) * (1.0 - t) + 2.0 * (1.0 - t) * t + t * t);
      30.0 * (((1.0 - t) + t) * ((1.0 - t) + t));
    }
  }

  /** Four collinear control points give one segment of 256 points on the
      line y = 0, z = 0 whose tangent is (30, 0) at every step.  When the
      heading of that tangent is 0, every step is dropped by the filter, and
      the planner hands nothing to the renderer. */
  lemma StraightLineAllFiltered(headingOf: (real, real) -> RawHeading)
    requires headingOf(30.0, 0.0) == 0
    ensures |BezierPoints(StraightLine())| == NUM_LINE_SEGMENTS
    ensures forall k :: 0 <= k < NUM_LINE_SEGMENTS ==>
      BezierPoints(StraightLine())[k].y == 0.0 && BezierPoints(StraightLine())[k].z == 0.0
    ensures KeptIndices(BezierHeadings(StraightLine(), headingOf), NUM_LINE_SEGMENTS) == []
    ensures PlannedEmissions(StraightLine(), headingOf) == []
  {
    var points := StraightLine();
    assert NumSegments(|points|) == 1;
    var s := SegmentOf(points, 0);
    var headings := BezierHeadings(points, headingOf);
    forall k | 0 <= k < NUM_LINE_SEGMENTS
      ensures BezierPoints(points)[k].y == 0.0 && BezierPoints(points)[k].z == 0.0
      ensures headings[k] == 0
    {
      PathAt(points, 1, k);
      HeadingsAt(points, headingOf, 1, k);
      assert k / NUM_LINE_SEGMENTS == 0 && k % NUM_LINE_SEGMENTS == k;
      StraightSlope(Param(k));
    }
    AllZeroKeepsNothing(headings, NUM_LINE_SEGMENTS);
  }
}
