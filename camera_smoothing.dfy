/** Stage 3 of the camera-path planner (smoothen_camera): between each pair
    of consecutive headings, emit one orientation frame per whole degree,
    each paired with the later of the two path points.

    Headings are whole numbers of degrees.  cos and sin of an angle given in
    degrees are parameters `cosDeg` and `sinDeg`; nothing about them is
    assumed except, where unit length is stated, cos^2 + sin^2 == 1. */
module CameraSmoothing {

  /** A 3-vector; the source's numpy arrays of length 3. */
  datatype Vec3 = Vec3(x: real, y: real, z: real)

  /** A camera orientation: the rows [horizontal, vertical, optical]. */
  datatype Frame = Frame(horizontal: Vec3, vertical: Vec3, optical: Vec3)

  /** One emitted step: the index of the path point it is paired with, and
      its heading in degrees. */
  datatype Emission = Emission(source: nat, degree: int)

  /** The fixed vertical axis: world -z. */
  const VERTICAL_AXIS: Vec3 := Vec3(0.0, 0.0, -1.0)

  function Dot(a: Vec3, b: Vec3): real {
    a.x * b.x + a.y * b.y + a.z * b.z
  }

  /** The cross product, written out as np.cross computes it. */
  function Cross(a: Vec3, b: Vec3): (r: Vec3)
    ensures Dot(r, a) == 0.0 && Dot(r, b) == 0.0
  {
    Vec3(a.y * b.z - a.z * b.y, a.z * b.x - a.x * b.z, a.x * b.y - a.y * b.x)
  }

  /** The frame of heading deg: optical axis (cos, sin, 0), vertical axis
      (0, 0, -1), and horizontal = vertical x optical, which works out to
      (sin, -cos, 0). */
  function FrameAt(deg: int, cosDeg: int -> real, sinDeg: int -> real): (f: Frame)
    ensures f.vertical == VERTICAL_AXIS
    ensures f.optical == Vec3(cosDeg(deg), sinDeg(deg), 0.0)
    ensures f.horizontal == Vec3(sinDeg(deg), -cosDeg(deg), 0.0)
  {
    var optical := Vec3(cosDeg(deg), sinDeg(deg), 0.0);
    Frame(Cross(VERTICAL_AXIS, optical), VERTICAL_AXIS, optical)
  }

  /** The three axes of every frame are pairwise perpendicular, whatever
      cos and sin are. */
  lemma FrameAxesPerpendicular(deg: int, cosDeg: int -> real, sinDeg: int -> real)
    ensures var f := FrameAt(deg, cosDeg, sinDeg);
      Dot(f.horizontal, f.vertical) == 0.0 &&
      Dot(f.horizontal, f.optical) == 0.0 &&
      Dot(f.vertical, f.optical) == 0.0
  {
  }

  /** With cos^2 + sin^2 == 1 every axis of the frame is a unit vector, so the
      frame is orthonormal. */
  lemma FrameIsOrthonormal(deg: int, cosDeg: int -> real, sinDeg: int -> real)
    requires cosDeg(deg) * cosDeg(deg) + sinDeg(deg) * sinDeg(deg) == 1.0
    ensures var f := FrameAt(deg, cosDeg, sinDeg);
      Dot(f.horizontal, f.horizontal) == 1.0 &&
      Dot(f.vertical, f.vertical) == 1.0 &&
      Dot(f.optical, f.optical) == 1.0
  {
    var f := FrameAt(deg, cosDeg, sinDeg);
    assert Dot(f.horizontal, f.horizontal) == sinDeg(deg) * sinDeg(deg) + cosDeg(deg) * cosDeg(deg);
  }

  function Abs(v: int): (r: nat)
    ensures r == v || r == -v
  {
    if v < 0 then -v else v
  }

  /** Python's range(start, end, step) for a step of +1 or -1, as Python
      produces it: from start, moving by step while the bound is not passed.
      Its contract gives the closed form. */
  function PyRange(start: int, end: int, step: int): (r: seq<int>)
    requires step == 1 || step == -1
    ensures |r| == if step == 1 then (if start < end then end - start else 0)
                   else (if start > end then start - end else 0)
    ensures step == 1 ==> forall k :: 0 <= k < |r| ==> r[k] == start + k
    ensures step == -1 ==> forall k :: 0 <= k < |r| ==> r[k] == start - k
    decreases if step == 1 then end - start else start - end
  {
    if (step == 1 && start < end) || (step == -1 && start > end) then
      [start] + PyRange(start + step, end, step)
    else
      []
  }

  /** The arguments of the inner range call for the pair (prev, curr):
      start_range, end_range and step as smoothen_camera chooses them. */
  datatype RangeArgs = RangeArgs(start: int, end: int, step: int)

  function PairRange(prev: int, curr: int): (a: RangeArgs)
    ensures a.step == 1 || a.step == -1
  {
    var step := if curr > prev then 1 else -1;
    var endRange := if prev - curr == 0 then curr + 1 else curr;
    if Abs(curr - prev) > 180 then
      if curr > prev then RangeArgs(prev + 360, curr, -1)
      else RangeArgs(curr + 360, prev, 1)
    else
      RangeArgs(prev, endRange, step)
  }

  /** The degrees emitted for the pair (prev, curr). */
  function PairDegrees(prev: int, curr: int): seq<int>
  {
    var a := PairRange(prev, curr);
    PyRange(a.start, a.end, a.step)
  }

  /** What each pair emits, case by case:
      a forward turn of at most 180 degrees counts up from prev to curr - 1;
      a backward turn of at most 180 counts down from prev to curr + 1;
      equal headings emit nothing (the +1 on end_range meets a step of -1);
      a forward jump of more than 180 goes the short way, from prev + 360
      down to curr + 1, so some degrees are 360 or more;
      a backward jump of more than 180 emits nothing, because the range
      then starts at curr + 360 and runs up to prev, which is below it. */
  lemma PairDegreesCases(p: int, c: int)
    requires 0 <= p < 360 && 0 <= c < 360
    ensures var r := PairDegrees(p, c);
      (p < c && c - p <= 180 ==> |r| == c - p && forall k :: 0 <= k < |r| ==> r[k] == p + k) &&
      (c < p && p - c <= 180 ==> |r| == p - c && forall k :: 0 <= k < |r| ==> r[k] == p - k) &&
      (p == c ==> r == []) &&
      (c - p > 180 ==> |r| == 360 - (c - p) && forall k :: 0 <= k < |r| ==> r[k] == p + 360 - k) &&
      (p - c > 180 ==> r == [])
  {
  }

  /** A forward jump across 0/360 takes the minor arc: it emits fewer than
      180 degrees, each congruent mod 360 to a degree strictly between c and
      p + 360. */
  lemma ForwardWrapTakesMinorArc(p: int, c: int)
    requires 0 <= p < 360 && 0 <= c < 360 && c - p > 180
    ensures |PairDegrees(p, c)| < 180
    ensures forall k :: 0 <= k < |PairDegrees(p, c)| ==> c < PairDegrees(p, c)[k] <= p + 360
  {
    PairDegreesCases(p, c);
  }

  /** The frames emitted for the pair ending at index i, all paired with
      path point i. */
  function PairEmissions(i: nat, prev: int, curr: int): (r: seq<Emission>)
    ensures |r| == |PairDegrees(prev, curr)|
    ensures forall k :: 0 <= k < |r| ==> r[k] == Emission(i, PairDegrees(prev, curr)[k])
  {
    var degrees := PairDegrees(prev, curr);
    seq(|degrees|, k requires 0 <= k < |degrees| => Emission(i, degrees[k]))
  }

  /** Everything emitted for the pairs ending below n, in order. Every
      emission is paired with the later point i >= 1 of its pair and carries
      one of that pair's degrees. */
  function Expansion(angles: seq<int>, n: nat): (e: seq<Emission>)
    requires n <= |angles|
    ensures forall k :: 0 <= k < |e| ==> 1 <= e[k].source < n
  {
    if n <= 1 then [] else Expansion(angles, n - 1) + PairEmissions(n - 1, angles[n - 2], angles[n - 1])
  }

  /** Emission k of the first n pairs is emission k of the first n - 1
      pairs, or else an emission of pair n - 1. */
  lemma ExpansionSplit(angles: seq<int>, n: nat, k: nat)
    requires n <= |angles|
    requires k < |Expansion(angles, n)|
    ensures n >= 2
    ensures k < |Expansion(angles, n - 1)| ==> Expansion(angles, n)[k] == Expansion(angles, n - 1)[k]
    ensures k >= |Expansion(angles, n - 1)| ==> Expansion(angles, n)[k].source == n - 1
  {
  }

  /** An emission of the last pair carries that pair's degree at its offset. */
  lemma ExpansionLastPair(angles: seq<int>, n: nat, k: nat)
    requires n <= |angles|
    requires k < |Expansion(angles, n)|
    requires k >= |Expansion(angles, n - 1)|
    ensures n >= 2
    ensures k - |Expansion(angles, n - 1)| < |PairDegrees(angles[n - 2], angles[n - 1])|
    ensures Expansion(angles, n)[k] ==
      Emission(n - 1, PairDegrees(angles[n - 2], angles[n - 1])[k - |Expansion(angles, n - 1)|])
  {
  }

  /** Emission e was produced by its own pair: its degree is one of the
      degrees of the pair ending at e.source. */
  predicate FromOwnPair(angles: seq<int>, e: Emission)
  {
    1 <= e.source < |angles| && e.degree in PairDegrees(angles[e.source - 1], angles[e.source])
  }

  lemma PairMember(angles: seq<int>, i: nat, j: nat)
    requires 1 <= i < |angles|
    requires j < |PairDegrees(angles[i - 1], angles[i])|
    ensures FromOwnPair(angles, Emission(i, PairDegrees(angles[i - 1], angles[i])[j]))
  {
  }

  /** Every emitted degree belongs to the range of its own pair. */
  lemma {:induction false} ExpansionDegree(angles: seq<int>, n: nat, k: nat)
    requires n <= |angles|
    requires k < |Expansion(angles, n)|
    ensures FromOwnPair(angles, Expansion(angles, n)[k])
  {
    ExpansionSplit(angles, n, k);
    if k < |Expansion(angles, n - 1)| {
      ExpansionDegree(angles, n - 1, k);
    } else {
      ExpansionLastPair(angles, n, k);
      PairMember(angles, n - 1, k - |Expansion(angles, n - 1)|);
    }
  }

  /** The emissions come pair by pair, in path order. */
  lemma {:induction false} ExpansionOrdered(angles: seq<int>, n: nat, k: nat, l: nat)
    requires n <= |angles|
    requires k <= l < |Expansion(angles, n)|
    ensures Expansion(angles, n)[k].source <= Expansion(angles, n)[l].source
  {
    ExpansionSplit(angles, n, k);
    ExpansionSplit(angles, n, l);
    if l < |Expansion(angles, n - 1)| {
      ExpansionOrdered(angles, n - 1, k, l);
    }
  }

  /** A quarter turn and the 10/350 wrap: from 0 to 90 the smoother emits
      the 90 degrees 0..89; from 10 to 350 it goes the short way, 370 down to
      351 (20 frames); from 350 to 10 it emits nothing. */
  lemma TurnScenarios()
    ensures PairDegrees(0, 90) == seq(90, k => k)
    ensures PairDegrees(10, 350) == seq(20, k => 370 - k)
    ensures PairDegrees(350, 10) == []
  {
    PairDegreesCases(0, 90);
    PairDegreesCases(10, 350);
    PairDegreesCases(350, 10);
  }

  /** Fewer than two headings give no pair and no output. */
  lemma ShortInputEmitsNothing(angles: seq<int>)
    requires |angles| < 2
    ensures Expansion(angles, |angles|) == []
  {
  }

  /** With headings in [0, 360) no pair emits more than 180 frames: the
      smoother never goes the long way round. */
  lemma PerPairBound(p: int, c: int)
    requires 0 <= p < 360 && 0 <= c < 360
    ensures |PairDegrees(p, c)| <= 180
  {
    PairDegreesCases(p, c);
  }

  /** Hence the whole output has at most 180 frames per heading. */
  lemma {:induction false} ExpansionBound(angles: seq<int>, n: nat)
    requires n <= |angles|
    requires forall i :: 0 <= i < n ==> 0 <= angles[i] < 360
    ensures |Expansion(angles, n)| <= 180 * n
  {
    if n >= 2 {
      ExpansionBound(angles, n - 1);
      PerPairBound(angles[n - 2], angles[n - 1]);
    }
  }

  /** The path points paired with a run of emissions. */
  function PointsOf<P>(cameraPath: seq<P>, e: seq<Emission>): (r: seq<P>)
    requires forall k :: 0 <= k < |e| ==> e[k].source < |cameraPath|
    ensures |r| == |e|
    ensures forall k :: 0 <= k < |e| ==> r[k] == cameraPath[e[k].source]
  {
    seq(|e|, k requires 0 <= k < |e| => cameraPath[e[k].source])
  }

  /** The frames of a run of emissions. */
  function FramesOf(e: seq<Emission>, cosDeg: int -> real, sinDeg: int -> real): (r: seq<Frame>)
    ensures |r| == |e|
    ensures forall k :: 0 <= k < |e| ==> r[k] == FrameAt(e[k].degree, cosDeg, sinDeg)
  {
    seq(|e|, k requires 0 <= k < |e| => FrameAt(e[k].degree, cosDeg, sinDeg))
  }

  lemma OfAppend<P>(cameraPath: seq<P>, e: seq<Emission>, x: Emission, cosDeg: int -> real, sinDeg: int -> real)
    requires forall k :: 0 <= k < |e| ==> e[k].source < |cameraPath|
    requires x.source < |cameraPath|
    ensures PointsOf(cameraPath, e + [x]) == PointsOf(cameraPath, e) + [cameraPath[x.source]]
    ensures FramesOf(e + [x], cosDeg, sinDeg) == FramesOf(e, cosDeg, sinDeg) + [FrameAt(x.degree, cosDeg, sinDeg)]
  {
    var extended := e + [x];
    assert forall k :: 0 <= k < |e| ==> extended[k] == e[k];
  }

  lemma PrefixStep<T>(s: seq<T>, n: nat)
    requires n < |s|
    ensures s[..n + 1] == s[..n] + [s[n]]
  {
  }

  lemma OfConcat<P>(cameraPath: seq<P>, e: seq<Emission>, f: seq<Emission>, cosDeg: int -> real, sinDeg: int -> real)
    requires forall k :: 0 <= k < |e| ==> e[k].source < |cameraPath|
    requires forall k :: 0 <= k < |f| ==> f[k].source < |cameraPath|
    ensures PointsOf(cameraPath, e + f) == PointsOf(cameraPath, e) + PointsOf(cameraPath, f)
    ensures FramesOf(e + f, cosDeg, sinDeg) == FramesOf(e, cosDeg, sinDeg) + FramesOf(f, cosDeg, sinDeg)
  {
    var joined := e + f;
    assert forall k :: 0 <= k < |e| ==> joined[k] == e[k];
    assert forall k :: |e| <= k < |joined| ==> joined[k] == f[k - |e|];
  }

  /** Appending the emissions of pair i to the first i pairs' output gives
      the output of the first i + 1 pairs. */
  lemma ExpansionStep<P>(cameraPath: seq<P>, angles: seq<int>, i: nat, cosDeg: int -> real, sinDeg: int -> real)
    requires 1 <= i < |angles| <= |cameraPath|
    ensures PointsOf(cameraPath, Expansion(angles, i + 1)) ==
      PointsOf(cameraPath, Expansion(angles, i)) + PointsOf(cameraPath, PairEmissions(i, angles[i - 1], angles[i]))
    ensures FramesOf(Expansion(angles, i + 1), cosDeg, sinDeg) ==
      FramesOf(Expansion(angles, i), cosDeg, sinDeg) + FramesOf(PairEmissions(i, angles[i - 1], angles[i]), cosDeg, sinDeg)
  {
    OfConcat(cameraPath, Expansion(angles, i), PairEmissions(i, angles[i - 1], angles[i]), cosDeg, sinDeg);
  }

  /** One pass of the outer loop of smoothen_camera, for the pair of
      headings (prev, curr) ending at path index i: choose step, start_range
      and end_range, correcting for wrap-around when the headings are more
      than 180 degrees apart, then emit one frame per degree of Python's
      range over them, each paired with path point i. */
  method SmoothPair<P>(cameraPath: seq<P>, i: nat, prev: int, curr: int, cosDeg: int -> real, sinDeg: int -> real)
    returns (pathPoints: seq<P>, frames: seq<Frame>)
    requires i < |cameraPath|
    ensures pathPoints == PointsOf(cameraPath, PairEmissions(i, prev, curr))
    ensures frames == FramesOf(PairEmissions(i, prev, curr), cosDeg, sinDeg)
  {
    var step := if curr > prev then 1 else -1;
    var startRange := prev;
    var endRange := if prev - curr == 0 then curr + 1 else curr;
    if Abs(curr - prev) > 180 {
      if curr > prev {
        startRange := startRange + 360;
        endRange := curr;
        step := -1;
      } else {
        startRange := curr + 360;
        endRange := prev;
        step := 1;
      }
    }
    ghost var pair := PairEmissions(i, prev, curr);
    assert RangeArgs(startRange, endRange, step) == PairRange(prev, curr);

    pathPoints, frames := [], [];
    ghost var count := 0;
    var angleDeg := startRange;
    while (step == 1 && angleDeg < endRange) || (step == -1 && angleDeg > endRange)
      invariant step == 1 ==> startRange <= angleDeg && (angleDeg <= endRange || angleDeg == startRange)
      invariant step == -1 ==> angleDeg <= startRange && (endRange <= angleDeg || angleDeg == startRange)
      invariant angleDeg == if step == 1 then startRange + count else startRange - count
      invariant 0 <= count <= |pair|
      invariant pathPoints == PointsOf(cameraPath, pair[..count])
      invariant frames == FramesOf(pair[..count], cosDeg, sinDeg)
      decreases if step == 1 then endRange - angleDeg else angleDeg - endRange
    {
      var opticalVector := Vec3(cosDeg(angleDeg), sinDeg(angleDeg), 0.0);
      var horizontalVector := Cross(VERTICAL_AXIS, opticalVector);
      assert pair[count] == Emission(i, angleDeg);
      OfAppend(cameraPath, pair[..count], pair[count], cosDeg, sinDeg);
      PrefixStep(pair, count);
      frames := frames + [Frame(horizontalVector, VERTICAL_AXIS, opticalVector)];
      pathPoints := pathPoints + [cameraPath[i]];
      angleDeg := angleDeg + step;
      count := count + 1;
    }
    assert pair[..|pair|] == pair;
  }

  /** smoothen_camera: for each consecutive pair of headings, append what
      SmoothPair emits for it. */
  method SmoothenCamera<P>(cameraPath: seq<P>, cameraAngles: seq<int>, cosDeg: int -> real, sinDeg: int -> real)
    returns (finalPathPoints: seq<P>, finalCameraAngles: seq<Frame>)
    requires |cameraAngles| <= |cameraPath|
    ensures finalPathPoints == PointsOf(cameraPath, Expansion(cameraAngles, |cameraAngles|))
    ensures finalCameraAngles == FramesOf(Expansion(cameraAngles, |cameraAngles|), cosDeg, sinDeg)
  {
    finalPathPoints, finalCameraAngles := [], [];
    var i := 1;
    while i < |cameraAngles|
      invariant 1 <= i
      invariant i <= |cameraAngles| || i == 1
      invariant var emitted := Expansion(cameraAngles, if i <= |cameraAngles| then i else 0);
        finalPathPoints == PointsOf(cameraPath, emitted) &&
        finalCameraAngles == FramesOf(emitted, cosDeg, sinDeg)
    {
      var pathPoints, frames := SmoothPair(cameraPath, i, cameraAngles[i - 1], cameraAngles[i], cosDeg, sinDeg);
      ExpansionStep(cameraPath, cameraAngles, i, cosDeg, sinDeg);
      finalPathPoints := finalPathPoints + pathPoints;
      finalCameraAngles := finalCameraAngles + frames;
      i := i + 1;
    }
    assert (if i <= |cameraAngles| then i else 0) == |cameraAngles|;
  }
}
