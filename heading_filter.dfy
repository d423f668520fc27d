/** Stage 2 of the camera-path planner: drop every step whose heading is
    zero, keeping the surviving path points and headings paired and in
    order.  The source truncates each heading with int(); the headings it
    receives are whole numbers, so here they are integers and the truncation
    is the identity. */
module HeadingFilter {

  /** The indices below n whose heading is non-zero, in increasing order. */
  function KeptIndices(angles: seq<int>, n: nat): (r: seq<nat>)
    requires n <= |angles|
    ensures |r| <= n
    ensures forall k :: 0 <= k < |r| ==> r[k] < n && angles[r[k]] != 0
    ensures forall k, l :: 0 <= k < l < |r| ==> r[k] < r[l]
    ensures forall i :: 0 <= i < n && angles[i] != 0 ==> i in r
  {
    if n == 0 then [] else KeptIndices(angles, n - 1) + (if angles[n - 1] != 0 then [n - 1] else [])
  }

  /** The elements of s at the given indices, in the order of the indices. */
  function Select<T>(s: seq<T>, indices: seq<nat>): (r: seq<T>)
    requires forall k :: 0 <= k < |indices| ==> indices[k] < |s|
    ensures |r| == |indices|
    ensures forall k :: 0 <= k < |r| ==> r[k] == s[indices[k]]
  {
    seq(|indices|, k requires 0 <= k < |indices| => s[indices[k]])
  }

  lemma SelectAppend<T>(s: seq<T>, indices: seq<nat>, i: nat)
    requires forall k :: 0 <= k < |indices| ==> indices[k] < |s|
    requires i < |s|
    ensures Select(s, indices + [i]) == Select(s, indices) + [s[i]]
  {
    var extended := indices + [i];
    assert forall k :: 0 <= k < |indices| ==> extended[k] == indices[k];
  }

  /** Extending the walk by index i keeps s[i] exactly when its heading is
      non-zero. */
  lemma KeptStep<T>(s: seq<T>, angles: seq<int>, i: nat)
    requires i < |s| <= |angles|
    ensures Select(s, KeptIndices(angles, i + 1)) ==
      Select(s, KeptIndices(angles, i)) + (if angles[i] != 0 then [s[i]] else [])
  {
    if angles[i] != 0 {
      SelectAppend(s, KeptIndices(angles, i), i);
    }
  }

  /** When every heading is zero, nothing survives. */
  lemma AllZeroKeepsNothing(angles: seq<int>, n: nat)
    requires n <= |angles|
    requires forall i :: 0 <= i < n ==> angles[i] == 0
    ensures KeptIndices(angles, n) == []
  {
  }

  /** When no heading is zero, everything survives: the filter is the
      identity on such input. */
  lemma {:induction false} NoZeroKeepsAll(angles: seq<int>, n: nat)
    requires n <= |angles|
    requires forall i :: 0 <= i < n ==> angles[i] != 0
    ensures |KeptIndices(angles, n)| == n
    ensures forall k :: 0 <= k < n ==> KeptIndices(angles, n)[k] == k
  {
    if n > 0 {
      NoZeroKeepsAll(angles, n - 1);
    }
  }

  /** The loop at app/process.py:36-40 of the route, lifted into a method:
      walk the path, keep the points (and headings) whose heading is not 0. */
  method FilterZeroHeadings<P>(cameraPath: seq<P>, cameraAngles: seq<int>)
    returns (filteredPath: seq<P>, filteredAngles: seq<int>)
    requires |cameraPath| <= |cameraAngles|
    ensures var kept := KeptIndices(cameraAngles, |cameraPath|);
      filteredPath == Select(cameraPath, kept) &&
      filteredAngles == Select(cameraAngles, kept)
    ensures |filteredPath| == |filteredAngles| <= |cameraPath|
    ensures forall k :: 0 <= k < |filteredAngles| ==> filteredAngles[k] != 0
  {
    filteredPath, filteredAngles := [], [];
    for i := 0 to |cameraPath|
      invariant var kept := KeptIndices(cameraAngles, i);
        filteredPath == Select(cameraPath, kept) &&
        filteredAngles == Select(cameraAngles, kept)
    {
      KeptStep(cameraPath, cameraAngles, i);
      KeptStep(cameraAngles, cameraAngles, i);
      if cameraAngles[i] != 0 {
        filteredPath := filteredPath + [cameraPath[i]];
        filteredAngles := filteredAngles + [cameraAngles[i]];
      }
    }
  }
}
