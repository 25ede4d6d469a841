/** The per-vertex visibility tally of the bounding-box code: every projected
    corner of an agent's box is either outside the camera (behind it, past the
    render depth, or off the canvas), occluded by something nearer in the depth
    map, or visible; the loop counts the visible and the outside ones. */
module Occlusion {
  import opened CameraUtils

  /** What the loop decides about one projected point. */
  datatype Verdict = Visible | Occluded | Outside

  /** Colours and size of the marker the loop may draw on an in-view vertex. */
  datatype Rgb = Rgb(red: nat, green: nat, blue: nat)
  const OccludedVertexColor := Rgb(255, 0, 0)
  const VisibleVertexColor := Rgb(0, 255, 0)
  const VertexMarkerSize: nat := 4

  /** One `draw_rect` request: a square of `size` pixels at (`row`, `col`). */
  datatype Marker = Marker(row: real, col: real, size: nat, color: Rgb)

  /** The two counters of the loop. */
  datatype VertexCounts = VertexCounts(visible: nat, outside: nat) {
    function Plus(other: VertexCounts): VertexCounts {
      VertexCounts(visible + other.visible, outside + other.outside)
    }
  }

  /** `max_render_depth > depth > 0`: in front of the camera and near enough. */
  predicate InRenderRange(depth: real, maxRenderDepth: real) {
    maxRenderDepth > depth > 0.0
  }

  /** The loop's first test. The canvas test is only asked of points in range,
      since `&&` short-circuits as Python's `and` does. */
  predicate InView(p: Projected, maxRenderDepth: real, helpers: Helpers) {
    InRenderRange(p.depth, maxRenderDepth) && helpers.pointInCanvas(p.y, p.x)
  }

  /** The loop body's decision for one point. */
  function Classify(p: Projected, maxRenderDepth: real, helpers: Helpers): Verdict {
    if InView(p, maxRenderDepth, helpers) then
      if helpers.pointIsOccluded(p.y, p.x, p.depth) then Occluded else Visible
    else
      Outside
  }

  /** How one verdict moves the counters: at most one of them, by one. */
  function Tally(c: VertexCounts, v: Verdict): VertexCounts {
    match v
    case Visible => VertexCounts(c.visible + 1, c.outside)
    case Occluded => c
    case Outside => VertexCounts(c.visible, c.outside + 1)
  }

  /** The counters after the loop has visited every point of `points` in order. */
  function OcclusionStats(points: seq<Projected>, maxRenderDepth: real, helpers: Helpers): (c: VertexCounts)
    ensures c.visible + c.outside <= |points|
  {
    if |points| == 0 then VertexCounts(0, 0)
    else
      var n := |points| - 1;
      Tally(OcclusionStats(points[..n], maxRenderDepth, helpers), Classify(points[n], maxRenderDepth, helpers))
  }

  /** The per-point verdicts in point order: a description of the loop that
      does not count, against which the counters are checked. */
  function Verdicts(points: seq<Projected>, maxRenderDepth: real, helpers: Helpers): seq<Verdict> {
    if |points| == 0 then []
    else
      var n := |points| - 1;
      Verdicts(points[..n], maxRenderDepth, helpers) + [Classify(points[n], maxRenderDepth, helpers)]
  }

  /** There is one verdict per point, and the verdict at position `i` is the
      decision for point `i`. */
  lemma {:induction false} VerdictsAt(points: seq<Projected>, maxRenderDepth: real, helpers: Helpers)
    ensures |Verdicts(points, maxRenderDepth, helpers)| == |points|
    ensures forall i :: 0 <= i < |points| ==> Verdicts(points, maxRenderDepth, helpers)[i] == Classify(points[i], maxRenderDepth, helpers)
  {
    if |points| > 0 {
      var n := |points| - 1;
      VerdictsAt(points[..n], maxRenderDepth, helpers);
      assert forall i :: 0 <= i < n ==> points[..n][i] == points[i];
    }
  }

  /** The markers the loop draws when asked to: one per in-view point, in
      point order, coloured by whether the point is occluded. */
  function VertexMarkers(points: seq<Projected>, maxRenderDepth: real, helpers: Helpers): seq<Marker> {
    if |points| == 0 then []
    else
      var n := |points| - 1;
      VertexMarkers(points[..n], maxRenderDepth, helpers) + MarkerOf(points[n], maxRenderDepth, helpers)
  }

  /** The marker drawn for one point: none for a point out of view. */
  function MarkerOf(p: Projected, maxRenderDepth: real, helpers: Helpers): seq<Marker> {
    if InView(p, maxRenderDepth, helpers) then
      var color := if helpers.pointIsOccluded(p.y, p.x, p.depth) then OccludedVertexColor else VisibleVertexColor;
      [Marker(p.y, p.x, VertexMarkerSize, color)]
    else
      []
  }

  /** The loop of `calculate_occlusion_stats`. The counts it returns are those
      of `OcclusionStats` whatever `drawVertices` says; `drawVertices` only
      decides whether the markers are drawn. The image itself is not modelled:
      `drawn` lists the `draw_rect` calls in the order they are made. */
  method CalculateOcclusionStats(bboxPoints: seq<Projected>, maxRenderDepth: real, helpers: Helpers, drawVertices: bool := true)
    returns (numVisibleVertices: nat, numVerticesOutsideCamera: nat, drawn: seq<Marker>)
    ensures VertexCounts(numVisibleVertices, numVerticesOutsideCamera) == OcclusionStats(bboxPoints, maxRenderDepth, helpers)
    ensures drawn == if drawVertices then VertexMarkers(bboxPoints, maxRenderDepth, helpers) else []
  {
    numVisibleVertices := 0;
    numVerticesOutsideCamera := 0;
    drawn := [];
    for i := 0 to |bboxPoints|
      invariant VertexCounts(numVisibleVertices, numVerticesOutsideCamera) == OcclusionStats(bboxPoints[..i], maxRenderDepth, helpers)
      invariant drawVertices ==> drawn == VertexMarkers(bboxPoints[..i], maxRenderDepth, helpers)
      invariant !drawVertices ==> drawn == []
    {
      StatsStep(bboxPoints, i, maxRenderDepth, helpers);
      ghost var verdict := Classify(bboxPoints[i], maxRenderDepth, helpers);
      var x2d := bboxPoints[i].x;
      var y2d := bboxPoints[i].y;
      var pointDepth := bboxPoints[i].depth;
      if maxRenderDepth > pointDepth > 0.0 && helpers.pointInCanvas(y2d, x2d) {
        var isOccluded := helpers.pointIsOccluded(y2d, x2d, pointDepth);
        var vertexColor;
        if isOccluded {
          assert verdict == Occluded;
          vertexColor := OccludedVertexColor;
        } else {
          assert verdict == Visible;
          numVisibleVertices := numVisibleVertices + 1;
          vertexColor := VisibleVertexColor;
        }
        assert MarkerOf(bboxPoints[i], maxRenderDepth, helpers) == [Marker(y2d, x2d, VertexMarkerSize, vertexColor)];
        if drawVertices {
          drawn := drawn + [Marker(y2d, x2d, VertexMarkerSize, vertexColor)];
        }
      } else {
        assert verdict == Outside && MarkerOf(bboxPoints[i], maxRenderDepth, helpers) == [];
        numVerticesOutsideCamera := numVerticesOutsideCamera + 1;
      }
    }
    assert bboxPoints[..|bboxPoints|] == bboxPoints;
  }

  /** One more iteration of the loop: the counts and markers of a prefix one
      point longer, in terms of those of the shorter prefix. */
  lemma StatsStep(points: seq<Projected>, i: nat, maxRenderDepth: real, helpers: Helpers)
    requires i < |points|
    ensures OcclusionStats(points[..i + 1], maxRenderDepth, helpers)
         == Tally(OcclusionStats(points[..i], maxRenderDepth, helpers), Classify(points[i], maxRenderDepth, helpers))
    ensures VertexMarkers(points[..i + 1], maxRenderDepth, helpers)
         == VertexMarkers(points[..i], maxRenderDepth, helpers) + MarkerOf(points[i], maxRenderDepth, helpers)
  {
    assert points[..i + 1][..i] == points[..i];
  }

  /** One marker is drawn for every point not counted as outside. */
  lemma {:induction false} MarkersCoverInViewPoints(points: seq<Projected>, maxRenderDepth: real, helpers: Helpers)
    ensures |VertexMarkers(points, maxRenderDepth, helpers)| + OcclusionStats(points, maxRenderDepth, helpers).outside == |points|
  {
    if |points| > 0 {
      var n := |points| - 1;
      MarkersCoverInViewPoints(points[..n], maxRenderDepth, helpers);
    }
  }

  /** Every marker has the marker size and one of the two vertex colours. */
  lemma {:induction false} MarkersUseVertexColors(points: seq<Projected>, maxRenderDepth: real, helpers: Helpers)
    ensures forall k :: 0 <= k < |VertexMarkers(points, maxRenderDepth, helpers)| ==>
      VertexMarkers(points, maxRenderDepth, helpers)[k].size == VertexMarkerSize
      && (VertexMarkers(points, maxRenderDepth, helpers)[k].color == OccludedVertexColor
          || VertexMarkers(points, maxRenderDepth, helpers)[k].color == VisibleVertexColor)
  {
    if |points| > 0 {
      var n := |points| - 1;
      MarkersUseVertexColors(points[..n], maxRenderDepth, helpers);
      var before := VertexMarkers(points[..n], maxRenderDepth, helpers);
      var last := MarkerOf(points[n], maxRenderDepth, helpers);
      assert VertexMarkers(points, maxRenderDepth, helpers) == before + last;
      assert forall k :: 0 <= k < |last| ==>
        (last[k].size == VertexMarkerSize && (last[k].color == OccludedVertexColor || last[k].color == VisibleVertexColor));
    }
  }

  /** The counters a sequence of verdicts adds up to. */
  function CountVerdicts(vs: seq<Verdict>): VertexCounts {
    if |vs| == 0 then VertexCounts(0, 0) else Tally(CountVerdicts(vs[..|vs| - 1]), vs[|vs| - 1])
  }

  /** Counting verdicts one by one gives the multiplicity of `Visible` and of
      `Outside`, and with the `Occluded` ones every verdict is accounted for. */
  lemma {:induction false} CountVerdictsMultiset(vs: seq<Verdict>)
    ensures CountVerdicts(vs).visible == multiset(vs)[Visible]
    ensures CountVerdicts(vs).outside == multiset(vs)[Outside]
    ensures CountVerdicts(vs).visible + CountVerdicts(vs).outside + multiset(vs)[Occluded] == |vs|
  {
    if |vs| > 0 {
      var n := |vs| - 1;
      CountVerdictsMultiset(vs[..n]);
      assert vs == vs[..n] + [vs[n]];
      assert multiset(vs) == multiset(vs[..n]) + multiset{vs[n]};
    }
  }

  /** The loop's counters are the counts of its verdicts. */
  lemma {:induction false} StatsAreVerdictCounts(points: seq<Projected>, maxRenderDepth: real, helpers: Helpers)
    ensures OcclusionStats(points, maxRenderDepth, helpers) == CountVerdicts(Verdicts(points, maxRenderDepth, helpers))
  {
    if |points| > 0 {
      var n := |points| - 1;
      StatsAreVerdictCounts(points[..n], maxRenderDepth, helpers);
      var vs := Verdicts(points, maxRenderDepth, helpers);
      assert vs[..|vs| - 1] == Verdicts(points[..n], maxRenderDepth, helpers);
    }
  }

  /** The counters are the number of visible and of outside verdicts, and
      together with the occluded verdicts they account for every point. */
  lemma {:induction false} StatsCountVerdicts(points: seq<Projected>, maxRenderDepth: real, helpers: Helpers)
    ensures OcclusionStats(points, maxRenderDepth, helpers).visible == multiset(Verdicts(points, maxRenderDepth, helpers))[Visible]
    ensures OcclusionStats(points, maxRenderDepth, helpers).outside == multiset(Verdicts(points, maxRenderDepth, helpers))[Outside]
    ensures OcclusionStats(points, maxRenderDepth, helpers).visible + OcclusionStats(points, maxRenderDepth, helpers).outside
            + multiset(Verdicts(points, maxRenderDepth, helpers))[Occluded] == |points|
  {
    StatsAreVerdictCounts(points, maxRenderDepth, helpers);
    VerdictsAt(points, maxRenderDepth, helpers);
    CountVerdictsMultiset(Verdicts(points, maxRenderDepth, helpers));
  }

  /** The counters add up over the concatenation of two point sequences. */
  lemma {:induction false} StatsConcat(a: seq<Projected>, b: seq<Projected>, maxRenderDepth: real, helpers: Helpers)
    ensures OcclusionStats(a + b, maxRenderDepth, helpers)
         == OcclusionStats(a, maxRenderDepth, helpers).Plus(OcclusionStats(b, maxRenderDepth, helpers))
    decreases |b|
  {
    if |b| == 0 {
      assert a + b == a;
    } else {
      var n := |b| - 1;
      assert (a + b)[..|a + b| - 1] == a + b[..n];
      StatsConcat(a, b[..n], maxRenderDepth, helpers);
    }
  }

  /** The counters do not depend on the order of the points: any rearrangement
      of the same points gives the same counts. */
  lemma {:induction false} StatsPermutation(a: seq<Projected>, b: seq<Projected>, maxRenderDepth: real, helpers: Helpers)
    requires multiset(a) == multiset(b)
    ensures OcclusionStats(a, maxRenderDepth, helpers) == OcclusionStats(b, maxRenderDepth, helpers)
    decreases |a|
  {
    if |a| == 0 {
      assert |b| == |multiset(b)| == 0;
    } else {
      var n := |a| - 1;
      var p := a[n];
      assert p in multiset(b) by {
        assert a == a[..n] + [p];
      }
      var j :| 0 <= j < |b| && b[j] == p;
      var rest := b[..j] + b[j + 1..];
      assert multiset(a[..n]) == multiset(rest) by {
        MultisetRemove(a, n);
        MultisetRemove(b, j);
        assert a[..n] + a[n + 1..] == a[..n];
      }
      StatsPermutation(a[..n], rest, maxRenderDepth, helpers);
      StatsRemoveAt(a, n, maxRenderDepth, helpers);
      assert a[..n] + a[n + 1..] == a[..n];
      StatsRemoveAt(b, j, maxRenderDepth, helpers);
    }
  }

  /** Taking one point out of a sequence takes its own contribution out of the
      counters, wherever the point stands. */
  lemma StatsRemoveAt(s: seq<Projected>, j: nat, maxRenderDepth: real, helpers: Helpers)
    requires j < |s|
    ensures OcclusionStats(s, maxRenderDepth, helpers)
         == Tally(OcclusionStats(s[..j] + s[j + 1..], maxRenderDepth, helpers), Classify(s[j], maxRenderDepth, helpers))
  {
    SplitAt(s, j);
    assert [s[j]][..0] == [];
    StatsConcat(s[..j] + [s[j]], s[j + 1..], maxRenderDepth, helpers);
    StatsConcat(s[..j], [s[j]], maxRenderDepth, helpers);
    StatsConcat(s[..j], s[j + 1..], maxRenderDepth, helpers);
  }

  /** A sequence is its part before `j`, its element at `j` and its part after. */
  lemma SplitAt<T>(s: seq<T>, j: nat)
    requires j < |s|
    ensures s == s[..j] + [s[j]] + s[j + 1..]
  {
  }

  /** Deleting position `j` of `s` deletes one occurrence of `s[j]`. */
  lemma MultisetRemove<T>(s: seq<T>, j: nat)
    requires j < |s|
    ensures multiset(s[..j] + s[j + 1..]) == multiset(s) - multiset{s[j]}
  {
    SplitAt(s, j);
  }

  /** `h1` and `h2` agree on `p` wherever the loop consults them: the canvas
      test for a point in range, the occlusion test for a point in view. */
  predicate AgreeWhereConsulted(p: Projected, maxRenderDepth: real, h1: Helpers, h2: Helpers) {
    (InRenderRange(p.depth, maxRenderDepth) ==> h1.pointInCanvas(p.y, p.x) == h2.pointInCanvas(p.y, p.x))
    && (InView(p, maxRenderDepth, h1) ==> h1.pointIsOccluded(p.y, p.x, p.depth) == h2.pointIsOccluded(p.y, p.x, p.depth))
  }

  /** The canvas test is never consulted for a point outside the render range,
      and the occlusion test never for a point out of view: helpers that agree
      where they are consulted give the same counts. */
  lemma {:induction false} StatsIgnoresUnconsultedHelpers(points: seq<Projected>, maxRenderDepth: real, h1: Helpers, h2: Helpers)
    requires forall p | p in points :: AgreeWhereConsulted(p, maxRenderDepth, h1, h2)
    ensures OcclusionStats(points, maxRenderDepth, h1) == OcclusionStats(points, maxRenderDepth, h2)
  {
    if |points| > 0 {
      var n := |points| - 1;
      assert forall p | p in points[..n] :: p in points;
      StatsIgnoresUnconsultedHelpers(points[..n], maxRenderDepth, h1, h2);
      assert AgreeWhereConsulted(points[n], maxRenderDepth, h1, h2);
    }
  }

  /** Points behind the camera or past the render depth are all counted as
      outside, whatever their pixel position; so a box entirely behind the
      camera scores no visible vertex and every vertex outside. */
  lemma {:induction false} StatsOutOfRange(points: seq<Projected>, maxRenderDepth: real, helpers: Helpers)
    requires forall i :: 0 <= i < |points| ==> points[i].depth <= 0.0 || points[i].depth >= maxRenderDepth
    ensures OcclusionStats(points, maxRenderDepth, helpers) == VertexCounts(0, |points|)
  {
    if |points| > 0 {
      var n := |points| - 1;
      assert forall i :: 0 <= i < n ==> points[..n][i] == points[i];
      StatsOutOfRange(points[..n], maxRenderDepth, helpers);
    }
  }

  /** Points that are all in range, on the canvas and unoccluded are all
      counted as visible. */
  lemma {:induction false} StatsAllVisible(points: seq<Projected>, maxRenderDepth: real, helpers: Helpers)
    requires forall i :: 0 <= i < |points| ==>
               InView(points[i], maxRenderDepth, helpers) && !helpers.pointIsOccluded(points[i].y, points[i].x, points[i].depth)
    ensures OcclusionStats(points, maxRenderDepth, helpers) == VertexCounts(|points|, 0)
  {
    if |points| > 0 {
      var n := |points| - 1;
      assert forall i :: 0 <= i < n ==> points[..n][i] == points[i];
      StatsAllVisible(points[..n], maxRenderDepth, helpers);
    }
  }
}
