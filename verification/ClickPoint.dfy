/** The point at which an element is clicked: from its content quads to whole CSS pixels of the viewport. */
module ClickPoint {
  import opened Numbers
  import opened Options
  import opened Clipping
  import opened Convexity

  /** A number of a quad: finite, or not (or no number at all). */
  datatype Num = Fin(value: real) | NonFinite
  datatype Quad = NoArray | Quad(nums: seq<Num>)

  predicate Usable(q: Quad) { q.Quad? && |q.nums| == 8 && forall i :: 0 <= i < 8 ==> q.nums[i].Fin? }

  function Corners(q: Quad): seq<Point>
    requires Usable(q)
  {
    seq(4, i requires 0 <= i < 4 => Point(q.nums[2 * i].value, q.nums[2 * i + 1].value))
  }

  /** The four stages, in order. */
  function Stages(w: real, h: real): seq<Side> {
    [Side(true, 0.0, true), Side(true, w, false), Side(false, 0.0, true), Side(false, h, false)]
  }

  function ClipFirst(stages: seq<Side>, n: nat, poly: seq<Point>): seq<Point>
    requires n <= |stages|
  {
    if n == 0 then poly else Clip(stages[n - 1], ClipFirst(stages, n - 1, poly))
  }

  /** The visible part of a quad. */
  function Visible(q: Quad, w: real, h: real): seq<Point>
    requires Usable(q)
  {
    ClipFirst(Stages(w, h), 4, Corners(q))
  }

  function Area(poly: seq<Point>): real { Abs(Shoelace(poly)) / 2.0 }

  function SumX(poly: seq<Point>, i: nat): real
    requires i <= |poly|
  {
    if i == 0 then 0.0 else SumX(poly, i - 1) + poly[i - 1].x
  }

  function SumY(poly: seq<Point>, i: nat): real
    requires i <= |poly|
  {
    if i == 0 then 0.0 else SumY(poly, i - 1) + poly[i - 1].y
  }

  function Mean(poly: seq<Point>): Point
    requires poly != []
  {
    Point(SumX(poly, |poly|) / |poly| as real, SumY(poly, |poly|) / |poly| as real)
  }

  /** A quad that has a part of positive area in the viewport. */
  predicate Shows(q: Quad, w: real, h: real) { Usable(q) && Area(Visible(q, w, h)) > 0.0 }

  /** A polygon with an area has at least three vertices: the length test rejects nothing else. */
  lemma AreaNeedsThree(poly: seq<Point>)
    ensures Area(poly) > 0.0 ==> |poly| >= 3
  {
    if |poly| == 1 {
      assert ShoelaceUpTo(poly, 1) == Cross(poly[0], poly[0]);
    } else if |poly| == 2 {
      assert ShoelaceUpTo(poly, 2) == ShoelaceUpTo(poly, 1) + Cross(poly[1], poly[0]);
      assert ShoelaceUpTo(poly, 1) == Cross(poly[0], poly[1]);
    }
  }

  // ----------------------------------------------------------------------------- the mean

  lemma {:induction false} SumsContained(poly: seq<Point>, h: HalfPlane, i: nat)
    requires ContainsAll(h, poly) && i <= |poly|
    ensures h.a * SumX(poly, i) + h.b * SumY(poly, i) <= h.c * i as real
  {
    if i != 0 {
      SumsContained(poly, h, i - 1);
      assert Contains(h, poly[i - 1]);
      var x, y, p := SumX(poly, i - 1), SumY(poly, i - 1), poly[i - 1];
      assert h.a * (x + p.x) == h.a * x + h.a * p.x;
      assert h.b * (y + p.y) == h.b * y + h.b * p.y;
      assert h.c * i as real == h.c * (i - 1) as real + h.c;
    }
  }

  lemma Cancel(v: real, c: real, n: real)
    requires n > 0.0 && v * n <= c * n
    ensures v <= c
  {
  }

  /** The mean of a polygon's vertices is in every half-plane that contains them. */
  lemma MeanContained(poly: seq<Point>, h: HalfPlane)
    requires poly != [] && ContainsAll(h, poly)
    ensures Contains(h, Mean(poly))
  {
    SumsContained(poly, h, |poly|);
    var n, x, y := |poly| as real, SumX(poly, |poly|), SumY(poly, |poly|);
    Divided(x, n);
    Divided(y, n);
    var u, v := h.a * x + h.b * y, h.a * (x / n) + h.b * (y / n);
    assert h.a * x == h.a * (x / n) * n;
    assert h.b * y == h.b * (y / n) * n;
    assert v * n == u;
    Cancel(v, h.c, n);
  }

  lemma {:induction false} StagesContained(stages: seq<Side>, n: nat, poly: seq<Point>, h: HalfPlane)
    requires n <= |stages| && ContainsAll(h, poly)
    ensures ContainsAll(h, ClipFirst(stages, n, poly))
  {
    if n != 0 {
      StagesContained(stages, n - 1, poly, h);
      PartContained(stages[n - 1], true, ClipFirst(stages, n - 1, poly), |ClipFirst(stages, n - 1, poly)|, h);
    }
  }

  /** A stage's side of its line, as a half-plane. */
  function Plane(s: Side): HalfPlane {
    var d := if s.greater then -1.0 else 1.0;
    if s.onX then HalfPlane(d, 0.0, d * s.bound) else HalfPlane(0.0, d, d * s.bound)
  }

  lemma PlaneIsSide(s: Side, p: Point)
    ensures Contains(Plane(s), p) <==> Inside(s, p)
  {
  }

  lemma SideContained(s: Side, poly: seq<Point>)
    requires AllInside(s, poly)
    ensures ContainsAll(Plane(s), poly)
  {
    forall i | 0 <= i < |poly|
      ensures Contains(Plane(s), poly[i])
    {
      PlaneIsSide(s, poly[i]);
    }
  }

  /** After n stages every vertex is on the kept side of each of them. */
  lemma {:induction false} StagesInside(stages: seq<Side>, n: nat, k: nat, poly: seq<Point>)
    requires k < n <= |stages|
    ensures ContainsAll(Plane(stages[k]), ClipFirst(stages, n, poly))
  {
    var before := ClipFirst(stages, n - 1, poly);
    if k == n - 1 {
      ClipInside(stages[k], before, |before|);
      SideContained(stages[k], Clip(stages[k], before));
    } else {
      StagesInside(stages, n - 1, k, poly);
      PartContained(stages[n - 1], true, before, |before|, Plane(stages[k]));
    }
  }

  /** The mean of the visible part is in the viewport, and wherever all the quad's corners are. */
  lemma MeanVisible(q: Quad, w: real, h: real)
    requires Usable(q) && Visible(q, w, h) != []
    ensures var m := Mean(Visible(q, w, h)); 0.0 <= m.x <= w && 0.0 <= m.y <= h
    ensures forall p :: ContainsAll(p, Corners(q)) ==> Contains(p, Mean(Visible(q, w, h)))
  {
    var stages, poly := Stages(w, h), Visible(q, w, h);
    forall k | 0 <= k < 4
      ensures Inside(stages[k], Mean(poly))
    {
      StagesInside(stages, 4, k, Corners(q));
      MeanContained(poly, Plane(stages[k]));
      PlaneIsSide(stages[k], Mean(poly));
    }
    assert Inside(stages[0], Mean(poly)) && Inside(stages[1], Mean(poly)) && Inside(stages[2], Mean(poly))
           && Inside(stages[3], Mean(poly));
    forall p | ContainsAll(p, Corners(q))
      ensures Contains(p, Mean(poly))
    {
      StagesContained(stages, 4, Corners(q), p);
      MeanContained(poly, p);
    }
  }

  // -------------------------------------------------------------------- quads as a whole

  lemma {:induction false} StagesConvex(stages: seq<Side>, n: nat, poly: seq<Point>, ccw: bool)
    requires n <= |stages| && Convex(poly, ccw)
    ensures Convex(ClipFirst(stages, n, poly), ccw)
  {
    if n != 0 {
      StagesConvex(stages, n - 1, poly, ccw);
      PartsConvex(stages[n - 1], true, ClipFirst(stages, n - 1, poly), ccw);
    }
  }

  lemma StageShrinks(stages: seq<Side>, n: nat, poly: seq<Point>, ccw: bool)
    requires n < |stages| && Convex(poly, ccw)
    ensures Area(ClipFirst(stages, n + 1, poly)) <= Area(ClipFirst(stages, n, poly))
  {
    StagesConvex(stages, n, poly, ccw);
    ClippingShrinks(stages[n], ClipFirst(stages, n, poly), ccw);
  }

  lemma {:induction false} StagesShrink(stages: seq<Side>, n: nat, poly: seq<Point>, ccw: bool)
    requires n <= |stages| && Convex(poly, ccw)
    ensures Area(ClipFirst(stages, n, poly)) <= Area(poly)
  {
    if n != 0 {
      StagesShrink(stages, n - 1, poly, ccw);
      StageShrinks(stages, n - 1, poly, ccw);
    }
  }

  /** The visible part of a convex quad is convex and no larger than the quad. */
  lemma VisibleShrinks(q: Quad, w: real, h: real, ccw: bool)
    requires Usable(q) && Convex(Corners(q), ccw)
    ensures Convex(Visible(q, w, h), ccw) && Area(Visible(q, w, h)) <= Area(Corners(q))
  {
    StagesConvex(Stages(w, h), 4, Corners(q), ccw);
    StagesShrink(Stages(w, h), 4, Corners(q), ccw);
  }

  lemma {:induction false} StagesUnchanged(stages: seq<Side>, n: nat, poly: seq<Point>)
    requires n <= |stages| && forall k :: 0 <= k < |stages| ==> AllInside(stages[k], poly)
    ensures ClipFirst(stages, n, poly) == poly
  {
    if n != 0 {
      StagesUnchanged(stages, n - 1, poly);
      InsideUnchanged(stages[n - 1], poly, |poly|);
      assert poly[..|poly|] == poly;
    }
  }

  /** A quad wholly inside the viewport is its own visible part. */
  lemma WholeQuadVisible(q: Quad, w: real, h: real)
    requires Usable(q)
    requires forall i :: 0 <= i < 4 ==> 0.0 <= Corners(q)[i].x <= w && 0.0 <= Corners(q)[i].y <= h
    ensures Visible(q, w, h) == Corners(q)
  {
    StagesUnchanged(Stages(w, h), 4, Corners(q));
  }

  // --------------------------------------------------------------------------- the algorithm

  lemma NextVertex(poly: seq<Point>, i: nat)
    requires i < |poly|
    ensures poly[(i + 1) % |poly|] == Vertex(poly, i + 1)
  {
    if i + 1 < |poly| { assert (i + 1) % |poly| == i + 1; }
  }

  lemma EdgeAppended(s: Side, before: seq<Point>, a: Point, b: Point)
    ensures var kept := if Inside(s, a) then before + [a] else before;
            before + Edge(s, true, a, b) == if Inside(s, a) != Inside(s, b) then kept + [Crossing(s, a, b)] else kept
  {
  }

  /** Where an edge that crosses the line meets it. */
  method Meet(s: Side, a: Point, b: Point) returns (p: Point)
    requires Inside(s, a) != Inside(s, b)
    ensures p == Crossing(s, a, b) && OnLine(s, p)
  {
    var t := (s.bound - Coord(s, a)) / (Coord(s, b) - Coord(s, a));
    p := Point(a.x + t * (b.x - a.x), a.y + t * (b.y - a.y));
    CrossingOnLine(s, a, b);
  }

  /** One stage, edge by edge. */
  method ClipStage(s: Side, poly: seq<Point>) returns (next: seq<Point>)
    ensures next == Clip(s, poly)
  {
    next := [];
    for i := 0 to |poly|
      invariant next == PartUpTo(s, true, poly, i)
    {
      NextVertex(poly, i);
      var a, b := poly[i], poly[(i + 1) % |poly|];
      var ai, bi := Inside(s, a), Inside(s, b);
      EdgeAppended(s, next, a, b);
      if ai { next := next + [a]; }
      if ai != bi {
        var p := Meet(s, a, b);
        next := next + [p];
      }
    }
  }

  /** The area test's sum and the mean's sums, in one pass each. */
  method Measure(poly: seq<Point>) returns (twice: real, sum: Point)
    ensures twice == Shoelace(poly) && sum == Point(SumX(poly, |poly|), SumY(poly, |poly|))
  {
    twice, sum := 0.0, Point(0.0, 0.0);
    for i := 0 to |poly|
      invariant twice == ShoelaceUpTo(poly, i) && sum == Point(SumX(poly, i), SumY(poly, i))
    {
      NextVertex(poly, i);
      var p, next := poly[i], poly[(i + 1) % |poly|];
      twice := twice + (p.x * next.y - p.y * next.x);
      sum := Point(sum.x + p.x, sum.y + p.y);
    }
  }

  /** visiblePoint(): the mean of the first quad's visible part that has an area, if any has. */
  method VisiblePoint(quads: seq<Quad>, w: real, h: real) returns (point: Option<Point>)
    ensures point.None? <==> forall i :: 0 <= i < |quads| ==> !Shows(quads[i], w, h)
    ensures point.Some? ==>
              exists i :: 0 <= i < |quads| && Shows(quads[i], w, h) && Visible(quads[i], w, h) != []
                          && (forall j :: 0 <= j < i ==> !Shows(quads[j], w, h))
                          && point.value == Mean(Visible(quads[i], w, h))
    ensures point.Some? ==> 0.0 <= point.value.x <= w && 0.0 <= point.value.y <= h
  {
    for i := 0 to |quads|
      invariant forall j :: 0 <= j < i ==> !Shows(quads[j], w, h)
    {
      var quad := quads[i];
      if !Usable(quad) { continue; }
      var stages, polygon := Stages(w, h), Corners(quad);
      for k := 0 to 4
        invariant polygon == ClipFirst(stages, k, Corners(quad))
      {
        polygon := ClipStage(stages[k], polygon);
      }
      var twice, sum := Measure(polygon);
      AreaNeedsThree(polygon);
      if |polygon| >= 3 && Abs(twice) / 2.0 > 0.0 {
        MeanVisible(quad, w, h);
        return Some(Point(sum.x / |polygon| as real, sum.y / |polygon| as real));
      }
    }
    return None;
  }

  // ---------------------------------------------------------------------- to whole pixels

  function Round(x: real): int { (x + 0.5).Floor }

  function Ceil(x: real): int { -((-x).Floor) }

  /** The pixel of a coordinate: rounded, and clamped into the viewport's pixels. */
  function Pixel(x: real, width: real): (p: int)
    requires 0.0 <= x <= width && width > 0.0
    ensures 0 <= p && p as real < width
    ensures x - 1.0 <= p as real <= x + 0.5
    ensures x <= (Ceil(width) - 1) as real ==> x - 0.5 < p as real
  {
    Max(0, Min(Ceil(width) - 1, Round(x)))
  }

  datatype Viewport = Viewport(width: real, height: real)
  datatype Target = Pixels(x: int, y: int) | ViewportUnavailable | NodeNotVisible

  /** The geometry of clickReference: a pixel of the viewport, or the reason why there is none. */
  method ClickTarget(viewport: Option<Viewport>, quads: seq<Quad>) returns (target: Target)
    ensures target.ViewportUnavailable? <==>
              viewport.None? || viewport.value.width <= 0.0 || viewport.value.height <= 0.0
    ensures target.NodeNotVisible? <==>
              viewport.Some? && viewport.value.width > 0.0 && viewport.value.height > 0.0
              && forall i :: 0 <= i < |quads| ==> !Shows(quads[i], viewport.value.width, viewport.value.height)
    ensures target.Pixels? ==>
              && viewport.Some? && 0 <= target.x && 0 <= target.y
              && target.x as real < viewport.value.width && target.y as real < viewport.value.height
    ensures target.Pixels? ==>
              exists i :: 0 <= i < |quads| && Shows(quads[i], viewport.value.width, viewport.value.height)
                          && NearMean(quads[i], viewport.value, target.x, target.y)
                          && forall j :: 0 <= j < i ==> !Shows(quads[j], viewport.value.width, viewport.value.height)
  {
    if viewport.None? || !(viewport.value.width > 0.0 && viewport.value.height > 0.0) { return ViewportUnavailable; }
    var visible := VisiblePoint(quads, viewport.value.width, viewport.value.height);
    if visible.None? { return NodeNotVisible; }
    return Pixels(Pixel(visible.value.x, viewport.value.width), Pixel(visible.value.y, viewport.value.height));
  }

  /** The pixel is within one CSS pixel of the mean of the quad's visible part. */
  predicate NearMean(q: Quad, v: Viewport, x: int, y: int)
    requires Usable(q)
  {
    var poly := Visible(q, v.width, v.height);
    && poly != []
    && var m := Mean(poly); m.x - 1.0 <= x as real <= m.x + 0.5 && m.y - 1.0 <= y as real <= m.y + 0.5
  }
}
