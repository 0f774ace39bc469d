/**
 * Clipping a polygon to one side of an axis-parallel line, and what it does to the signed area. The
 * plane is over the reals.
 */
module Clipping {
  datatype Point = Point(x: real, y: real)

  /** One stage: the points with coordinate >= bound (greater) or <= bound, on one axis. */
  datatype Side = Side(onX: bool, bound: real, greater: bool)

  function Coord(s: Side, p: Point): real { if s.onX then p.x else p.y }

  predicate Inside(s: Side, p: Point) { if s.greater then Coord(s, p) >= s.bound else Coord(s, p) <= s.bound }

  predicate OnLine(s: Side, p: Point) { Coord(s, p) == s.bound }

  function Along(a: Point, b: Point, t: real): Point { Point(a.x + t * (b.x - a.x), a.y + t * (b.y - a.y)) }

  /** How far along the edge it meets the line. The edge crosses it, so nothing is divided by zero. */
  function Fraction(s: Side, a: Point, b: Point): real
    requires Inside(s, a) != Inside(s, b)
  {
    (s.bound - Coord(s, a)) / (Coord(s, b) - Coord(s, a))
  }

  function Crossing(s: Side, a: Point, b: Point): Point
    requires Inside(s, a) != Inside(s, b)
  {
    Along(a, b, Fraction(s, a, b))
  }

  // ----------------------------------------------------------------- the kept and the cut part

  /** Whether a vertex belongs to the kept part (inner) or to the part cut off. */
  predicate Keeps(s: Side, inner: bool, p: Point) { Inside(s, p) == inner }

  /** What the edge from a to b adds to a part: its start, and the point where it crosses the line. */
  function Edge(s: Side, inner: bool, a: Point, b: Point): seq<Point> {
    (if Keeps(s, inner, a) then [a] else []) + (if Inside(s, a) != Inside(s, b) then [Crossing(s, a, b)] else [])
  }

  /** The i-th vertex, counted round the polygon. */
  function Vertex(poly: seq<Point>, i: nat): Point
    requires i <= |poly| && poly != []
  {
    poly[if i == |poly| then 0 else i]
  }

  /** What the first i edges add to a part. */
  function PartUpTo(s: Side, inner: bool, poly: seq<Point>, i: nat): seq<Point>
    requires i <= |poly|
  {
    if i == 0 then [] else PartUpTo(s, inner, poly, i - 1) + Edge(s, inner, poly[i - 1], Vertex(poly, i))
  }

  function Part(s: Side, inner: bool, poly: seq<Point>): seq<Point> { PartUpTo(s, inner, poly, |poly|) }

  /** One stage of the clipping. */
  function Clip(s: Side, poly: seq<Point>): seq<Point> { Part(s, true, poly) }

  function CutOff(s: Side, poly: seq<Point>): seq<Point> { Part(s, false, poly) }

  function Cross(a: Point, b: Point): real { a.x * b.y - a.y * b.x }

  function ShoelaceUpTo(poly: seq<Point>, i: nat): real
    requires i <= |poly|
  {
    if i == 0 then 0.0 else ShoelaceUpTo(poly, i - 1) + Cross(poly[i - 1], Vertex(poly, i))
  }

  /** Twice the signed area. */
  function Shoelace(poly: seq<Point>): real { ShoelaceUpTo(poly, |poly|) }

  // --------------------------------------------------------------------------- arithmetic

  lemma Divided(p: real, q: real)
    requires q != 0.0
    ensures p / q * q == p
  {
  }

  lemma FractionBounds(s: Side, a: Point, b: Point)
    requires Inside(s, a) != Inside(s, b)
    ensures 0.0 <= Fraction(s, a, b) <= 1.0
    ensures Fraction(s, a, b) * (Coord(s, b) - Coord(s, a)) == s.bound - Coord(s, a)
  {
    var p, q := s.bound - Coord(s, a), Coord(s, b) - Coord(s, a);
    Divided(p, q);
    var t := p / q;
    assert t * q == p;
    if t < 0.0 { Signs(t, q); }
    if t > 1.0 { Signs(1.0 - t, q); assert (1.0 - t) * q == q - p; }
  }

  lemma Signs(t: real, q: real)
    requires t < 0.0 && q != 0.0
    ensures q > 0.0 ==> t * q < 0.0
    ensures q < 0.0 ==> t * q > 0.0
  {
  }

  lemma CrossingOnLine(s: Side, a: Point, b: Point)
    requires Inside(s, a) != Inside(s, b)
    ensures OnLine(s, Crossing(s, a, b))
  {
    FractionBounds(s, a, b);
  }

  /** A point of an edge splits the edge's term in two. */
  lemma CrossAlong(a: Point, b: Point, t: real)
    ensures Cross(a, Along(a, b, t)) == t * Cross(a, b)
    ensures Cross(Along(a, b, t), b) == (1.0 - t) * Cross(a, b)
  {
  }

  lemma CrossSplits(a: Point, b: Point, t: real)
    ensures Cross(a, Along(a, b, t)) + Cross(Along(a, b, t), b) == Cross(a, b)
  {
    CrossAlong(a, b, t);
    var c := Cross(a, b);
    assert t * c + (1.0 - t) * c == c;
  }

  /** On the clipping line the term of a segment is a difference of heights along it. */
  function Height(s: Side, p: Point): real { if s.onX then s.bound * p.y else -(s.bound * p.x) }

  lemma CrossOnLine(s: Side, u: Point, v: Point)
    requires OnLine(s, u) && OnLine(s, v)
    ensures Cross(u, v) == Height(s, v) - Height(s, u)
  {
  }

  // -------------------------------------------------------------- the area, edge by edge

  /** What one edge adds to the area of a part, when the part is closed along the line. */
  function Share(s: Side, inner: bool, a: Point, b: Point): real {
    if Inside(s, a) == Inside(s, b) then (if Keeps(s, inner, a) then Cross(a, b) else 0.0)
    else
      var x := Crossing(s, a, b);
      if Keeps(s, inner, a) then Cross(a, x) - Height(s, x) else Height(s, x) + Cross(x, b)
  }

  function Shares(s: Side, inner: bool, poly: seq<Point>, i: nat): real
    requires i <= |poly|
  {
    if i == 0 then 0.0 else Shares(s, inner, poly, i - 1) + Share(s, inner, poly[i - 1], Vertex(poly, i))
  }

  /** The two parts share out each edge exactly. */
  lemma SharesOfEdge(s: Side, a: Point, b: Point)
    ensures Share(s, true, a, b) + Share(s, false, a, b) == Cross(a, b)
  {
    if Inside(s, a) != Inside(s, b) { CrossSplits(a, b, Fraction(s, a, b)); }
  }

  lemma {:induction false} SharesAddUp(s: Side, poly: seq<Point>, i: nat)
    requires i <= |poly|
    ensures Shares(s, true, poly, i) + Shares(s, false, poly, i) == ShoelaceUpTo(poly, i)
  {
    if i != 0 {
      SharesAddUp(s, poly, i - 1);
      SharesOfEdge(s, poly[i - 1], Vertex(poly, i));
    }
  }

  /** The terms of an open chain of points. */
  function Chain(path: seq<Point>): real {
    if |path| < 2 then 0.0 else Chain(path[..|path| - 1]) + Cross(path[|path| - 2], path[|path| - 1])
  }

  function Last(path: seq<Point>): Point
    requires path != []
  {
    path[|path| - 1]
  }

  lemma ChainAppend(path: seq<Point>, p: Point)
    ensures Chain(path + [p]) == Chain(path) + (if path == [] then 0.0 else Cross(Last(path), p))
  {
    assert (path + [p])[..|path|] == path;
  }

  lemma {:induction false} ChainIsShoelace(path: seq<Point>, i: nat)
    requires 0 < i <= |path|
    ensures Chain(path[..i]) == ShoelaceUpTo(path, i - 1)
  {
    if i > 1 {
      ChainIsShoelace(path, i - 1);
      assert path[..i] == path[..i - 1] + [path[i - 1]];
      ChainAppend(path[..i - 1], path[i - 1]);
    }
  }

  lemma ShoelaceClosesChain(path: seq<Point>)
    requires path != []
    ensures Shoelace(path) == Chain(path) + Cross(Last(path), path[0])
  {
    ChainIsShoelace(path, |path|);
    assert path[..|path|] == path;
  }

  /** What the open end of a part still owes, when the walk stands at vertex p. */
  function Owed(s: Side, inner: bool, path: seq<Point>, p: Point): real
    requires path != []
  {
    if Keeps(s, inner, p) then Cross(Last(path), p) else -Height(s, Last(path))
  }

  function Opening(s: Side, inner: bool, first: Point, path: seq<Point>): real
    requires path != []
  {
    if Keeps(s, inner, first) then 0.0 else Height(s, path[0])
  }

  /**
   * The walk round the polygon, having passed some edges and standing at p: the part so far, and the
   * shares so far, agree up to what both ends of the open chain owe.
   */
  predicate Traced(s: Side, inner: bool, first: Point, p: Point, path: seq<Point>, shares: real, moved: bool) {
    if path == [] then
      shares == 0.0 && if moved then !Keeps(s, inner, first) && !Keeps(s, inner, p) else p == first
    else
      && (if Keeps(s, inner, first) then path[0] == first else OnLine(s, path[0]))
      && (!Keeps(s, inner, p) ==> OnLine(s, Last(path)))
      && shares == Chain(path) + Owed(s, inner, path, p) + Opening(s, inner, first, path)
  }

  /** The walk goes on from a kept vertex to another. */
  lemma KeptTraced(s: Side, inner: bool, first: Point, p: Point, path: seq<Point>, shares: real, moved: bool, q: Point)
    requires Traced(s, inner, first, p, path, shares, moved) && Keeps(s, inner, p) && Keeps(s, inner, q)
    ensures Traced(s, inner, first, q, path + [p], shares + Cross(p, q), true)
  {
    ChainAppend(path, p);
  }

  /** The walk leaves the kept side at x. */
  lemma LeavingTraced(s: Side, inner: bool, first: Point, p: Point, path: seq<Point>, shares: real, moved: bool,
                      q: Point, x: Point)
    requires Traced(s, inner, first, p, path, shares, moved) && Keeps(s, inner, p) && !Keeps(s, inner, q)
               && OnLine(s, x)
    ensures Traced(s, inner, first, q, path + [p] + [x], shares + (Cross(p, x) - Height(s, x)), true)
  {
    ChainAppend(path, p);
    ChainAppend(path + [p], x);
  }

  /** The walk enters the kept side at x. */
  lemma EnteringTraced(s: Side, inner: bool, first: Point, p: Point, path: seq<Point>, shares: real, moved: bool,
                       q: Point, x: Point)
    requires Traced(s, inner, first, p, path, shares, moved) && !Keeps(s, inner, p) && Keeps(s, inner, q)
               && OnLine(s, x)
    ensures Traced(s, inner, first, q, path + [x], shares + (Height(s, x) + Cross(x, q)), true)
  {
    ChainAppend(path, x);
    if path != [] { CrossOnLine(s, Last(path), x); }
  }

  /** The walk passes one edge. */
  lemma EdgeTraced(s: Side, inner: bool, first: Point, p: Point, path: seq<Point>, shares: real, moved: bool, q: Point)
    requires Traced(s, inner, first, p, path, shares, moved)
    ensures Traced(s, inner, first, q, path + Edge(s, inner, p, q), shares + Share(s, inner, p, q), true)
  {
    if Inside(s, p) == Inside(s, q) {
      if Keeps(s, inner, p) {
        KeptTraced(s, inner, first, p, path, shares, moved, q);
        assert Edge(s, inner, p, q) == [p];
      } else {
        assert path + Edge(s, inner, p, q) == path;
      }
    } else {
      var x := Crossing(s, p, q);
      CrossingOnLine(s, p, q);
      if Keeps(s, inner, p) {
        LeavingTraced(s, inner, first, p, path, shares, moved, q, x);
        assert path + Edge(s, inner, p, q) == path + [p] + [x];
      } else {
        EnteringTraced(s, inner, first, p, path, shares, moved, q, x);
        assert Edge(s, inner, p, q) == [x];
      }
    }
  }

  lemma {:induction false} WalkTraced(s: Side, inner: bool, poly: seq<Point>, i: nat)
    requires poly != [] && i <= |poly|
    ensures Traced(s, inner, poly[0], Vertex(poly, i), PartUpTo(s, inner, poly, i), Shares(s, inner, poly, i), i != 0)
  {
    if i != 0 {
      WalkTraced(s, inner, poly, i - 1);
      EdgeTraced(s, inner, poly[0], poly[i - 1], PartUpTo(s, inner, poly, i - 1), Shares(s, inner, poly, i - 1),
                 i != 1, Vertex(poly, i));
    }
  }

  /** The area of a part is what the edges share out to it. */
  lemma AreaOfPart(s: Side, inner: bool, poly: seq<Point>)
    ensures Shoelace(Part(s, inner, poly)) == Shares(s, inner, poly, |poly|)
  {
    if poly != [] {
      WalkTraced(s, inner, poly, |poly|);
      var path := Part(s, inner, poly);
      if path != [] {
        ShoelaceClosesChain(path);
        if !Keeps(s, inner, poly[0]) { CrossOnLine(s, Last(path), path[0]); }
      }
    }
  }

  /** Each stage splits the signed area exactly, for every polygon. */
  lemma ClippingSplitsArea(s: Side, poly: seq<Point>)
    ensures Shoelace(Clip(s, poly)) + Shoelace(CutOff(s, poly)) == Shoelace(poly)
  {
    AreaOfPart(s, true, poly);
    AreaOfPart(s, false, poly);
    SharesAddUp(s, poly, |poly|);
  }

  // ------------------------------------------------------------------ where the vertices are

  /** A closed half-plane. */
  datatype HalfPlane = HalfPlane(a: real, b: real, c: real)

  predicate Contains(h: HalfPlane, p: Point) { h.a * p.x + h.b * p.y <= h.c }

  predicate ContainsAll(h: HalfPlane, poly: seq<Point>) { forall i :: 0 <= i < |poly| ==> Contains(h, poly[i]) }

  lemma Between(u: real, v: real, t: real, c: real)
    requires u <= c && v <= c && 0.0 <= t <= 1.0
    ensures u + t * (v - u) <= c
  {
    if v <= u {
      assert t * (v - u) <= 0.0 by { Product(t, u - v); }
    } else {
      assert t * (v - u) <= v - u by { Product(1.0 - t, v - u); }
    }
  }

  lemma Product(x: real, y: real)
    requires x >= 0.0 && y >= 0.0
    ensures x * y >= 0.0
  {
  }

  lemma AlongContained(h: HalfPlane, a: Point, b: Point, t: real)
    requires Contains(h, a) && Contains(h, b) && 0.0 <= t <= 1.0
    ensures Contains(h, Along(a, b, t))
  {
    var u, v := h.a * a.x + h.b * a.y, h.a * b.x + h.b * b.y;
    Between(u, v, t, h.c);
    var p := Along(a, b, t);
    assert h.a * p.x == h.a * a.x + t * (h.a * b.x - h.a * a.x);
    assert h.b * p.y == h.b * a.y + t * (h.b * b.y - h.b * a.y);
    assert t * (v - u) == t * (h.a * b.x - h.a * a.x) + t * (h.b * b.y - h.b * a.y);
  }

  /** A half-plane that contains a polygon contains both its parts. */
  lemma {:induction false} PartContained(s: Side, inner: bool, poly: seq<Point>, i: nat, h: HalfPlane)
    requires ContainsAll(h, poly) && i <= |poly|
    ensures ContainsAll(h, PartUpTo(s, inner, poly, i))
  {
    if i != 0 {
      PartContained(s, inner, poly, i - 1, h);
      var a, b := poly[i - 1], Vertex(poly, i);
      if Inside(s, a) != Inside(s, b) {
        FractionBounds(s, a, b);
        AlongContained(h, a, b, Fraction(s, a, b));
      }
    }
  }

  predicate AllInside(s: Side, poly: seq<Point>) { forall i :: 0 <= i < |poly| ==> Inside(s, poly[i]) }

  /** What a stage keeps lies on its side of the line. */
  lemma {:induction false} ClipInside(s: Side, poly: seq<Point>, i: nat)
    requires i <= |poly|
    ensures AllInside(s, PartUpTo(s, true, poly, i))
  {
    if i != 0 {
      ClipInside(s, poly, i - 1);
      var a, b := poly[i - 1], Vertex(poly, i);
      if Inside(s, a) != Inside(s, b) { CrossingOnLine(s, a, b); }
    }
  }

  /** A polygon on the kept side of the line is returned unchanged. */
  lemma {:induction false} InsideUnchanged(s: Side, poly: seq<Point>, i: nat)
    requires AllInside(s, poly) && i <= |poly|
    ensures PartUpTo(s, true, poly, i) == poly[..i]
  {
    if i != 0 {
      InsideUnchanged(s, poly, i - 1);
      assert Inside(s, Vertex(poly, i));
      assert poly[..i] == poly[..i - 1] + [poly[i - 1]];
    }
  }
}
