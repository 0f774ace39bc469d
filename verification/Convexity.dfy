/** Clipping a convex polygon: both parts are convex, so clipping never increases the area. */
module Convexity {
  import opened Clipping

  function Orient(a: Point, b: Point, z: Point): real { (b.x - a.x) * (z.y - a.y) - (b.y - a.y) * (z.x - a.x) }

  /** The half-plane on the left of the edge from a to b, or on its right when the polygon runs clockwise. */
  function EdgePlane(ccw: bool, a: Point, b: Point): HalfPlane {
    var dx, dy := b.x - a.x, b.y - a.y;
    if ccw then HalfPlane(dy, -dx, dy * a.x - dx * a.y) else HalfPlane(-dy, dx, dx * a.y - dy * a.x)
  }

  /** The half-plane of the polygon's edge from vertex i. */
  function EdgeOf(poly: seq<Point>, ccw: bool, i: nat): HalfPlane
    requires i < |poly|
  {
    EdgePlane(ccw, poly[i], Vertex(poly, i + 1))
  }

  lemma EdgePlaneIsOrient(ccw: bool, a: Point, b: Point, z: Point)
    ensures Contains(EdgePlane(ccw, a, b), z) <==> if ccw then Orient(a, b, z) >= 0.0 else Orient(a, b, z) <= 0.0
  {
    var dx, dy := b.x - a.x, b.y - a.y;
    assert Orient(a, b, z) == dx * z.y - dx * a.y - dy * z.x + dy * a.x;
    assert (-dx) * z.y == -(dx * z.y);
    assert (-dy) * z.x == -(dy * z.x);
  }

  /** z lies on the polygon's side of every edge. */
  predicate InHull(poly: seq<Point>, ccw: bool, z: Point) {
    forall i :: 0 <= i < |poly| ==> Contains(EdgeOf(poly, ccw, i), z)
  }

  /** Every vertex lies on the same side of every edge. */
  predicate Convex(poly: seq<Point>, ccw: bool) {
    forall i :: 0 <= i < |poly| ==> ContainsAll(EdgeOf(poly, ccw, i), poly)
  }

  // ---------------------------------------------------------------------- the area's sign

  function Signed(ccw: bool, x: real): real { if ccw then x else -x }

  lemma FanTerm(z: Point, a: Point, b: Point)
    ensures Cross(a, b) + Cross(z, a) - Cross(z, b) == Orient(a, b, z)
  {
  }

  /** The triangle from a point to an edge. */
  function Triangle(poly: seq<Point>, z: Point, i: nat): real
    requires i < |poly|
  {
    Orient(poly[i], Vertex(poly, i + 1), z)
  }

  /** The triangles from a point to the edges. */
  function FanSum(poly: seq<Point>, z: Point, i: nat): real
    requires i <= |poly|
  {
    if i == 0 then 0.0 else FanSum(poly, z, i - 1) + Triangle(poly, z, i - 1)
  }

  /** The triangles from a point to the edges add up to the area. */
  lemma {:induction false} FanIsArea(poly: seq<Point>, z: Point, i: nat)
    requires poly != [] && i <= |poly|
    ensures FanSum(poly, z, i) == ShoelaceUpTo(poly, i) + Cross(z, poly[0]) - Cross(z, Vertex(poly, i))
  {
    if i != 0 {
      FanIsArea(poly, z, i - 1);
      FanTerm(z, poly[i - 1], Vertex(poly, i));
    }
  }

  lemma {:induction false} FanSign(poly: seq<Point>, ccw: bool, z: Point, i: nat)
    requires i <= |poly| && forall k :: 0 <= k < |poly| ==> Signed(ccw, Triangle(poly, z, k)) >= 0.0
    ensures Signed(ccw, FanSum(poly, z, i)) >= 0.0
  {
    if i != 0 { FanSign(poly, ccw, z, i - 1); }
  }

  lemma TriangleSign(poly: seq<Point>, ccw: bool, z: Point, i: nat)
    requires i < |poly| && InHull(poly, ccw, z)
    ensures Signed(ccw, Triangle(poly, z, i)) >= 0.0
  {
    assert Contains(EdgeOf(poly, ccw, i), z);
    EdgePlaneIsOrient(ccw, poly[i], Vertex(poly, i + 1), z);
  }

  lemma ConvexAreaSign(poly: seq<Point>, ccw: bool)
    requires Convex(poly, ccw)
    ensures Signed(ccw, Shoelace(poly)) >= 0.0
  {
    if poly != [] {
      forall k | 0 <= k < |poly|
        ensures Signed(ccw, Triangle(poly, poly[0], k)) >= 0.0
      {
        TriangleSign(poly, ccw, poly[0], k);
      }
      FanSign(poly, ccw, poly[0], |poly|);
      FanIsArea(poly, poly[0], |poly|);
    }
  }

  // --------------------------------------------------------------- edges of a clipped polygon

  /** The kept side of the line, the line included. */
  predicate Closed(s: Side, inner: bool, z: Point) { OnLine(s, z) || Keeps(s, inner, z) }

  lemma OrientAlong(a: Point, b: Point, t: real, z: Point)
    ensures Orient(a, Along(a, b, t), z) == t * Orient(a, b, z)
    ensures Orient(Along(a, b, t), b, z) == (1.0 - t) * Orient(a, b, z)
  {
    var dx, dy, zx, zy := b.x - a.x, b.y - a.y, z.x - a.x, z.y - a.y;
    var m := Along(a, b, t);
    assert m.x - a.x == t * dx && m.y - a.y == t * dy;
    assert Orient(a, m, z) == t * dx * zy - t * dy * zx;
    assert b.x - m.x == dx - t * dx && b.y - m.y == dy - t * dy;
    assert z.x - m.x == zx - t * dx && z.y - m.y == zy - t * dy;
    RestTurn(dx, dy, zx, zy, t);
  }

  lemma RestTurn(dx: real, dy: real, zx: real, zy: real, t: real)
    ensures (dx - t * dx) * (zy - t * dy) - (dy - t * dy) * (zx - t * dx) == (1.0 - t) * (dx * zy - dy * zx)
  {
  }

  lemma Scaled(ccw: bool, t: real, u: real)
    requires t >= 0.0
    ensures (if ccw then u >= 0.0 else u <= 0.0) ==> if ccw then t * u >= 0.0 else t * u <= 0.0
  {
    if ccw { if u >= 0.0 { Product(t, u); } } else if u <= 0.0 { Product(t, -u); }
  }

  /** A piece of an edge has on its side whatever the edge has. */
  lemma PieceContains(ccw: bool, a: Point, b: Point, t: real, z: Point)
    requires 0.0 <= t <= 1.0 && Contains(EdgePlane(ccw, a, b), z)
    ensures Contains(EdgePlane(ccw, a, Along(a, b, t)), z) && Contains(EdgePlane(ccw, Along(a, b, t), b), z)
  {
    EdgePlaneIsOrient(ccw, a, b, z);
    EdgePlaneIsOrient(ccw, a, Along(a, b, t), z);
    EdgePlaneIsOrient(ccw, Along(a, b, t), b, z);
    OrientAlong(a, b, t, z);
    Scaled(ccw, t, Orient(a, b, z));
    Scaled(ccw, 1.0 - t, Orient(a, b, z));
  }

  /** p D and -(D q) for steps p and q of opposite directions. */
  lemma Opposite(p: real, d: real, q: real)
    requires (p < 0.0 && q >= 0.0) || (p > 0.0 && q <= 0.0)
    ensures p * d >= 0.0 ==> d * q <= 0.0
    ensures p * d <= 0.0 ==> d * q >= 0.0
  {
    if p < 0.0 {
      if d > 0.0 { assert p * d < 0.0; Product(d, q); }
      else if d < 0.0 { assert p * d > 0.0; Product(-d, q); assert (-d) * q == -(d * q); }
    } else {
      if d > 0.0 { assert p * d > 0.0; Product(d, -q); assert d * (-q) == -(d * q); }
      else if d < 0.0 { assert p * d < 0.0; Product(-d, -q); assert (-d) * (-q) == d * q; }
    }
  }

  lemma OrientFromLine(s: Side, x: Point, y: Point, z: Point)
    requires OnLine(s, x) && OnLine(s, y)
    ensures Orient(x, y, z) == if s.onX then -((y.y - x.y) * (z.x - s.bound)) else (y.x - x.x) * (z.y - s.bound)
  {
  }

  lemma OrientToLine(s: Side, a: Point, b: Point, t: real, y: Point)
    requires OnLine(s, Along(a, b, t)) && OnLine(s, y)
    ensures var x := Along(a, b, t);
            Orient(a, b, y) == if s.onX then (b.x - a.x) * (y.y - x.y) else -((b.y - a.y) * (y.x - x.x))
  {
    var x := Along(a, b, t);
    var dx, dy := b.x - a.x, b.y - a.y;
    assert Orient(a, b, y) == dx * (y.y - x.y) - dy * (y.x - x.x) + (dx * (x.y - a.y) - dy * (x.x - a.x));
    assert x.y - a.y == t * dy && x.x - a.x == t * dx;
    assert dx * (t * dy) == dy * (t * dx);
  }

  /** Turning at the line: from the edge's turn to the bridge's. */
  lemma BridgeTurn(onX: bool, ccw: bool, p: real, d: real, q: real, edge: real, bridge: real)
    requires (p < 0.0 && q >= 0.0) || (p > 0.0 && q <= 0.0)
    requires edge == (if onX then p * d else -(p * d)) && bridge == if onX then -(d * q) else d * q
    requires if ccw then edge >= 0.0 else edge <= 0.0
    ensures if ccw then bridge >= 0.0 else bridge <= 0.0
  {
    Opposite(p, d, q);
  }

  lemma LeavingAgainstKept(s: Side, inner: bool, a: Point, b: Point, z: Point)
    requires Keeps(s, inner, a) && !Keeps(s, inner, b) && Closed(s, inner, z)
    ensures var p, q := Coord(s, b) - Coord(s, a), Coord(s, z) - s.bound;
            (p < 0.0 && q >= 0.0) || (p > 0.0 && q <= 0.0)
  {
  }

  lemma BridgeOrient(s: Side, ccw: bool, a: Point, b: Point, t: real, y: Point, z: Point)
    requires OnLine(s, Along(a, b, t)) && OnLine(s, y)
    requires var p, q := Coord(s, b) - Coord(s, a), Coord(s, z) - s.bound;
             (p < 0.0 && q >= 0.0) || (p > 0.0 && q <= 0.0)
    requires if ccw then Orient(a, b, y) >= 0.0 else Orient(a, b, y) <= 0.0
    ensures var bridge := Orient(Along(a, b, t), y, z); if ccw then bridge >= 0.0 else bridge <= 0.0
  {
    var x := Along(a, b, t);
    OrientToLine(s, a, b, t, y);
    OrientFromLine(s, x, y, z);
    BridgeTurn(s.onX, ccw, Coord(s, b) - Coord(s, a), if s.onX then y.y - x.y else y.x - x.x, Coord(s, z) - s.bound,
               Orient(a, b, y), Orient(x, y, z));
  }

  /** Where the polygon leaves the kept side, the way along the line to any later point of it turns the right way. */
  lemma BridgeContains(s: Side, inner: bool, ccw: bool, a: Point, b: Point, y: Point, z: Point)
    requires Keeps(s, inner, a) && !Keeps(s, inner, b)
    requires OnLine(s, y) && Contains(EdgePlane(ccw, a, b), y) && Closed(s, inner, z)
    ensures Contains(EdgePlane(ccw, Crossing(s, a, b), y), z)
  {
    CrossingOnLine(s, a, b);
    EdgePlaneIsOrient(ccw, a, b, y);
    LeavingAgainstKept(s, inner, a, b, z);
    BridgeOrient(s, ccw, a, b, Fraction(s, a, b), y, z);
    EdgePlaneIsOrient(ccw, Crossing(s, a, b), y, z);
  }

  // ---------------------------------------------------------------- a part, edge by edge

  /** Every point of zs lies on the right side of the segment from u to v. */
  predicate Supports(zs: seq<Point>, ccw: bool, u: Point, v: Point) { ContainsAll(EdgePlane(ccw, u, v), zs) }

  predicate Bent(zs: seq<Point>, ccw: bool, path: seq<Point>) {
    forall k :: 0 <= k < |path| - 1 ==> Supports(zs, ccw, path[k], path[k + 1])
  }

  predicate ExitFrom(s: Side, zs: seq<Point>, ccw: bool, u: Point) {
    forall k :: 0 <= k < |zs| && OnLine(s, zs[k]) ==> Supports(zs, ccw, u, zs[k])
  }

  predicate Turned(s: Side, inner: bool, ccw: bool, zs: seq<Point>, first: Point, p: Point, path: seq<Point>,
                   moved: bool) {
    if path == [] then (if moved then !Keeps(s, inner, first) && !Keeps(s, inner, p) else p == first)
    else
      && Bent(zs, ccw, path)
      && (if Keeps(s, inner, first) then path[0] == first else OnLine(s, path[0]))
      && (if Keeps(s, inner, p) then Supports(zs, ccw, Last(path), p) else ExitFrom(s, zs, ccw, Last(path)))
  }

  predicate AllClosed(s: Side, inner: bool, zs: seq<Point>) { forall k :: 0 <= k < |zs| ==> Closed(s, inner, zs[k]) }

  lemma PieceSupports(zs: seq<Point>, ccw: bool, a: Point, b: Point, t: real)
    requires 0.0 <= t <= 1.0 && Supports(zs, ccw, a, b)
    ensures Supports(zs, ccw, a, Along(a, b, t)) && Supports(zs, ccw, Along(a, b, t), b)
  {
    forall k | 0 <= k < |zs|
      ensures Contains(EdgePlane(ccw, a, Along(a, b, t)), zs[k]) && Contains(EdgePlane(ccw, Along(a, b, t), b), zs[k])
    {
      PieceContains(ccw, a, b, t, zs[k]);
    }
  }

  lemma BridgeSupports(s: Side, inner: bool, zs: seq<Point>, ccw: bool, a: Point, b: Point)
    requires Keeps(s, inner, a) && !Keeps(s, inner, b) && Supports(zs, ccw, a, b) && AllClosed(s, inner, zs)
    ensures ExitFrom(s, zs, ccw, Crossing(s, a, b))
  {
    forall j, k | 0 <= j < |zs| && OnLine(s, zs[j]) && 0 <= k < |zs|
      ensures Contains(EdgePlane(ccw, Crossing(s, a, b), zs[j]), zs[k])
    {
      BridgeContains(s, inner, ccw, a, b, zs[j], zs[k]);
    }
  }

  lemma BentAppend(zs: seq<Point>, ccw: bool, path: seq<Point>, p: Point)
    requires Bent(zs, ccw, path) && (path != [] ==> Supports(zs, ccw, Last(path), p))
    ensures Bent(zs, ccw, path + [p])
  {
    var longer := path + [p];
    forall k | 0 <= k < |longer| - 1
      ensures Supports(zs, ccw, longer[k], longer[k + 1])
    {
      if k < |path| - 1 { assert Supports(zs, ccw, path[k], path[k + 1]); }
    }
  }

  /** The walk passes one edge. */
  lemma EdgeTurned(s: Side, inner: bool, ccw: bool, zs: seq<Point>, first: Point, p: Point, path: seq<Point>,
                   moved: bool, q: Point)
    requires Turned(s, inner, ccw, zs, first, p, path, moved) && Supports(zs, ccw, p, q) && AllClosed(s, inner, zs)
    requires forall v :: v in Edge(s, inner, p, q) ==> v in zs
    ensures Turned(s, inner, ccw, zs, first, q, path + Edge(s, inner, p, q), true)
  {
    if Inside(s, p) == Inside(s, q) {
      if Keeps(s, inner, p) {
        BentAppend(zs, ccw, path, p);
        assert path + Edge(s, inner, p, q) == path + [p];
      } else {
        assert path + Edge(s, inner, p, q) == path;
      }
    } else {
      var x := Crossing(s, p, q);
      CrossingOnLine(s, p, q);
      FractionBounds(s, p, q);
      PieceSupports(zs, ccw, p, q, Fraction(s, p, q));
      if Keeps(s, inner, p) {
        BentAppend(zs, ccw, path, p);
        BentAppend(zs, ccw, path + [p], x);
        BridgeSupports(s, inner, zs, ccw, p, q);
        assert path + Edge(s, inner, p, q) == path + [p] + [x];
      } else {
        assert Edge(s, inner, p, q) == [x];
        assert x in zs;
        BentAppend(zs, ccw, path, x);
      }
    }
  }

  lemma {:induction false} PartGrows(s: Side, inner: bool, poly: seq<Point>, i: nat, j: nat)
    requires i <= j <= |poly|
    ensures PartUpTo(s, inner, poly, i) <= PartUpTo(s, inner, poly, j)
    decreases j
  {
    if i < j { PartGrows(s, inner, poly, i, j - 1); }
  }

  lemma {:induction false} WalkTurned(s: Side, inner: bool, ccw: bool, poly: seq<Point>, zs: seq<Point>, i: nat)
    requires poly != [] && i <= |poly| && zs == Part(s, inner, poly)
    requires AllClosed(s, inner, zs) && forall j :: 0 <= j < |poly| ==> Supports(zs, ccw, poly[j], Vertex(poly, j + 1))
    ensures Turned(s, inner, ccw, zs, poly[0], Vertex(poly, i), PartUpTo(s, inner, poly, i), i != 0)
  {
    if i != 0 {
      WalkTurned(s, inner, ccw, poly, zs, i - 1);
      PartGrows(s, inner, poly, i, |poly|);
      var before, edge := PartUpTo(s, inner, poly, i - 1), Edge(s, inner, poly[i - 1], Vertex(poly, i));
      forall v | v in edge
        ensures v in zs
      {
        var k :| 0 <= k < |edge| && edge[k] == v;
        assert (before + edge)[|before| + k] == v;
      }
      assert Supports(zs, ccw, poly[i - 1], Vertex(poly, i - 1 + 1));
      EdgeTurned(s, inner, ccw, zs, poly[0], poly[i - 1], before, i != 1, Vertex(poly, i));
    }
  }

  lemma {:induction false} PartClosed(s: Side, inner: bool, poly: seq<Point>, i: nat)
    requires i <= |poly|
    ensures AllClosed(s, inner, PartUpTo(s, inner, poly, i))
  {
    if i != 0 {
      PartClosed(s, inner, poly, i - 1);
      var a, b := poly[i - 1], Vertex(poly, i);
      if Inside(s, a) != Inside(s, b) { CrossingOnLine(s, a, b); }
    }
  }

  /** Both parts of a convex polygon are convex, and run the same way round. */
  lemma PartsConvex(s: Side, inner: bool, poly: seq<Point>, ccw: bool)
    requires Convex(poly, ccw)
    ensures Convex(Part(s, inner, poly), ccw)
  {
    var zs := Part(s, inner, poly);
    if zs != [] {
      PartClosed(s, inner, poly, |poly|);
      forall j | 0 <= j < |poly|
        ensures Supports(zs, ccw, poly[j], Vertex(poly, j + 1))
      {
        PartContained(s, inner, poly, |poly|, EdgeOf(poly, ccw, j));
      }
      WalkTurned(s, inner, ccw, poly, zs, |poly|);
      TurnedIsConvex(s, inner, ccw, zs, poly[0]);
    }
  }

  lemma TurnedIsConvex(s: Side, inner: bool, ccw: bool, zs: seq<Point>, first: Point)
    requires zs != [] && Turned(s, inner, ccw, zs, first, first, zs, true)
    ensures Convex(zs, ccw)
  {
    forall i | 0 <= i < |zs|
      ensures Supports(zs, ccw, zs[i], Vertex(zs, i + 1))
    {
      if i < |zs| - 1 { assert Supports(zs, ccw, zs[i], zs[i + 1]); }
    }
  }

  function Abs(x: real): real { if x < 0.0 then -x else x }

  /** Clipping a convex polygon keeps it convex and never increases its area. */
  lemma ClippingShrinks(s: Side, poly: seq<Point>, ccw: bool)
    requires Convex(poly, ccw)
    ensures Convex(Clip(s, poly), ccw) && Abs(Shoelace(Clip(s, poly))) <= Abs(Shoelace(poly))
  {
    PartsConvex(s, true, poly, ccw);
    PartsConvex(s, false, poly, ccw);
    ConvexAreaSign(Clip(s, poly), ccw);
    ConvexAreaSign(CutOff(s, poly), ccw);
    ClippingSplitsArea(s, poly);
  }
}
