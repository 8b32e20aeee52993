/**
 * The board outline: a w-by-h rectangle with four rounded corners, as one
 * closed eight-vertex polyline that alternates straight runs (bulge 0) with
 * 90-degree corner arcs (bulge tan(pi/8)), starting at the right end of the
 * top edge and going counter-clockwise.  The corner radius is used as given.
 */
module Outline {
  import opened Polylines
  import opened Arith

  function BoardOutline(w: real, h: real, r: real): (p: Polyline)
    ensures p.closed && |p.vertices| == 8
    ensures forall i :: 0 <= i < 8 ==>
              p.vertices[i].bulge == if i % 2 == 0 then 0.0 else Bulge90 as real
  {
    Polyline([Vertex(w - r, h, 0.0),
              Vertex(r, h, Bulge90),
              Vertex(0.0, h - r, 0.0),
              Vertex(0.0, r, Bulge90),
              Vertex(r, 0.0, 0.0),
              Vertex(w - r, 0.0, Bulge90),
              Vertex(w, r, 0.0),
              Vertex(w, h - r, Bulge90)], true)
  }

  function Abs(a: real): real {
    if a < 0.0 then -a else a
  }

  /** The board corner that the arc leaving vertex i (odd) rounds off. */
  function Corner(w: real, h: real, i: int): Point {
    if i == 1 then Point(0.0, h)
    else if i == 3 then Point(0.0, 0.0)
    else if i == 5 then Point(w, 0.0)
    else Point(w, h)
  }

  /** The centre of the rounding circle at that corner, r in from both edges. */
  function CornerCentre(w: real, h: real, r: real, i: int): Point {
    if i == 1 then Point(r, h - r)
    else if i == 3 then Point(r, r)
    else if i == 5 then Point(w - r, r)
    else Point(w - r, h - r)
  }

  /**
   * m lies on the board and nearer the corner k, on both axes, than the
   * r/2 at which the midpoint of a corner's chord lies.
   */
  predicate NearCorner(m: Point, k: Point, r: real, w: real, h: real) {
    && Abs(m.x - k.x) < r / 2.0 && Abs(m.y - k.y) < r / 2.0
    && 0.0 < m.x < w && 0.0 < m.y < h
  }

  predicate OnRectangleBoundary(v: Vertex, w: real, h: real) {
    && 0.0 <= v.x <= w && 0.0 <= v.y <= h
    && (v.x == 0.0 || v.x == w || v.y == 0.0 || v.y == h)
  }

  /**
   * The arc from a to b about c is a counter-clockwise quarter turn of radius
   * r: both ends are r from c, the two radii are perpendicular, and turning
   * from the first to the second is to the left.
   */
  predicate QuarterTurn(a: Vertex, b: Vertex, c: Point, r: real) {
    var ux, uy, vx, vy := a.x - c.x, a.y - c.y, b.x - c.x, b.y - c.y;
    && ux * ux + uy * uy == r * r
    && vx * vx + vy * vy == r * r
    && ux * vx + uy * vy == 0.0
    && ux * vy - vx * uy == r * r
  }

  /** For a radius within half the board, every vertex lies on the board's edge. */
  lemma OutlineOnBoundary(w: real, h: real, r: real)
    requires 0.0 <= r && r <= w / 2.0 && r <= h / 2.0
    ensures forall i :: 0 <= i < 8 ==> OnRectangleBoundary(BoardOutline(w, h, r).vertices[i], w, h)
  {
  }

  /**
   * The straight runs are, in order, along the top, left, bottom and right
   * edges; for a radius within half the board each runs in the
   * counter-clockwise direction (leftward along the top, and so on).
   */
  lemma OutlineStraightRuns(w: real, h: real, r: real)
    ensures var vs := BoardOutline(w, h, r).vertices;
            && vs[0].y == vs[1].y == h && vs[2].x == vs[3].x == 0.0
            && vs[4].y == vs[5].y == 0.0 && vs[6].x == vs[7].x == w
    ensures var vs := BoardOutline(w, h, r).vertices;
            0.0 <= r && r <= w / 2.0 && r <= h / 2.0 ==>
              vs[1].x <= vs[0].x && vs[3].y <= vs[2].y && vs[4].x <= vs[5].x && vs[6].y <= vs[7].y
  {
  }

  /**
   * Every bulged segment is a counter-clockwise quarter turn about its
   * corner's rounding centre, whose two ends are the tangent points where
   * the adjacent edges meet the circle, as the bulge tan(90deg / 4) encodes.
   */
  lemma OutlineCornerArcs(w: real, h: real, r: real)
    ensures var vs := BoardOutline(w, h, r).vertices;
            forall i :: 0 <= i < 8 && i % 2 == 1 ==>
              QuarterTurn(vs[i], SegmentEnd(vs, i), CornerCentre(w, h, r, i), r)
  {
    var vs := BoardOutline(w, h, r).vertices;
    assert QuarterTurn(vs[1], vs[2], CornerCentre(w, h, r, 1), r);
    assert QuarterTurn(vs[3], vs[4], CornerCentre(w, h, r, 3), r);
    assert QuarterTurn(vs[5], vs[6], CornerCentre(w, h, r, 5), r);
    assert QuarterTurn(vs[7], vs[0], CornerCentre(w, h, r, 7), r);
  }

  /**
   * With the positive bulge each corner arc swells toward its board corner:
   * its midpoint is nearer the corner than the chord's midpoint (which is
   * r/2 from it on both axes) and stays on the board.
   */
  lemma OutlineArcsBulgeOutward(w: real, h: real, r: real)
    requires 0.0 < r && r <= w / 2.0 && r <= h / 2.0
    ensures var vs := BoardOutline(w, h, r).vertices;
            forall i :: 0 <= i < 8 && i % 2 == 1 ==>
              NearCorner(ArcMidpoint(vs[i], SegmentEnd(vs, i)), Corner(w, h, i), r, w, h)
  {
    var vs := BoardOutline(w, h, r).vertices;
    ProperFraction(r, Bulge90);
    var d := CornerArcMidpoints(w, h, r);
    assert 0.0 < Bulge90 * r < r;
    assert d == (r - Bulge90 * r) / 2.0;
    assert 0.0 < d;
    assert d < r / 2.0;
    assert SegmentEnd(vs, 7) == vs[0];
  }

  /** The corner arcs' midpoints, each d in from its corner on both axes. */
  lemma CornerArcMidpoints(w: real, h: real, r: real) returns (d: real)
    ensures d == (r - Bulge90 * r) / 2.0
    ensures var vs := BoardOutline(w, h, r).vertices;
            && ArcMidpoint(vs[1], vs[2]) == Point(d, h - d)
            && ArcMidpoint(vs[3], vs[4]) == Point(d, d)
            && ArcMidpoint(vs[5], vs[6]) == Point(w - d, d)
            && ArcMidpoint(vs[7], vs[0]) == Point(w - d, h - d)
  {
    var vs := BoardOutline(w, h, r).vertices;
    d := (r - Bulge90 * r) / 2.0;
    CornerArcMidpoint(vs[1], vs[2], r, -r, -r);
    CornerArcMidpoint(vs[3], vs[4], r, r, -r);
    CornerArcMidpoint(vs[5], vs[6], r, r, r);
    CornerArcMidpoint(vs[7], vs[0], r, -r, r);
  }

  /**
   * The midpoint of a corner arc whose chord runs r along each axis:
   * the chord midpoint pushed Bulge90 * r / 2 outward on each axis.
   */
  lemma CornerArcMidpoint(a: Vertex, z: Vertex, r: real, dx: real, dy: real)
    requires a.bulge == Bulge90 && z.x - a.x == dx && z.y - a.y == dy
    requires (dx == r || dx == -r) && (dy == r || dy == -r)
    ensures var e := Bulge90 * r;
            ArcMidpoint(a, z) == Point(a.x + dx / 2.0 + (if dy == r then e else -e) / 2.0,
                                       a.y + dy / 2.0 - (if dx == r then e else -e) / 2.0)
  {
    ArcMidpointByOffsets(a, z, dx, dy);
    MulNegRight(Bulge90, r);
  }

  /**
   * The vertices go round counter-clockwise: the shoelace sum is
   * 2 w h - 4 r^2 (the rectangle less four corner triangles), positive for
   * a radius within half the board.
   */
  lemma {:induction false} OutlineCounterClockwise(w: real, h: real, r: real)
    ensures TwiceArea(BoardOutline(w, h, r).vertices) == 2.0 * w * h - 4.0 * r * r
    ensures w > 0.0 && h > 0.0 && 0.0 <= r && r <= w / 2.0 && r <= h / 2.0 ==>
              TwiceArea(BoardOutline(w, h, r).vertices) > 0.0
  {
    var vs := BoardOutline(w, h, r).vertices;
    TwiceAreaOfEight(vs);
    assert Cross(vs[0], vs[1]) == w * h - 2.0 * r * h;
    assert Cross(vs[1], vs[2]) == r * h - r * r;
    assert Cross(vs[2], vs[3]) == 0.0;
    assert Cross(vs[3], vs[4]) == -r * r;
    assert Cross(vs[4], vs[5]) == 0.0;
    assert Cross(vs[5], vs[6]) == w * r - r * r;
    assert Cross(vs[6], vs[7]) == w * h - 2.0 * w * r;
    assert Cross(vs[7], vs[0]) == w * r + r * h - r * r;
    if w > 0.0 && h > 0.0 && 0.0 <= r && r <= w / 2.0 && r <= h / 2.0 {
      assert (w / 2.0 - r) * r >= 0.0;
      assert (h / 2.0 - r) * (w / 2.0) >= 0.0;
      assert 4.0 * r * r <= w * h;
      assert w * h > 0.0;
    }
  }

  /**
   * A zero radius gives a sharp rectangle: each corner arc has coincident
   * ends, although it keeps the non-zero bulge tan(pi/8).
   */
  lemma OutlineSharpCorners(w: real, h: real)
    ensures var vs := BoardOutline(w, h, 0.0).vertices;
            forall i :: 0 <= i < 8 && i % 2 == 1 ==>
              AsPoint(vs[i]) == AsPoint(SegmentEnd(vs, i)) == Corner(w, h, i) && vs[i].bulge != 0.0
  {
    var vs := BoardOutline(w, h, 0.0).vertices;
    assert SegmentEnd(vs, 7) == vs[0];
  }

  /**
   * The radius is not clamped: once it exceeds half the width the top run is
   * drawn left-to-right, against the outline's direction, so the path folds
   * back over itself (likewise the left run beyond half the height).
   */
  lemma OutlineUnclampedRadiusFolds(w: real, h: real, r: real)
    ensures var vs := BoardOutline(w, h, r).vertices;
            && (r > w / 2.0 ==> vs[0].x < vs[1].x && vs[4].x > vs[5].x)
            && (r > h / 2.0 ==> vs[2].y < vs[3].y && vs[6].y > vs[7].y)
  {
  }
}
