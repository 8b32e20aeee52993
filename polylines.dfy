/**
 * The point+bulge representation of a closed polyline that the drawing
 * emitter consumes: one [x, y, bulge] entry per vertex, the bulge describing
 * the segment that leaves that vertex towards the next one (the last vertex
 * wraps around to the first).  A bulge of 0 is a straight segment; a bulge b
 * is a circular arc whose included angle is 4 * atan(|b|), counter-clockwise
 * when b > 0 and clockwise when b < 0 (LWPOLYLINE group code 42 in DXF).
 */
module Polylines {
  import opened Arith

  /** A point in board space, in millimetres; origin bottom-left, y upward. */
  datatype Point = Point(x: real, y: real)

  /** One [x, y, bulge] tuple handed to the emitter. */
  datatype Vertex = Vertex(x: real, y: real, bulge: real)

  /** A polyline and the emitter's closed flag. */
  datatype Polyline = Polyline(vertices: seq<Vertex>, closed: bool)

  /** Bulges of counter-clockwise arcs of less than half a turn. */
  type QuarterTurnBulge = b: real | 0.0 < b < 1.0 witness 0.5

  /**
   * Bulges of clockwise arcs of at most half a turn.  The floating-point
   * value of -tan(pi/4) is slightly above -1, the exact value is -1.
   */
  type ClockwiseHalfTurnBulge = b: real | -1.0 <= b < 0.0 witness -1.0

  /**
   * tan(pi/8): the bulge of a 90-degree counter-clockwise arc.  Its numeric
   * value is deliberately left unknown; only its range is used.
   */
  const Bulge90: QuarterTurnBulge

  /** -tan(pi/4): the bulge of a 180-degree clockwise arc, left unknown like Bulge90. */
  const Bulge180: ClockwiseHalfTurnBulge

  function AsPoint(v: Vertex): Point {
    Point(v.x, v.y)
  }

  /** The vertex a segment starting at index i ends at (wrapping around). */
  function SegmentEnd(vs: seq<Vertex>, i: nat): Vertex
    requires i < |vs|
  {
    vs[(i + 1) % |vs|]
  }

  /**
   * The point halfway along the segment from a to b drawn with a's bulge:
   * the chord midpoint moved by bulge * (half the chord), rotated a quarter
   * turn clockwise from the direction of travel.  With a positive bulge the
   * path turns left (counter-clockwise) and the arc swells to the right of
   * its chord.
   */
  function ArcMidpoint(a: Vertex, b: Vertex): Point {
    Point((a.x + b.x) / 2.0 + a.bulge * (b.y - a.y) / 2.0,
          (a.y + b.y) / 2.0 - a.bulge * (b.x - a.x) / 2.0)
  }

  /** The arc midpoint in terms of the chord's offsets. */
  lemma ArcMidpointByOffsets(a: Vertex, b: Vertex, dx: real, dy: real)
    requires b.x - a.x == dx && b.y - a.y == dy
    ensures ArcMidpoint(a, b) == Point(a.x + dx / 2.0 + a.bulge * dy / 2.0, a.y + dy / 2.0 - a.bulge * dx / 2.0)
  {
    MulCongruence(a.bulge, b.y - a.y, dy);
    MulCongruence(a.bulge, b.x - a.x, dx);
    var m := ArcMidpoint(a, b);
    assert m.x == a.x + dx / 2.0 + a.bulge * dy / 2.0;
    assert m.y == a.y + dy / 2.0 - a.bulge * dx / 2.0;
  }

  function Cross(a: Vertex, b: Vertex): real {
    a.x * b.y - b.x * a.y
  }

  function CrossSum(vs: seq<Vertex>, i: nat): real
    requires i <= |vs|
    decreases |vs| - i
  {
    if i == |vs| then 0.0 else Cross(vs[i], SegmentEnd(vs, i)) + CrossSum(vs, i + 1)
  }

  /**
   * Twice the signed area of the polygon through the vertices (shoelace
   * formula, arcs replaced by their chords): positive when the vertices are
   * visited counter-clockwise, negative when clockwise.
   */
  function TwiceArea(vs: seq<Vertex>): real {
    CrossSum(vs, 0)
  }

  lemma {:induction false} TwiceAreaOfFour(vs: seq<Vertex>)
    requires |vs| == 4
    ensures TwiceArea(vs) == Cross(vs[0], vs[1]) + Cross(vs[1], vs[2])
                           + Cross(vs[2], vs[3]) + Cross(vs[3], vs[0])
  {
    assert CrossSum(vs, 3) == Cross(vs[3], vs[0]) + CrossSum(vs, 4);
    assert CrossSum(vs, 2) == Cross(vs[2], vs[3]) + CrossSum(vs, 3);
    assert CrossSum(vs, 1) == Cross(vs[1], vs[2]) + CrossSum(vs, 2);
    assert CrossSum(vs, 0) == Cross(vs[0], vs[1]) + CrossSum(vs, 1);
  }

  lemma {:induction false} TwiceAreaOfEight(vs: seq<Vertex>)
    requires |vs| == 8
    ensures TwiceArea(vs) == Cross(vs[0], vs[1]) + Cross(vs[1], vs[2])
                           + Cross(vs[2], vs[3]) + Cross(vs[3], vs[4])
                           + Cross(vs[4], vs[5]) + Cross(vs[5], vs[6])
                           + Cross(vs[6], vs[7]) + Cross(vs[7], vs[0])
  {
    assert CrossSum(vs, 7) == Cross(vs[7], vs[0]) + CrossSum(vs, 8);
    assert CrossSum(vs, 6) == Cross(vs[6], vs[7]) + CrossSum(vs, 7);
    assert CrossSum(vs, 5) == Cross(vs[5], vs[6]) + CrossSum(vs, 6);
    assert CrossSum(vs, 4) == Cross(vs[4], vs[5]) + CrossSum(vs, 5);
    assert CrossSum(vs, 3) == Cross(vs[3], vs[4]) + CrossSum(vs, 4);
    assert CrossSum(vs, 2) == Cross(vs[2], vs[3]) + CrossSum(vs, 3);
    assert CrossSum(vs, 1) == Cross(vs[1], vs[2]) + CrossSum(vs, 2);
    assert CrossSum(vs, 0) == Cross(vs[0], vs[1]) + CrossSum(vs, 1);
  }
}
