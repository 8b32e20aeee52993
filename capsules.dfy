/**
 * The vertical slot ("capsule") drawn for every hole: two straight sides
 * joined by a half-circle at the top and at the bottom, as one closed
 * four-vertex polyline.
 */
module Capsules {
  import opened Polylines

  function Min3(a: real, b: real, c: real): real {
    if a <= b && a <= c then a else if b <= c then b else c
  }

  /** The radius actually used for a slot: the requested one, never more than half the slot's width or height. */
  function EffectiveRadius(w: real, h: real, radius: real): (r: real)
    ensures r <= radius && r <= w / 2.0 && r <= h / 2.0
    ensures r == radius || r == w / 2.0 || r == h / 2.0
  {
    Min3(radius, w / 2.0, h / 2.0)
  }

  /**
   * The slot of width w and height h centred on (x, y): top-left and
   * top-right tangent points joined by the top half-circle, the right side,
   * bottom-right and bottom-left tangent points joined by the bottom
   * half-circle, the left side.
   */
  function Capsule(x: real, y: real, w: real, h: real, radius: real): (p: Polyline)
    ensures p.closed && |p.vertices| == 4
    ensures p.vertices[0].bulge == Bulge180 && p.vertices[1].bulge == 0.0
    ensures p.vertices[2].bulge == Bulge180 && p.vertices[3].bulge == 0.0
  {
    var r := EffectiveRadius(w, h, radius);
    var topY := y + h / 2.0 - r;
    var botY := y - h / 2.0 + r;
    var leftX := x - r;
    var rightX := x + r;
    Polyline([Vertex(leftX, topY, Bulge180),
              Vertex(rightX, topY, 0.0),
              Vertex(rightX, botY, Bulge180),
              Vertex(leftX, botY, 0.0)], true)
  }

  /** The centre of a four-vertex polyline, read back as the midpoint of its first diagonal. */
  function CapsuleCentre(p: Polyline): Point
    requires |p.vertices| == 4
  {
    Point((p.vertices[0].x + p.vertices[2].x) / 2.0, (p.vertices[0].y + p.vertices[2].y) / 2.0)
  }

  /** The capsule's vertices are the four tangent points at distance r = min(radius, w/2, h/2) from the slot's edges. */
  lemma CapsuleVertices(x: real, y: real, w: real, h: real, radius: real)
    ensures var r := EffectiveRadius(w, h, radius);
            var vs := Capsule(x, y, w, h, radius).vertices;
            && AsPoint(vs[0]) == Point(x - r, y + h / 2.0 - r)
            && AsPoint(vs[1]) == Point(x + r, y + h / 2.0 - r)
            && AsPoint(vs[2]) == Point(x + r, y - h / 2.0 + r)
            && AsPoint(vs[3]) == Point(x - r, y - h / 2.0 + r)
  {
  }

  /** The centre a capsule was drawn around can be read back from it. */
  lemma CapsuleCentreRoundTrip(x: real, y: real, w: real, h: real, radius: real)
    ensures CapsuleCentre(Capsule(x, y, w, h, radius)) == Point(x, y)
  {
  }

  /** For a sensible slot the capsule is well formed and lies inside its w-by-h box. */
  lemma CapsuleWithinSlot(x: real, y: real, w: real, h: real, radius: real)
    requires w > 0.0 && h > 0.0 && radius >= 0.0
    ensures var vs := Capsule(x, y, w, h, radius).vertices;
            && vs[0].x <= vs[1].x && vs[3].y <= vs[0].y
            && forall i :: 0 <= i < 4 ==>
                 x - w / 2.0 <= vs[i].x <= x + w / 2.0 && y - h / 2.0 <= vs[i].y <= y + h / 2.0
  {
  }

  /** Opposite vertices of the capsule are mirror images through its centre. */
  lemma CapsuleSymmetric(x: real, y: real, w: real, h: real, radius: real)
    ensures var vs := Capsule(x, y, w, h, radius).vertices;
            forall i :: 0 <= i < 2 ==>
              vs[i].x + vs[i + 2].x == 2.0 * x && vs[i].y + vs[i + 2].y == 2.0 * y
  {
  }

  /**
   * Each curved segment is a half turn: its two end points are diametrically
   * opposite on a circle of radius r, centred on the slot's axis r below the
   * top edge (resp. r above the bottom edge).
   */
  lemma CapsuleArcsAreHalfTurns(x: real, y: real, w: real, h: real, radius: real)
    ensures var r := EffectiveRadius(w, h, radius);
            var vs := Capsule(x, y, w, h, radius).vertices;
            var top := Point(x, y + h / 2.0 - r);
            var bottom := Point(x, y - h / 2.0 + r);
            && vs[0].x - top.x == -(vs[1].x - top.x) == -r && vs[0].y == vs[1].y == top.y
            && vs[2].x - bottom.x == -(vs[3].x - bottom.x) == r && vs[2].y == vs[3].y == bottom.y
  {
  }

  /**
   * The vertices are visited clockwise (the shoelace sum is -4 r (h - 2 r),
   * never positive for a sensible slot), which is why both half-circles carry
   * the negative, clockwise bulge.
   */
  lemma {:induction false} CapsuleClockwise(x: real, y: real, w: real, h: real, radius: real)
    ensures var r := EffectiveRadius(w, h, radius);
            TwiceArea(Capsule(x, y, w, h, radius).vertices) == -4.0 * r * (h - 2.0 * r)
    ensures w > 0.0 && h > 0.0 && radius >= 0.0 ==> TwiceArea(Capsule(x, y, w, h, radius).vertices) <= 0.0
  {
    var r := EffectiveRadius(w, h, radius);
    var vs := Capsule(x, y, w, h, radius).vertices;
    TwiceAreaOfFour(vs);
    var t, b := y + h / 2.0 - r, y - h / 2.0 + r;
    calc {
      TwiceArea(vs);
      ((x - r) * t - (x + r) * t) + ((x + r) * b - (x + r) * t)
        + ((x + r) * b - (x - r) * b) + ((x - r) * t - (x - r) * b);
      -4.0 * r * (t - b);
    }
    if w > 0.0 && h > 0.0 && radius >= 0.0 {
      assert r >= 0.0 && h - 2.0 * r >= 0.0;
      assert r * (h - 2.0 * r) >= 0.0;
    }
  }

  /**
   * Drawn with the negative bulge, each half-circle swells outward, away from
   * the slot's centre, and (as |bulge| <= 1) stays within the slot's height.
   */
  lemma CapsuleArcsBulgeOutward(x: real, y: real, w: real, h: real, radius: real)
    requires w > 0.0 && h > 0.0 && radius > 0.0
    ensures var r := EffectiveRadius(w, h, radius);
            var vs := Capsule(x, y, w, h, radius).vertices;
            var topMid := ArcMidpoint(vs[0], vs[1]);
            var botMid := ArcMidpoint(vs[2], vs[3]);
            && topMid.x == x && vs[0].y < topMid.y <= y + h / 2.0
            && botMid.x == x && y - h / 2.0 <= botMid.y < vs[2].y
  {
    var r := EffectiveRadius(w, h, radius);
    var t, bot := y + h / 2.0 - r, y - h / 2.0 + r;
    var b: real := Bulge180;
    var vs := Capsule(x, y, w, h, radius).vertices;
    assert r > 0.0;
    assert 0.0 < -b * r <= r by {
      assert -b <= 1.0;
    }
    assert vs[0] == Vertex(x - r, t, b) && vs[1] == Vertex(x + r, t, 0.0);
    assert vs[2] == Vertex(x + r, bot, b) && vs[3] == Vertex(x - r, bot, 0.0);
    assert b * (t - t) == 0.0 && b * (bot - bot) == 0.0;
    assert b * ((x + r) - (x - r)) / 2.0 == b * r;
    assert b * ((x - r) - (x + r)) / 2.0 == -b * r;
    assert ArcMidpoint(vs[0], vs[1]) == Point(x, t - b * r);
    assert ArcMidpoint(vs[2], vs[3]) == Point(x, bot + b * r);
    assert t - b * r <= t + r == y + h / 2.0;
    assert bot + b * r >= bot - r == y - h / 2.0;
    assert ArcMidpoint(vs[0], vs[1]).y <= y + h / 2.0;
  }
}
