/**
 * The geometry the adapter computes for circles and body transforms. The
 * host's `Math.PI`, `Math.cos` and `Math.sin` are kept uninterpreted: they
 * are fields of a `MathLib` value, and a property that needs a fact about
 * them (such as cos^2 + sin^2 = 1) asks for it.
 */
module Shapes {
  import opened Geometry

  datatype MathLib = MathLib(pi: real, cos: real -> real, sin: real -> real)

  /** A circle is always tessellated into this many vertices. */
  const CirclePrecision: nat := 16

  /** `k_increment`: the angle between two consecutive ring vertices. */
  function CircleStep(math: MathLib): real
  {
    2.0 * math.pi / CirclePrecision as real
  }

  /**
   * The angle of ring vertex `i`, as the loop computes it: `theta` starts at
   * 0 and grows by `k_increment` per vertex.
   */
  function CircleAngle(math: MathLib, i: nat): real
  {
    if i == 0 then 0.0 else CircleAngle(math, i - 1) + CircleStep(math)
  }

  /** The accumulated angle of vertex `i` is `i * k_increment`. */
  lemma {:induction false} CircleAngleClosedForm(math: MathLib, i: nat)
    ensures CircleAngle(math, i) == i as real * CircleStep(math)
  {
    if i > 0 {
      CircleAngleClosedForm(math, i - 1);
      assert (i - 1) as real * CircleStep(math) + CircleStep(math) == i as real * CircleStep(math);
    }
  }

  /** Ring vertex `i`: the center moved by `radius` along the angle of vertex `i`. */
  function CircleVertex(center: Vec2, radius: real, math: MathLib, i: nat): Vec2
  {
    Vec2(center.x + radius * math.cos(CircleAngle(math, i)), center.y + radius * math.sin(CircleAngle(math, i)))
  }

  /** The first `n` vertices of the ring, in angle order. */
  function CirclePoints(center: Vec2, radius: real, math: MathLib, n: nat): (vs: seq<Vec2>)
    ensures |vs| == n
    ensures forall i :: 0 <= i < n ==> vs[i] == CircleVertex(center, radius, math, i)
  {
    if n == 0 then [] else CirclePoints(center, radius, math, n - 1) + [CircleVertex(center, radius, math, n - 1)]
  }

  /**
   * One step of the ring loop: the vertex at the current `theta` extends the
   * flattened ring by one vertex, and `theta + k_increment` is the next angle.
   */
  lemma CircleRingStep(center: Vec2, radius: real, math: MathLib, i: nat, theta: real)
    requires theta == CircleAngle(math, i)
    ensures Flatten(CirclePoints(center, radius, math, i + 1))
         == Flatten(CirclePoints(center, radius, math, i)) + [center.x + radius * math.cos(theta), center.y + radius * math.sin(theta)]
    ensures theta + 2.0 * math.pi / CirclePrecision as real == CircleAngle(math, i + 1)
  {
    var ring := CirclePoints(center, radius, math, i);
    var v := CircleVertex(center, radius, math, i);
    assert CirclePoints(center, radius, math, i + 1) == ring + [v];
    assert v == Vec2(center.x + radius * math.cos(theta), center.y + radius * math.sin(theta));
    assert [v.x, v.y] == [center.x + radius * math.cos(theta), center.y + radius * math.sin(theta)];
    FlattenSnoc(ring, v);
  }

  /** The 16 ring vertices span exactly one turn: the step after the last vertex closes the loop. */
  lemma CircleRingSpansOneTurn(math: MathLib)
    ensures CircleAngle(math, 0) == 0.0
    ensures CircleAngle(math, CirclePrecision) == 2.0 * math.pi
    ensures forall i: nat :: CircleAngle(math, i + 1) == CircleAngle(math, i) + CircleStep(math)
  {
    CircleAngleClosedForm(math, CirclePrecision);
  }

  /** Where cos^2 + sin^2 = 1 holds at its angle, a ring vertex lies at distance `radius` from the center. */
  lemma CircleVertexOnCircle(center: Vec2, radius: real, math: MathLib, i: nat)
    requires var t := CircleAngle(math, i); math.cos(t) * math.cos(t) + math.sin(t) * math.sin(t) == 1.0
    ensures var v := CircleVertex(center, radius, math, i);
      (v.x - center.x) * (v.x - center.x) + (v.y - center.y) * (v.y - center.y) == radius * radius
  {
    var t := CircleAngle(math, i);
    var c, s := math.cos(t), math.sin(t);
    calc {
      (radius * c) * (radius * c) + (radius * s) * (radius * s);
      radius * radius * (c * c + s * s);
      radius * radius;
    }
  }

  /** With cos 0 = 1 and sin 0 = 0, the ring starts on the positive x side of the center. */
  lemma CircleFirstVertex(center: Vec2, radius: real, math: MathLib)
    requires math.cos(0.0) == 1.0 && math.sin(0.0) == 0.0
    ensures CircleVertex(center, radius, math, 0) == Vec2(center.x + radius, center.y)
  {
    assert CircleAngle(math, 0) == 0.0;
  }

  /** Length of both axis segments drawn for a body, in world units. */
  const AxisLength := 0.1

  /** Colour of the local X axis segment. */
  const XAxisColor: seq<real> := [0.75, 0.0, 0.0]
  /** Colour of the local Y axis segment. */
  const YAxisColor: seq<real> := [0.0, 0.75, 0.0]

  /** The local `transform(x, y)` of drawAxes, over the angle's cosine and sine. */
  function AxesTransform(x: real, y: real, cos: real, sin: real): Vec2
  {
    Vec2(x * cos + y * sin, -x * sin + y * cos)
  }

  /** The common start of both axis segments. */
  function AxesOrigin(x: real, y: real, angle: real, math: MathLib): Vec2
  {
    AxesTransform(x, y, math.cos(angle), math.sin(angle))
  }

  /** The end of the local X axis segment. */
  function XAxisEnd(x: real, y: real, angle: real, math: MathLib): Vec2
  {
    AxesTransform(x + AxisLength, y, math.cos(angle), math.sin(angle))
  }

  /** The end of the local Y axis segment. */
  function YAxisEnd(x: real, y: real, angle: real, math: MathLib): Vec2
  {
    AxesTransform(x, y + AxisLength, math.cos(angle), math.sin(angle))
  }

  /**
   * The transform is linear, and where cos^2 + sin^2 = 1 it keeps lengths:
   * it is a rotation (by minus the angle, in the usual orientation).
   */
  lemma AxesTransformIsRotation(x: real, y: real, dx: real, dy: real, cos: real, sin: real)
    requires cos * cos + sin * sin == 1.0
    ensures var o := AxesTransform(x, y, cos, sin);
      var e := AxesTransform(x + dx, y + dy, cos, sin);
      && e.x - o.x == dx * cos + dy * sin
      && e.y - o.y == -dx * sin + dy * cos
      && (e.x - o.x) * (e.x - o.x) + (e.y - o.y) * (e.y - o.y) == dx * dx + dy * dy
  {
    var ex, ey := dx * cos + dy * sin, -dx * sin + dy * cos;
    calc {
      ex * ex + ey * ey;
      dx * dx * (cos * cos + sin * sin) + dy * dy * (cos * cos + sin * sin);
      dx * dx + dy * dy;
    }
  }

  /**
   * Where cos^2 + sin^2 = 1 at the body's angle, both axis segments have
   * length 0.1 and are perpendicular; for any cosine and sine they share
   * their start point.
   */
  lemma AxesSegmentsAreFrame(x: real, y: real, angle: real, math: MathLib)
    requires math.cos(angle) * math.cos(angle) + math.sin(angle) * math.sin(angle) == 1.0
    ensures var o, ex, ey := AxesOrigin(x, y, angle, math), XAxisEnd(x, y, angle, math), YAxisEnd(x, y, angle, math);
      && (ex.x - o.x) * (ex.x - o.x) + (ex.y - o.y) * (ex.y - o.y) == AxisLength * AxisLength
      && (ey.x - o.x) * (ey.x - o.x) + (ey.y - o.y) * (ey.y - o.y) == AxisLength * AxisLength
      && (ex.x - o.x) * (ey.x - o.x) + (ex.y - o.y) * (ey.y - o.y) == 0.0
  {
    var c, s := math.cos(angle), math.sin(angle);
    var o, ex, ey := AxesOrigin(x, y, angle, math), XAxisEnd(x, y, angle, math), YAxisEnd(x, y, angle, math);
    assert ex.x - o.x == AxisLength * c && ex.y - o.y == -AxisLength * s;
    assert ey.x - o.x == AxisLength * s && ey.y - o.y == AxisLength * c;
    calc {
      (AxisLength * c) * (AxisLength * c) + (-AxisLength * s) * (-AxisLength * s);
      AxisLength * AxisLength * (c * c + s * s);
      AxisLength * AxisLength;
    }
    calc {
      (AxisLength * s) * (AxisLength * s) + (AxisLength * c) * (AxisLength * c);
      AxisLength * AxisLength * (c * c + s * s);
      AxisLength * AxisLength;
    }
  }

  /**
   * The segments start at the body position rotated, not at the position
   * itself: at a quarter turn (cos = 0, sin = 1) the origin of (x, y) is (y, -x).
   */
  lemma AxesOriginAtQuarterTurn(x: real, y: real, angle: real, math: MathLib)
    requires math.cos(angle) == 0.0 && math.sin(angle) == 1.0
    ensures AxesOrigin(x, y, angle, math) == Vec2(y, -x)
  {
  }

  /** At angle 0 (cos 0 = 1, sin 0 = 0) the segments run from (x, y) to (x + 0.1, y) and to (x, y + 0.1). */
  lemma AxesAtZeroAngle(x: real, y: real, math: MathLib)
    requires math.cos(0.0) == 1.0 && math.sin(0.0) == 0.0
    ensures AxesOrigin(x, y, 0.0, math) == Vec2(x, y)
    ensures XAxisEnd(x, y, 0.0, math) == Vec2(x + AxisLength, y)
    ensures YAxisEnd(x, y, 0.0, math) == Vec2(x, y + AxisLength)
  {
  }
}
