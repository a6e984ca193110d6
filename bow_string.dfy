/**
 * The bow string (`bow-string`): a polyline of 21 points rewritten every
 * frame along a quadratic Bézier curve from the top anchor, through the
 * drawing hand (or a slightly bent rest point), to the bottom anchor.
 */
module BowString {
  import opened Common

  const Segments: nat := 20

  /** The straight string `createBowString` starts with: y from -0.4 to 0.4. */
  function InitialPoint(i: nat): (p: Vec3)
    ensures p.x == 0.0 && p.z == 0.0
    ensures i == 0 ==> p.y == -0.4
    ensures i == Segments ==> p.y == 0.4
  {
    Vec3(0.0, -0.4 + (i as real / Segments as real) * 0.8, 0.0)
  }

  /** One coordinate of B(t) = (1-t)²·P0 + 2(1-t)t·P1 + t²·P2, associated as the source writes it. */
  function BezierCoord(p0: real, p1: real, p2: real, t: real): real
  {
    (1.0 - t) * (1.0 - t) * p0 + 2.0 * (1.0 - t) * t * p1 + t * t * p2
  }

  function Bezier(p0: Vec3, p1: Vec3, p2: Vec3, t: real): Vec3
  {
    Vec3(BezierCoord(p0.x, p1.x, p2.x, t), BezierCoord(p0.y, p1.y, p2.y, t), BezierCoord(p0.z, p1.z, p2.z, t))
  }

  /** The curve starts at the first control point and ends at the last. */
  lemma BezierEnds(p0: Vec3, p1: Vec3, p2: Vec3)
    ensures Bezier(p0, p1, p2, 0.0) == p0
    ensures Bezier(p0, p1, p2, 1.0) == p2
  {
  }

  /** On [0, 1] the three weights are non-negative and sum to one. */
  lemma Weights(t: real)
    requires 0.0 <= t <= 1.0
    ensures (1.0 - t) * (1.0 - t) >= 0.0 && 2.0 * (1.0 - t) * t >= 0.0 && t * t >= 0.0
    ensures (1.0 - t) * (1.0 - t) + 2.0 * (1.0 - t) * t + t * t == 1.0
  {
    NonNeg(1.0 - t, 1.0 - t);
    NonNeg(2.0 * (1.0 - t), t);
    NonNeg(t, t);
    var o := 1.0 - t;
    assert o * o + 2.0 * o * t + t * t == (o + t) * (o + t);
  }

  lemma NonNeg(a: real, b: real)
    requires a >= 0.0 && b >= 0.0
    ensures a * b >= 0.0
  {
  }

  lemma MulLe(w: real, a: real, b: real)
    requires w >= 0.0 && a <= b
    ensures w * a <= w * b
  {
    assert w * (b - a) >= 0.0;
  }

  lemma Sum3(w0: real, w1: real, w2: real, x: real)
    requires w0 + w1 + w2 == 1.0
    ensures w0 * x + w1 * x + w2 * x == x
  {
    assert w0 * x + w1 * x + w2 * x == (w0 + w1 + w2) * x;
  }

  lemma SumLe(a0: real, a1: real, a2: real, b0: real, b1: real, b2: real)
    requires a0 <= b0 && a1 <= b1 && a2 <= b2
    ensures a0 + a1 + a2 <= b0 + b1 + b2
  {
  }

  /** A weighted sum with non-negative weights summing to one stays below a common upper bound. */
  lemma ConvexUpper(w0: real, w1: real, w2: real, p0: real, p1: real, p2: real, hi: real)
    requires w0 >= 0.0 && w1 >= 0.0 && w2 >= 0.0 && w0 + w1 + w2 == 1.0
    requires p0 <= hi && p1 <= hi && p2 <= hi
    ensures w0 * p0 + w1 * p1 + w2 * p2 <= hi
  {
    MulLe(w0, p0, hi);
    MulLe(w1, p1, hi);
    MulLe(w2, p2, hi);
    Sum3(w0, w1, w2, hi);
    SumLe(w0 * p0, w1 * p1, w2 * p2, w0 * hi, w1 * hi, w2 * hi);
  }

  /** … and above a common lower bound. */
  lemma ConvexLower(w0: real, w1: real, w2: real, p0: real, p1: real, p2: real, lo: real)
    requires w0 >= 0.0 && w1 >= 0.0 && w2 >= 0.0 && w0 + w1 + w2 == 1.0
    requires lo <= p0 && lo <= p1 && lo <= p2
    ensures lo <= w0 * p0 + w1 * p1 + w2 * p2
  {
    MulLe(w0, lo, p0);
    MulLe(w1, lo, p1);
    MulLe(w2, lo, p2);
    Sum3(w0, w1, w2, lo);
    SumLe(w0 * lo, w1 * lo, w2 * lo, w0 * p0, w1 * p1, w2 * p2);
  }

  /** Every coordinate of a string point lies between the smallest and largest control coordinate. */
  lemma BezierWithin(p0: real, p1: real, p2: real, t: real)
    requires 0.0 <= t <= 1.0
    ensures Min(p0, Min(p1, p2)) <= BezierCoord(p0, p1, p2, t) <= Max(p0, Max(p1, p2))
  {
    Weights(t);
    var w0, w1, w2 := (1.0 - t) * (1.0 - t), 2.0 * (1.0 - t) * t, t * t;
    ConvexUpper(w0, w1, w2, p0, p1, p2, Max(p0, Max(p1, p2)));
    ConvexLower(w0, w1, w2, p0, p1, p2, Min(p0, Min(p1, p2)));
    assert BezierCoord(p0, p1, p2, t) == w0 * p0 + w1 * p1 + w2 * p2;
  }

  /** The control point the string is bent through. */
  function MiddlePoint(drawing: bool, rightHand: Vec3, top: Vec3, bottom: Vec3,
                       rotate: Vec3 -> Vec3, restOffset: real): Vec3
  {
    if drawing then rightHand
    else Add(Vec3((top.x + bottom.x) / 2.0, (top.y + bottom.y) / 2.0, (top.z + bottom.z) / 2.0),
             rotate(Vec3(0.0, 0.0, restOffset)))
  }

  /** What the bow-draw system reports each frame. */
  datatype DrawState = DrawState(isDrawing: bool, drawDistance: real)

  class Str {
    /** The schema: local anchors and the rest bend. */
    const topAnchor: Vec3
    const bottomAnchor: Vec3
    const restOffset: real
    const points: array<Vec3>
    var hasHands: bool
    var hasBowSystem: bool
    var isDrawing: bool
    var currentDrawDistance: real

    ghost predicate Valid()
    {
      points.Length == Segments + 1
    }

    /** `init` and `createBowString`: the straight string of 21 points. */
    constructor (topAnchor: Vec3, bottomAnchor: Vec3, restOffset: real)
      ensures Valid() && fresh(points)
      ensures forall i :: 0 <= i < points.Length ==> points[i] == InitialPoint(i)
      ensures this.topAnchor == topAnchor && this.bottomAnchor == bottomAnchor && this.restOffset == restOffset
      ensures !hasHands && !hasBowSystem && !isDrawing && currentDrawDistance == 0.0
    {
      this.topAnchor := topAnchor;
      this.bottomAnchor := bottomAnchor;
      this.restOffset := restOffset;
      var ps := new Vec3[Segments + 1];
      var i := 0;
      while i <= Segments
        invariant 0 <= i <= Segments + 1
        invariant forall j :: 0 <= j < i ==> ps[j] == InitialPoint(j)
      {
        ps[i] := InitialPoint(i);
        i := i + 1;
      }
      points := ps;
      hasHands := false;
      hasBowSystem := false;
      isDrawing := false;
      currentDrawDistance := 0.0;
    }

    /** `play`: both hands must be found; the bow-draw system is picked up only then. */
    method Play(leftFound: bool, rightFound: bool, bowSystemFound: bool)
      modifies this`hasHands, this`hasBowSystem
      ensures hasHands == (leftFound && rightFound)
      ensures hasBowSystem == if leftFound && rightFound && bowSystemFound then true else old(hasBowSystem)
    {
      hasHands := leftFound && rightFound;
      if !hasHands {
        return;
      }
      if bowSystemFound {
        hasBowSystem := true;
      }
    }

    /**
     * `tick`: with both hands, the anchors are rotated by the bow hand's
     * rotation and moved to its position, and every point is set on the
     * Bézier curve through the middle point at t = i/20.
     */
    method Tick(draw: DrawState, bowPosition: Vec3, rightHand: Vec3, rotate: Vec3 -> Vec3)
      requires Valid()
      modifies points, this`isDrawing, this`currentDrawDistance
      ensures Valid()
      ensures !hasHands ==> points[..] == old(points[..])
                            && isDrawing == old(isDrawing) && currentDrawDistance == old(currentDrawDistance)
      ensures hasBowSystem && hasHands ==> isDrawing == draw.isDrawing && currentDrawDistance == draw.drawDistance
      ensures !hasBowSystem ==> isDrawing == old(isDrawing) && currentDrawDistance == old(currentDrawDistance)
      ensures hasHands ==>
                var top, bottom := Add(rotate(topAnchor), bowPosition), Add(rotate(bottomAnchor), bowPosition);
                var middle := MiddlePoint(isDrawing, rightHand, top, bottom, rotate, restOffset);
                (forall i :: 0 <= i < points.Length ==>
                   points[i] == Bezier(top, middle, bottom, i as real / Segments as real))
                && points[0] == top && points[Segments] == bottom
    {
      if !hasHands {
        return;
      }
      if hasBowSystem {
        isDrawing := draw.isDrawing;
        currentDrawDistance := draw.drawDistance;
      }
      var top := Add(rotate(topAnchor), bowPosition);
      var bottom := Add(rotate(bottomAnchor), bowPosition);
      var middle := MiddlePoint(isDrawing, rightHand, top, bottom, rotate, restOffset);
      ghost var drawing, distance := isDrawing, currentDrawDistance;
      var i := 0;
      while i <= Segments
        invariant 0 <= i <= Segments + 1
        invariant isDrawing == drawing && currentDrawDistance == distance
        invariant forall j :: 0 <= j < i ==> points[j] == Bezier(top, middle, bottom, j as real / Segments as real)
      {
        points[i] := Bezier(top, middle, bottom, i as real / Segments as real);
        i := i + 1;
      }
      BezierEnds(top, middle, bottom);
      assert Segments as real / Segments as real == 1.0;
    }
  }

  /** After any tick with both hands, each point lies within the box spanned by the three control points. */
  lemma TickPointsWithin(top: Vec3, middle: Vec3, bottom: Vec3, i: nat)
    requires i <= Segments
    ensures var p := Bezier(top, middle, bottom, i as real / Segments as real);
            Min(top.x, Min(middle.x, bottom.x)) <= p.x <= Max(top.x, Max(middle.x, bottom.x))
            && Min(top.y, Min(middle.y, bottom.y)) <= p.y <= Max(top.y, Max(middle.y, bottom.y))
            && Min(top.z, Min(middle.z, bottom.z)) <= p.z <= Max(top.z, Max(middle.z, bottom.z))
  {
    var t := i as real / Segments as real;
    assert 0.0 <= t <= 1.0 by {
      assert (Segments as real - i as real) / Segments as real >= 0.0;
      assert Segments as real / Segments as real - t == (Segments as real - i as real) / Segments as real;
    }
    BezierWithin(top.x, middle.x, bottom.x, t);
    BezierWithin(top.y, middle.y, bottom.y, t);
    BezierWithin(top.z, middle.z, bottom.z, t);
  }
}
