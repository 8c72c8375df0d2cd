/**
 * Line/plane intersection and the triangle-against-plane clipper of the
 * EngineUtils renderer, with the array-wide clipping helper.
 */
module UtilsClipper {
  import opened JsNumber
  import opened UtilsVector

  /** Signed distance of `p` from the plane through `planePoint` with (already normalised) normal `n`. */
  function Distance(n: Vector, planePoint: Vector, p: Vector): real
  {
    n.x * p.x + n.y * p.y + n.z * p.z - (n.x * planePoint.x + n.y * planePoint.y + n.z * planePoint.z)
  }

  /** The side of the plane `p` is on, measured with any normal `n`: positive on the side `n` points to. */
  function Side(n: Vector, planePoint: Vector, p: Vector): real
  {
    Dot(p, n) - Dot(planePoint, n)
  }

  lemma DistanceIsSide(n: Vector, planePoint: Vector, p: Vector)
    ensures Distance(n, planePoint, p) == Side(n, planePoint, p)
  {
  }

  /** `vectorIntersectPlane`: normalises the normal again and walks from `s` towards `e` by the ratio `t`. */
  function IntersectPlane(m: MathLib, planePoint: Vector, planeNormal: Vector, s: Vector, e: Vector): (r: Vector)
    ensures r.w == 1.0
  {
    Add(s, Multiply(Subtract(e, s), Ratio(m, planePoint, planeNormal, s, e)))
  }

  /**
   * The ratio `vectorIntersectPlane` walks by: with `planeDot = -(planePoint . n)`,
   * `startDot = s . n` and `endDot = e . n`, it is `(-planeDot - startDot) / (endDot - startDot)`.
   */
  function Ratio(m: MathLib, planePoint: Vector, planeNormal: Vector, s: Vector, e: Vector): real
  {
    var n := Normalise(m, planeNormal);
    var planeDot := -(planePoint.x * n.x + planePoint.y * n.y + planePoint.z * n.z);
    var startDot := Dot(s, n);
    var endDot := Dot(e, n);
    Div(-planeDot - startDot, endDot - startDot)
  }

  /** The vertices of `tri` with distance >= 0, in their original order. */
  function InsidePoints(n: Vector, planePoint: Vector, tri: seq<Vector>): (r: seq<Vector>)
    ensures |r| <= |tri|
    ensures forall i | 0 <= i < |r| :: r[i] in tri && Distance(n, planePoint, r[i]) >= 0.0
  {
    if |tri| == 0 then []
    else
      var rest := InsidePoints(n, planePoint, tri[..|tri| - 1]);
      var last := tri[|tri| - 1];
      assert forall i | 0 <= i < |rest| :: rest[i] in tri by {
        forall i | 0 <= i < |rest| ensures rest[i] in tri {
          var k :| 0 <= k < |tri| - 1 && tri[k] == rest[i];
          assert tri[..|tri| - 1][k] == tri[k];
        }
      }
      if Distance(n, planePoint, last) >= 0.0 then rest + [last] else rest
  }

  /** The vertices of `tri` with distance < 0, in their original order. */
  function OutsidePoints(n: Vector, planePoint: Vector, tri: seq<Vector>): (r: seq<Vector>)
    ensures |r| + |InsidePoints(n, planePoint, tri)| == |tri|
    ensures forall i | 0 <= i < |r| :: r[i] in tri && Distance(n, planePoint, r[i]) < 0.0
  {
    if |tri| == 0 then []
    else
      var rest := OutsidePoints(n, planePoint, tri[..|tri| - 1]);
      var last := tri[|tri| - 1];
      assert forall i | 0 <= i < |rest| :: rest[i] in tri by {
        forall i | 0 <= i < |rest| ensures rest[i] in tri {
          var k :| 0 <= k < |tri| - 1 && tri[k] == rest[i];
          assert tri[..|tri| - 1][k] == tri[k];
        }
      }
      if Distance(n, planePoint, last) >= 0.0 then rest else rest + [last]
  }

  /**
   * What `triangleClippingAgainstPlane` returns: nothing when no vertex is inside,
   * the triangle itself when all are, otherwise the inside part cut into one or two triangles.
   */
  function Clip(m: MathLib, planePoint: Vector, planeNormal: Vector, tri: Triangle): (r: seq<Triangle>)
    ensures |r| <= 2
  {
    var n := Normalise(m, planeNormal);
    var ins := InsidePoints(n, planePoint, tri);
    var outs := OutsidePoints(n, planePoint, tri);
    if |ins| == 0 then []
    else if |ins| == 3 then [tri]
    else if |ins| == 1 then
      [[ins[0], IntersectPlane(m, planePoint, n, ins[0], outs[0]), IntersectPlane(m, planePoint, n, ins[0], outs[1])]]
    else
      var p1 := IntersectPlane(m, planePoint, n, ins[0], outs[0]);
      [[ins[0], ins[1], p1], [ins[1], p1, IntersectPlane(m, planePoint, n, ins[1], outs[0])]]
  }

  /** `triangleClippingAgainstPlane`: sorts the vertices into inside and outside lists, then cuts. */
  method TriangleClippingAgainstPlane(m: MathLib, planePoint: Vector, planeNormal: Vector, triangle: Triangle)
    returns (r: seq<Triangle>)
    ensures r == Clip(m, planePoint, planeNormal, triangle)
  {
    var n := Normalise(m, planeNormal);
    var insidePoints: seq<Vector> := [];
    var outsidePoints: seq<Vector> := [];
    for i := 0 to |triangle|
      invariant insidePoints == InsidePoints(n, planePoint, triangle[..i])
      invariant outsidePoints == OutsidePoints(n, planePoint, triangle[..i])
    {
      assert triangle[..i + 1][..i] == triangle[..i];
      var dist := Distance(n, planePoint, triangle[i]);
      if dist >= 0.0 {
        insidePoints := insidePoints + [triangle[i]];
      } else {
        outsidePoints := outsidePoints + [triangle[i]];
      }
    }
    assert triangle[..|triangle|] == triangle;
    if |insidePoints| == 0 {
      return [];
    }
    if |insidePoints| == 3 {
      return [triangle];
    }
    if |insidePoints| == 1 && |outsidePoints| == 2 {
      var newPoint1 := IntersectPlane(m, planePoint, n, insidePoints[0], outsidePoints[0]);
      var newPoint2 := IntersectPlane(m, planePoint, n, insidePoints[0], outsidePoints[1]);
      return [[insidePoints[0], newPoint1, newPoint2]];
    }
    if |insidePoints| == 2 && |outsidePoints| == 1 {
      var newPointT1 := IntersectPlane(m, planePoint, n, insidePoints[0], outsidePoints[0]);
      var newTriangle1 := [insidePoints[0], insidePoints[1], newPointT1];
      var newPointT2 := IntersectPlane(m, planePoint, n, insidePoints[1], outsidePoints[0]);
      var newTriangle2 := [insidePoints[1], newPointT1, newPointT2];
      return [newTriangle1, newTriangle2];
    }
    assert false;
  }

  // ---------------------------------------------------------------------------
  // Geometry of the clipper, under exact arithmetic and a lawful square root.

  /** `Dot(p, a)` is at least `c`: `p` lies in the closed half-space `{q | q . a >= c}`. */
  predicate InHalfSpace(a: Vector, c: real, p: Vector)
  {
    Dot(p, a) >= c
  }

  /** The point `IntersectPlane` returns lies on the segment from `s` to `e`, at the given ratio. */
  lemma {:induction false} IntersectDot(m: MathLib, planePoint: Vector, planeNormal: Vector, s: Vector, e: Vector, a: Vector)
    ensures var t := Ratio(m, planePoint, planeNormal, s, e);
      Dot(IntersectPlane(m, planePoint, planeNormal, s, e), a) == Dot(s, a) + t * (Dot(e, a) - Dot(s, a))
  {
    Lerp(s, e, Ratio(m, planePoint, planeNormal, s, e), a);
  }

  /** The point `t` of the way from `s` to `e`, dotted with `a`. */
  lemma Lerp(s: Vector, e: Vector, t: real, a: Vector)
    ensures Dot(Add(s, Multiply(Subtract(e, s), t)), a) == Dot(s, a) + t * (Dot(e, a) - Dot(s, a))
  {
    var p := Add(s, Multiply(Subtract(e, s), t));
    assert p == Vector(s.x + (e.x - s.x) * t, s.y + (e.y - s.y) * t, s.z + (e.z - s.z) * t, 1.0);
    LerpDot(s.x, s.y, s.z, e.x, e.y, e.z, a.x, a.y, a.z, t, p.x, p.y, p.z);
  }

  lemma LerpDot(sx: real, sy: real, sz: real, ex: real, ey: real, ez: real, ax: real, ay: real, az: real, t: real,
                px: real, py: real, pz: real)
    requires px == sx + (ex - sx) * t && py == sy + (ey - sy) * t && pz == sz + (ez - sz) * t
    ensures px * ax + py * ay + pz * az
         == (sx * ax + sy * ay + sz * az) + t * ((ex * ax + ey * ay + ez * az) - (sx * ax + sy * ay + sz * az))
  {
  }

  /** A point between two points of a closed half-space is in it too. */
  lemma Between(ds: real, de: real, c: real, t: real)
    requires ds >= c && de >= c && 0.0 <= t <= 1.0
    ensures ds + t * (de - ds) >= c
  {
    if de >= ds {
      if t > 0.0 { ProductSign(t, de - ds); }
    } else {
      ProductSign(ds - de, 1.0 - t);
      assert (ds - de) * (1.0 - t) == (ds - de) - t * (ds - de);
      assert t * (de - ds) == -(t * (ds - de));
    }
  }

  /** A ratio whose numerator lies between its negative denominator and 0 is in [0, 1]. */
  lemma RatioInUnit(num: real, den: real, t: real)
    requires den < num <= 0.0 && t * den == num
    ensures 0.0 <= t <= 1.0
  {
    if t < 0.0 {
      ProductSign(-t, -den);
    }
    if t > 1.0 {
      ProductSign(t - 1.0, -den);
    }
  }

  /** Scaling the normal by a positive factor does not move a point to the other side. */
  lemma SideScale(n: Vector, k: real, planePoint: Vector, p: Vector)
    requires k > 0.0
    ensures Side(Scale(n, k), planePoint, p) == k * Side(n, planePoint, p)
    ensures Side(Scale(n, k), planePoint, p) >= 0.0 <==> Side(n, planePoint, p) >= 0.0
    ensures Side(Scale(n, k), planePoint, p) == 0.0 <==> Side(n, planePoint, p) == 0.0
  {
    DotScale(p, n, k);
    DotScale(planePoint, n, k);
    var d := Side(n, planePoint, p);
    assert k * Dot(p, n) - k * Dot(planePoint, n) == k * d;
    ProductSign(k, d);
    if d < 0.0 {
      ProductSign(k, -d);
      assert k * (-d) == -(k * d);
    }
  }

  lemma SquaredLengthScale(v: Vector, k: real)
    requires k > 0.0 && SquaredLength(v) > 0.0
    ensures SquaredLength(Scale(v, k)) > 0.0
  {
    var u := Scale(v, k);
    ScaledSquaresPositive(v.x, v.y, v.z, k, u.x, u.y, u.z);
  }

  lemma ScaledSquaresPositive(x: real, y: real, z: real, k: real, ux: real, uy: real, uz: real)
    requires k > 0.0 && x * x + y * y + z * z > 0.0
    requires ux == k * x && uy == k * y && uz == k * z
    ensures ux * ux + uy * uy + uz * uz > 0.0
  {
    SquaredFactorPositive(x, y, z, k);
    ScaledSquares(x, y, z, k);
  }

  lemma SquaredFactorPositive(x: real, y: real, z: real, k: real)
    requires k > 0.0 && x * x + y * y + z * z > 0.0
    ensures (k * k) * (x * x + y * y + z * z) > 0.0
  {
  }

  lemma ScaledSquares(x: real, y: real, z: real, k: real)
    ensures (k * x) * (k * x) + (k * y) * (k * y) + (k * z) * (k * z) == (k * k) * (x * x + y * y + z * z)
  {
  }

  /** With a lawful square root and a non-zero normal, normalising keeps every point's side of the plane. */
  lemma NormalisedSide(m: MathLib, n: Vector, planePoint: Vector, p: Vector)
    requires Lawful(m) && SquaredLength(n) > 0.0
    ensures SquaredLength(Normalise(m, n)) > 0.0
    ensures Side(Normalise(m, n), planePoint, p) >= 0.0 <==> Side(n, planePoint, p) >= 0.0
    ensures Side(Normalise(m, n), planePoint, p) == 0.0 <==> Side(n, planePoint, p) == 0.0
  {
    NormaliseIsScale(m, n);
    var k := 1.0 / Length(m, n);
    SideScale(n, k, planePoint, p);
    SquaredLengthScale(n, k);
  }

  /**
   * Intersecting the segment from an inside vertex `s` to an outside vertex `e` (measured with the
   * normalised normal `n`, as the clipper does) divides by a non-zero amount, walks a ratio in [0, 1]
   * and lands exactly on the plane.
   */
  lemma {:induction false} IntersectOnPlane(m: MathLib, planePoint: Vector, n: Vector, s: Vector, e: Vector)
    requires Lawful(m) && SquaredLength(n) > 0.0
    requires Side(n, planePoint, s) >= 0.0 && Side(n, planePoint, e) < 0.0
    ensures var n2 := Normalise(m, n); Dot(e, n2) - Dot(s, n2) != 0.0
    ensures 0.0 <= Ratio(m, planePoint, n, s, e) <= 1.0
    ensures Side(n, planePoint, IntersectPlane(m, planePoint, n, s, e)) == 0.0
  {
    var n2 := Normalise(m, n);
    NormalisedSide(m, n, planePoint, s);
    NormalisedSide(m, n, planePoint, e);
    var ds, de, c := Dot(s, n2), Dot(e, n2), Dot(planePoint, n2);
    assert ds >= c && de < c;
    var t := Ratio(m, planePoint, n, s, e);
    assert t * (de - ds) == c - ds;
    RatioInUnit(c - ds, de - ds, t);
    var q := IntersectPlane(m, planePoint, n, s, e);
    IntersectDot(m, planePoint, n, s, e, n2);
    assert Dot(q, n2) == c;
    NormalisedSide(m, n, planePoint, q);
  }

  /** Every vertex of every triangle in `ts` lies in the half-space `{q | q . a >= c}`. */
  predicate VerticesIn(ts: seq<Triangle>, a: Vector, c: real)
  {
    forall i, j | 0 <= i < |ts| && 0 <= j < 3 :: InHalfSpace(a, c, ts[i][j])
  }

  /**
   * An intersection point the clipper computes from an inside vertex `s` and an outside vertex `e`
   * is inside the clipping half-space, and in every half-space that holds both `s` and `e`.
   */
  lemma {:induction false} IntersectInside(m: MathLib, planePoint: Vector, planeNormal: Vector, s: Vector, e: Vector, a: Vector, c: real)
    requires Lawful(m) && SquaredLength(planeNormal) > 0.0
    requires var n := Normalise(m, planeNormal); Distance(n, planePoint, s) >= 0.0 && Distance(n, planePoint, e) < 0.0
    ensures var q := IntersectPlane(m, planePoint, Normalise(m, planeNormal), s, e);
      InHalfSpace(planeNormal, Dot(planePoint, planeNormal), q) &&
      (InHalfSpace(a, c, s) && InHalfSpace(a, c, e) ==> InHalfSpace(a, c, q))
  {
    var n := Normalise(m, planeNormal);
    NormalisedSide(m, planeNormal, planePoint, s);
    DistanceIsSide(n, planePoint, s);
    DistanceIsSide(n, planePoint, e);
    IntersectOnPlane(m, planePoint, n, s, e);
    var q := IntersectPlane(m, planePoint, n, s, e);
    NormalisedSide(m, planeNormal, planePoint, q);
    IntersectDot(m, planePoint, n, s, e, a);
    if InHalfSpace(a, c, s) && InHalfSpace(a, c, e) {
      Between(Dot(s, a), Dot(e, a), c, Ratio(m, planePoint, n, s, e));
    }
  }

  /**
   * Under exact arithmetic, every vertex the clipper emits lies in the closed half-space of the plane,
   * and any half-space holding the whole input triangle holds every emitted triangle.
   */
  lemma {:induction false} ClipInside(m: MathLib, planePoint: Vector, planeNormal: Vector, tri: Triangle, a: Vector, c: real)
    requires Lawful(m) && SquaredLength(planeNormal) > 0.0
    ensures VerticesIn(Clip(m, planePoint, planeNormal, tri), planeNormal, Dot(planePoint, planeNormal))
    ensures VerticesIn([tri], a, c) ==> VerticesIn(Clip(m, planePoint, planeNormal, tri), a, c)
  {
    var ins := InsidePoints(Normalise(m, planeNormal), planePoint, tri);
    if |ins| == 3 {
      VertexSides(m, planePoint, planeNormal, tri, a, c);
      InsideAll(Normalise(m, planeNormal), planePoint, tri);
    } else if |ins| == 1 {
      ClipOneInside(m, planePoint, planeNormal, tri, a, c);
    } else if |ins| == 2 {
      ClipTwoInside(m, planePoint, planeNormal, tri, a, c);
    }
  }

  /** `ClipInside` when one vertex is inside: one triangle from it and two intersection points. */
  lemma ClipOneInside(m: MathLib, planePoint: Vector, planeNormal: Vector, tri: Triangle, a: Vector, c: real)
    requires Lawful(m) && SquaredLength(planeNormal) > 0.0
    requires |InsidePoints(Normalise(m, planeNormal), planePoint, tri)| == 1
    ensures VerticesIn(Clip(m, planePoint, planeNormal, tri), planeNormal, Dot(planePoint, planeNormal))
    ensures VerticesIn([tri], a, c) ==> VerticesIn(Clip(m, planePoint, planeNormal, tri), a, c)
  {
    var n := Normalise(m, planeNormal);
    var ins := InsidePoints(n, planePoint, tri);
    var outs := OutsidePoints(n, planePoint, tri);
    var p1 := IntersectPlane(m, planePoint, n, ins[0], outs[0]);
    var p2 := IntersectPlane(m, planePoint, n, ins[0], outs[1]);
    assert Clip(m, planePoint, planeNormal, tri) == [[ins[0], p1, p2]];
    VertexSides(m, planePoint, planeNormal, tri, a, c);
    assert ins[0] in ins && outs[0] in tri && outs[1] in tri;
    IntersectInside(m, planePoint, planeNormal, ins[0], outs[0], a, c);
    IntersectInside(m, planePoint, planeNormal, ins[0], outs[1], a, c);
    OneTriangleIn(ins[0], p1, p2, planeNormal, Dot(planePoint, planeNormal));
    if VerticesIn([tri], a, c) {
      OneTriangleIn(ins[0], p1, p2, a, c);
    }
  }

  /** `ClipInside` when two vertices are inside: two triangles sharing an intersection point. */
  lemma ClipTwoInside(m: MathLib, planePoint: Vector, planeNormal: Vector, tri: Triangle, a: Vector, c: real)
    requires Lawful(m) && SquaredLength(planeNormal) > 0.0
    requires |InsidePoints(Normalise(m, planeNormal), planePoint, tri)| == 2
    ensures VerticesIn(Clip(m, planePoint, planeNormal, tri), planeNormal, Dot(planePoint, planeNormal))
    ensures VerticesIn([tri], a, c) ==> VerticesIn(Clip(m, planePoint, planeNormal, tri), a, c)
  {
    var n := Normalise(m, planeNormal);
    var ins := InsidePoints(n, planePoint, tri);
    var outs := OutsidePoints(n, planePoint, tri);
    var p1 := IntersectPlane(m, planePoint, n, ins[0], outs[0]);
    var p2 := IntersectPlane(m, planePoint, n, ins[1], outs[0]);
    assert Clip(m, planePoint, planeNormal, tri) == [[ins[0], ins[1], p1], [ins[1], p1, p2]];
    VertexSides(m, planePoint, planeNormal, tri, a, c);
    assert ins[0] in ins && ins[1] in ins && ins[0] in tri && ins[1] in tri && outs[0] in tri;
    IntersectInside(m, planePoint, planeNormal, ins[0], outs[0], a, c);
    IntersectInside(m, planePoint, planeNormal, ins[1], outs[0], a, c);
    TwoTrianglesIn(ins[0], ins[1], p1, p2, planeNormal, Dot(planePoint, planeNormal));
    if VerticesIn([tri], a, c) {
      TwoTrianglesIn(ins[0], ins[1], p1, p2, a, c);
    }
  }

  /** A triangle whose three corners lie in a half-space. */
  lemma OneTriangleIn(v0: Vector, v1: Vector, v2: Vector, a: Vector, c: real)
    requires InHalfSpace(a, c, v0) && InHalfSpace(a, c, v1) && InHalfSpace(a, c, v2)
    ensures VerticesIn([[v0, v1, v2]], a, c)
  {
    var ts: seq<Triangle> := [[v0, v1, v2]];
    forall i, j | 0 <= i < 1 && 0 <= j < 3
      ensures InHalfSpace(a, c, ts[i][j])
    {
    }
  }

  /** The two triangles `ClipTwoInside` names, when all four points lie in a half-space. */
  lemma TwoTrianglesIn(v0: Vector, v1: Vector, p1: Vector, p2: Vector, a: Vector, c: real)
    requires InHalfSpace(a, c, v0) && InHalfSpace(a, c, v1) && InHalfSpace(a, c, p1) && InHalfSpace(a, c, p2)
    ensures VerticesIn([[v0, v1, p1], [v1, p1, p2]], a, c)
  {
    var ts: seq<Triangle> := [[v0, v1, p1], [v1, p1, p2]];
    forall i, j | 0 <= i < 2 && 0 <= j < 3
      ensures InHalfSpace(a, c, ts[i][j])
    {
    }
  }

  /**
   * The inside vertices lie in the closed half-space of the plane, and every vertex lies in
   * any half-space holding the whole triangle.
   */
  lemma VertexSides(m: MathLib, planePoint: Vector, planeNormal: Vector, tri: Triangle, a: Vector, c: real)
    requires Lawful(m) && SquaredLength(planeNormal) > 0.0
    ensures var ins := InsidePoints(Normalise(m, planeNormal), planePoint, tri);
      forall v | v in ins :: InHalfSpace(planeNormal, Dot(planePoint, planeNormal), v)
    ensures VerticesIn([tri], a, c) ==> forall v | v in tri :: InHalfSpace(a, c, v)
  {
    var n := Normalise(m, planeNormal);
    var ins := InsidePoints(n, planePoint, tri);
    forall v | v in ins
      ensures InHalfSpace(planeNormal, Dot(planePoint, planeNormal), v)
    {
      DistanceIsSide(n, planePoint, v);
      NormalisedSide(m, planeNormal, planePoint, v);
    }
    if VerticesIn([tri], a, c) {
      forall v | v in tri
        ensures InHalfSpace(a, c, v)
      {
        var j :| 0 <= j < 3 && tri[j] == v;
        assert [tri][0][j] == v;
      }
    }
  }

  /** When every vertex is inside, the inside list is the whole triangle. */
  lemma {:induction false} InsideAll(n: Vector, planePoint: Vector, tri: seq<Vector>)
    requires |InsidePoints(n, planePoint, tri)| == |tri|
    ensures InsidePoints(n, planePoint, tri) == tri
    decreases |tri|
  {
    if |tri| > 0 {
      var front := tri[..|tri| - 1];
      var last := tri[|tri| - 1];
      if Distance(n, planePoint, last) >= 0.0 {
        InsideAll(n, planePoint, front);
        assert front + [last] == tri;
      }
    }
  }

  /** What `triangleClippingAgainstPlane` does for each number of inside vertices. */
  lemma ClipCases(m: MathLib, planePoint: Vector, planeNormal: Vector, tri: Triangle)
    ensures var ins := InsidePoints(Normalise(m, planeNormal), planePoint, tri);
      && (|ins| == 0 <==> Clip(m, planePoint, planeNormal, tri) == [])
      && (|ins| == 3 ==> Clip(m, planePoint, planeNormal, tri) == [tri])
      && (|ins| == 1 ==> |Clip(m, planePoint, planeNormal, tri)| == 1 && Clip(m, planePoint, planeNormal, tri)[0][0] == ins[0])
      && (|ins| == 2 ==>
            (|Clip(m, planePoint, planeNormal, tri)| == 2
            && Clip(m, planePoint, planeNormal, tri)[0][..2] == ins
            && Clip(m, planePoint, planeNormal, tri)[1][0] == ins[1]
            && Clip(m, planePoint, planeNormal, tri)[1][1] == Clip(m, planePoint, planeNormal, tri)[0][2]))
  {
  }

  /** The outputs of `f` for each element of `ts`, concatenated in order. */
  function FlatMap<T>(ts: seq<T>, f: T -> seq<T>): seq<T>
  {
    if |ts| == 0 then [] else FlatMap(ts[..|ts| - 1], f) + f(ts[|ts| - 1])
  }

  /** `clipTriangleArray`: pushes every triangle `clipFn` returns for each input, in order. */
  method ClipTriangleArray<T>(triangles: seq<T>, clipFn: T -> seq<T>) returns (result: seq<T>)
    ensures result == FlatMap(triangles, clipFn)
  {
    result := [];
    for i := 0 to |triangles|
      invariant result == FlatMap(triangles[..i], clipFn)
    {
      var clippedTr := clipFn(triangles[i]);
      ghost var before := result;
      for j := 0 to |clippedTr|
        invariant result == before + clippedTr[..j]
      {
        result := result + [clippedTr[j]];
      }
      assert clippedTr[..|clippedTr|] == clippedTr;
      assert triangles[..i + 1][..i] == triangles[..i];
    }
    assert triangles[..|triangles|] == triangles;
  }

  /** An element of the result comes from the output of `f` for some input, and every such output is in the result. */
  lemma {:induction false} FlatMapMembers<T>(ts: seq<T>, f: T -> seq<T>, y: T)
    ensures y in FlatMap(ts, f) <==> exists i | 0 <= i < |ts| :: y in f(ts[i])
  {
    if |ts| > 0 {
      var front := ts[..|ts| - 1];
      FlatMapMembers(front, f, y);
      if y in FlatMap(front, f) {
        var i :| 0 <= i < |front| && y in f(front[i]);
        assert ts[i] == front[i];
      }
      if exists i | 0 <= i < |ts| :: y in f(ts[i]) {
        var i :| 0 <= i < |ts| && y in f(ts[i]);
        if i < |ts| - 1 {
          assert front[i] == ts[i];
        }
      }
    }
  }

  /** When no input yields more than `k` outputs, the result has at most `k` times as many elements as the input. */
  lemma {:induction false} FlatMapLength<T>(ts: seq<T>, f: T -> seq<T>, k: nat)
    requires forall i | 0 <= i < |ts| :: |f(ts[i])| <= k
    ensures |FlatMap(ts, f)| <= k * |ts|
  {
    if |ts| > 0 {
      var front := ts[..|ts| - 1];
      assert forall i | 0 <= i < |front| :: front[i] == ts[i];
      FlatMapLength(front, f, k);
    }
  }

  /** Clipping an array against a plane at most doubles it. */
  lemma ClipArrayLength(m: MathLib, planePoint: Vector, planeNormal: Vector, ts: seq<Triangle>)
    ensures |FlatMap(ts, (t: Triangle) => Clip(m, planePoint, planeNormal, t))| <= 2 * |ts|
  {
    FlatMapLength(ts, (t: Triangle) => Clip(m, planePoint, planeNormal, t), 2);
  }
}
