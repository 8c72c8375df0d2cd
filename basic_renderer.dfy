/**
 * The first library's `Renderer`: it draws a wireframe shape by turning every point about x,
 * then y, then z, projecting it with the factor `1 / (distance - z)`, scaling it by the
 * shape's size and marking it on the canvas, and then stroking one line per edge between the
 * projected points. The canvas keeps its drawing calls as a list; screen y grows downwards and
 * this renderer does not flip it.
 */
module BasicRenderer {
  import opened Wrappers
  import opened JsNumber
  import opened ShapeCommon
  import opened Vec3
  import BasicShape
  import EngineRenderer

  /** The message `matrixMultiplyPoint` throws for a matrix of more than three rows. */
  const ProjectionTooLong := "Projection length cannot be longer than point 0.5 (3)"

  /** The colour of every dot and line this renderer draws. */
  const Stroke: Paint := Named("#FFFFFF")

  // ---------------------------------------------------------------------------
  // Point arithmetic

  /**
   * What `matrixMultiplyPoint` computes for a matrix of at most three rows: component `i` below
   * the row count sums `matrix[i][j] * point[j]` over the first as many `j` as there are rows,
   * and the components from the row count on stay zero.
   */
  function Product(matrix: seq<Vector3>, point: Vector3): Vector3
    requires |matrix| <= 3
  {
    var n := |matrix|;
    [if 0 < n then RowSum(matrix[0], point, n) else 0.0,
     if 1 < n then RowSum(matrix[1], point, n) else 0.0,
     if 2 < n then RowSum(matrix[2], point, n) else 0.0]
  }

  /**
   * `matrixMultiplyPoint(matrix, point)`: throws for a matrix of more than three rows; otherwise
   * a new array, zero at first, into which the nested loops accumulate the row products.
   */
  method MultiplyPoint(matrix: seq<Vector3>, point: Vector3) returns (r: Result<array<real>, string>)
    ensures r.Success? <==> |matrix| <= 3
    ensures r.Failure? ==> r.error == ProjectionTooLong
    ensures r.Success? ==> fresh(r.value) && r.value.Length == 3
    ensures r.Success? ==> forall i | 0 <= i < 3 ::
      r.value[i] == if i < |matrix| then RowSum(matrix[i], point, |matrix|) else 0.0
    ensures r.Success? ==> r.value[..] == Product(matrix, point)
  {
    if |matrix| > 3 {
      return Failure(ProjectionTooLong);
    }
    var result := new real[3](_ => 0.0);
    for i := 0 to |matrix|
      invariant forall k | 0 <= k < i :: result[k] == RowSum(matrix[k], point, |matrix|)
      invariant forall k | i <= k < 3 :: result[k] == 0.0
    {
      for j := 0 to |matrix|
        invariant result[i] == RowSum(matrix[i], point, j)
        invariant forall k | 0 <= k < i :: result[k] == RowSum(matrix[k], point, |matrix|)
        invariant forall k | i < k < 3 :: result[k] == 0.0
      {
        result[i] := result[i] + matrix[i][j] * point[j];
      }
    }
    MultiplyPointIsProduct(matrix, point, result[..]);
    return Success(result);
  }

  /** The array `matrixMultiplyPoint` fills holds `Product`. */
  lemma MultiplyPointIsProduct(matrix: seq<Vector3>, point: Vector3, result: seq<real>)
    requires |matrix| <= 3 && |result| == 3
    requires forall i | 0 <= i < 3 :: result[i] == if i < |matrix| then RowSum(matrix[i], point, |matrix|) else 0.0
    ensures result == Product(matrix, point)
  {
  }

  /** With three rows the product is what `vectorMatrixMultiply` of the `Engine` library computes. */
  lemma ProductOfThreeRows(matrix: seq<Vector3>, point: Vector3)
    requires |matrix| == 3
    ensures Product(matrix, point) == Transform(matrix, point).value
  {
    RowSumDot(matrix[0], point);
    RowSumDot(matrix[1], point);
    RowSumDot(matrix[2], point);
  }

  /** The rows of the perspective step: `k` on the diagonal of the first two rows, and no third row. */
  function Projection(k: real): seq<Vector3>
  {
    [[k, 0.0, 0.0], [0.0, k, 0.0]]
  }

  /** The perspective step scales x and y by `k` and flattens z to zero. */
  lemma ProjectionScales(k: real, point: Vector3)
    ensures Product(Projection(k), point) == [k * point[0], k * point[1], 0.0]
  {
    var rows := Projection(k);
    assert RowSum(rows[0], point, 2) == k * point[0] by {
      assert RowSum(rows[0], point, 1) == k * point[0];
    }
    assert RowSum(rows[1], point, 2) == k * point[1] by {
      assert RowSum(rows[1], point, 1) == 0.0;
    }
  }

  /** Every component of a list of numbers multiplied by one number. */
  function Scaled(v: seq<real>, multiplier: real): seq<real>
  {
    seq(|v|, i requires 0 <= i < |v| => v[i] * multiplier)
  }

  /** `scalePoint(point, multiplier)`: every component of the array multiplied in place. */
  method ScalePoint(point: array<real>, multiplier: real)
    modifies point
    ensures point[..] == Scaled(old(point[..]), multiplier)
  {
    ghost var before := point[..];
    for i := 0 to point.Length
      invariant forall k | 0 <= k < i :: point[k] == before[k] * multiplier
      invariant forall k | i <= k < point.Length :: point[k] == before[k]
    {
      point[i] := point[i] * multiplier;
    }
    assert point[..] == Scaled(before, multiplier) by {
      forall k | 0 <= k < point.Length
        ensures point[..][k] == Scaled(before, multiplier)[k]
      {
      }
    }
  }

  /** Scaling a three-component point in place computes `vectorMultiply` of the `Engine` library. */
  lemma ScaledIsMultiply(v: Vector3, multiplier: real)
    ensures Scaled(v, multiplier) == Multiply(v, multiplier)
  {
    forall i | 0 <= i < 3
      ensures Scaled(v, multiplier)[i] == Multiply(v, multiplier)[i]
    {
    }
  }

  // ---------------------------------------------------------------------------
  // What drawShape draws

  /** The parts of a shape `drawShape` reads besides its points and edges. */
  datatype Pose = Pose(rotationX: real, rotationY: real, rotationZ: real, distance: real, size: real)

  function PoseOf(shape: BasicShape.Shape): Pose
    reads shape
  {
    Pose(shape.rotationX, shape.rotationY, shape.rotationZ, shape.distance, shape.size)
  }

  /** A point turned about x, then y, then z by the shape's angles, as `drawShape` turns it. */
  function Turned(m: MathLib, pose: Pose, p: Vector3): Vector3
  {
    Product(RotationRows(m, pose.rotationZ, Z),
      Product(RotationRows(m, pose.rotationY, Y), Product(RotationRows(m, pose.rotationX, X), p)))
  }

  /** The turns are those of `vectorRotate` of the `Engine` library, about x first, then y, then z. */
  lemma TurnedInOrder(m: MathLib, pose: Pose, p: Vector3)
    ensures Turned(m, pose, p) == Rotate(m, Rotate(m, Rotate(m, p, pose.rotationX, X), pose.rotationY, Y), pose.rotationZ, Z)
  {
    var a := Product(RotationRows(m, pose.rotationX, X), p);
    ProductOfThreeRows(RotationRows(m, pose.rotationX, X), p);
    var b := Product(RotationRows(m, pose.rotationY, Y), a);
    ProductOfThreeRows(RotationRows(m, pose.rotationY, Y), a);
    ProductOfThreeRows(RotationRows(m, pose.rotationZ, Z), b);
  }

  /**
   * One point as `drawShape` places it: turned, then projected with `k = 1 / (distance - z)` of
   * the turned point, then scaled by the size.
   */
  function Placed(m: MathLib, pose: Pose, p: Vector3): Vector3
  {
    var turned := Turned(m, pose, p);
    var k := Div(1.0, pose.distance - turned[2]);
    Multiply(Product(Projection(k), turned), pose.size)
  }

  /**
   * A placed point has the turned point's x and y scaled by `size / (distance - z)` and its z
   * flattened to zero.
   */
  lemma PlacedForm(m: MathLib, pose: Pose, p: Vector3)
    ensures Placed(m, pose, p)[0] == Div(1.0, pose.distance - Turned(m, pose, p)[2]) * Turned(m, pose, p)[0] * pose.size
    ensures Placed(m, pose, p)[1] == Div(1.0, pose.distance - Turned(m, pose, p)[2]) * Turned(m, pose, p)[1] * pose.size
    ensures Placed(m, pose, p)[2] == 0.0
  {
    var turned := Turned(m, pose, p);
    var k := Div(1.0, pose.distance - turned[2]);
    ProjectionScales(k, turned);
    var placed := Placed(m, pose, p);
    assert placed == Multiply([k * turned[0], k * turned[1], 0.0], pose.size);
  }

  /** Where a point lands on the canvas: offset from the centre, y growing downwards, no flip. */
  function Screen(centerX: real, centerY: real, p: Vector3): (q: EngineRenderer.Pixel)
  {
    EngineRenderer.Pixel(centerX + p[0], centerY + p[1])
  }

  /**
   * Unlike the `Engine` renderer's, the y axis is not flipped: a point with a larger y is drawn
   * lower on the canvas, and the origin lands on the centre.
   */
  lemma ScreenKeepsY(centerX: real, centerY: real, p: Vector3, q: Vector3)
    ensures p[1] > q[1] ==> Screen(centerX, centerY, p).y > Screen(centerX, centerY, q).y
    ensures p[0] > q[0] ==> Screen(centerX, centerY, p).x > Screen(centerX, centerY, q).x
    ensures p[0] == 0.0 && p[1] == 0.0 ==> Screen(centerX, centerY, p) == EngineRenderer.Pixel(centerX, centerY)
  {
  }

  /** The dots for a list of placed points, in order. */
  function Dots(centerX: real, centerY: real, projected: seq<Vector3>): (cs: seq<EngineRenderer.Command>)
    ensures |cs| == |projected|
    ensures forall i | 0 <= i < |cs| :: cs[i] == EngineRenderer.Mark(Screen(centerX, centerY, projected[i]), Stroke)
  {
    if |projected| == 0 then []
    else Dots(centerX, centerY, projected[..|projected| - 1]) + [EngineRenderer.Mark(Screen(centerX, centerY, projected[|projected| - 1]), Stroke)]
  }

  /** One more placed point adds its dot at the end. */
  lemma DotsAppend(centerX: real, centerY: real, projected: seq<Vector3>, p: Vector3)
    ensures Dots(centerX, centerY, projected + [p]) ==
      Dots(centerX, centerY, projected) + [EngineRenderer.Mark(Screen(centerX, centerY, p), Stroke)]
  {
    assert (projected + [p])[..|projected|] == projected;
  }

  /** The lines for a list of edges between placed points, in order. */
  function Strokes(centerX: real, centerY: real, projected: seq<Vector3>, edges: seq<BasicShape.Edge>): (cs: seq<EngineRenderer.Command>)
    requires BasicShape.EdgesWithin(edges, |projected|)
    ensures |cs| == |edges|
    ensures forall k | 0 <= k < |cs| ::
      cs[k] == EngineRenderer.Line(Screen(centerX, centerY, projected[edges[k].0]), Screen(centerX, centerY, projected[edges[k].1]), Stroke)
  {
    if |edges| == 0 then []
    else
      var e := edges[|edges| - 1];
      Strokes(centerX, centerY, projected, edges[..|edges| - 1]) + [EngineRenderer.Line(Screen(centerX, centerY, projected[e.0]), Screen(centerX, centerY, projected[e.1]), Stroke)]
  }

  class Renderer {
    const canvas: EngineRenderer.Canvas
    const centerX: real
    const centerY: real

    constructor(canvas: EngineRenderer.Canvas)
      ensures this.canvas == canvas
      ensures centerX == canvas.width / 2.0 && centerY == canvas.height / 2.0
    {
      this.canvas := canvas;
      centerX := canvas.width / 2.0;
      centerY := canvas.height / 2.0;
    }

    /** `drawPoint`: a white dot at the point's place. */
    method DrawPoint(point: Vector3)
      modifies canvas`commands
      ensures canvas.commands == old(canvas.commands) + [EngineRenderer.Mark(Screen(centerX, centerY, point), Stroke)]
    {
      canvas.commands := canvas.commands + [EngineRenderer.Mark(Screen(centerX, centerY, point), Stroke)];
    }

    /** `drawLine`: a white line between the two points' places. */
    method DrawLine(a: Vector3, b: Vector3)
      modifies canvas`commands
      ensures canvas.commands == old(canvas.commands) + [EngineRenderer.Line(Screen(centerX, centerY, a), Screen(centerX, centerY, b), Stroke)]
    {
      canvas.commands := canvas.commands + [EngineRenderer.Line(Screen(centerX, centerY, a), Screen(centerX, centerY, b), Stroke)];
    }

    /** One pass of the point loop of `drawShape`: the point turned, projected, scaled and marked. */
    method DrawPlaced(m: MathLib, pose: Pose, p: Vector3) returns (point: Vector3)
      modifies canvas`commands
      ensures point == Placed(m, pose, p)
      ensures canvas.commands == old(canvas.commands) + [EngineRenderer.Mark(Screen(centerX, centerY, point), Stroke)]
    {
      var rotationX := RotationRows(m, pose.rotationX, X);
      var rotationY := RotationRows(m, pose.rotationY, Y);
      var rotationZ := RotationRows(m, pose.rotationZ, Z);
      var a := MultiplyPoint(rotationX, p);
      var b := MultiplyPoint(rotationY, a.value[..]);
      var c := MultiplyPoint(rotationZ, b.value[..]);

      var z := Div(1.0, pose.distance - c.value[2]);
      var projection := Projection(z);
      var d := MultiplyPoint(projection, c.value[..]);

      ghost var unscaled := d.value[..];
      ScalePoint(d.value, pose.size);
      point := d.value[..];
      ScaledIsMultiply(unscaled, pose.size);
      DrawPoint(point);
    }

    /**
     * `drawShape`: one dot per point, in the order of the points, then one line per edge, in the
     * order of the edges, between the placed points it names. The shape itself is not changed.
     */
    method DrawShape(m: MathLib, shape: BasicShape.Shape) returns (projected: seq<Vector3>)
      requires BasicShape.EdgesWithin(shape.edges, |shape.points|)
      modifies canvas`commands
      ensures |projected| == |shape.points|
      ensures forall i | 0 <= i < |projected| :: projected[i] == Placed(m, PoseOf(shape), shape.points[i])
      ensures canvas.commands == old(canvas.commands) + Dots(centerX, centerY, projected) + Strokes(centerX, centerY, projected, shape.edges)
    {
      projected := DrawPoints(m, PoseOf(shape), shape.points);
      DrawEdges(projected, shape.edges);
    }

    /** The point loop of `drawShape`: every point placed and marked, in order. */
    method DrawPoints(m: MathLib, pose: Pose, points: seq<Vector3>) returns (projected: seq<Vector3>)
      modifies canvas`commands
      ensures |projected| == |points|
      ensures forall i | 0 <= i < |projected| :: projected[i] == Placed(m, pose, points[i])
      ensures canvas.commands == old(canvas.commands) + Dots(centerX, centerY, projected)
    {
      projected := [];
      for i := 0 to |points|
        invariant |projected| == i
        invariant forall k | 0 <= k < i :: projected[k] == Placed(m, pose, points[k])
        invariant canvas.commands == old(canvas.commands) + Dots(centerX, centerY, projected)
      {
        ghost var before := canvas.commands;
        var point := DrawPlaced(m, pose, points[i]);
        DotsAppend(centerX, centerY, projected, point);
        assert canvas.commands == before + [EngineRenderer.Mark(Screen(centerX, centerY, point), Stroke)];
        projected := projected + [point];
      }
    }

    /** The edge loop of `drawShape`: one line per edge between the placed points, in order. */
    method DrawEdges(projected: seq<Vector3>, edges: seq<BasicShape.Edge>)
      requires BasicShape.EdgesWithin(edges, |projected|)
      modifies canvas`commands
      ensures canvas.commands == old(canvas.commands) + Strokes(centerX, centerY, projected, edges)
    {
      for k := 0 to |edges|
        invariant canvas.commands == old(canvas.commands) + Strokes(centerX, centerY, projected, edges[..k])
      {
        var edge := edges[k];
        DrawLine(projected[edge.0], projected[edge.1]);
        assert edges[..k + 1][..k] == edges[..k];
      }
      assert edges[..|edges|] == edges;
    }

    /** `clear`: the canvas is emptied. */
    method Clear()
      modifies canvas`commands
      ensures canvas.commands == []
    {
      canvas.commands := [];
    }
  }
}
