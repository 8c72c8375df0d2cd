/**
 * The three-component vector library of the `Engine` renderer: vectors and matrix rows are
 * JavaScript arrays `[x, y, z]`, a matrix is an array of rows, and `vectorMatrixMultiply`
 * applies a matrix to a column vector. The older `src/lib/Vector.ts` repeats the addition,
 * subtraction, normal, dot product, rotation, projection and matrix product unchanged; they
 * are modelled once, here.
 */
module Vec3 {
  import opened Wrappers
  import opened JsNumber

  /** An `[x, y, z]` array. */
  type Vector3 = v: seq<real> | |v| == 3 witness [0.0, 0.0, 0.0]

  /** The message `vectorMatrixMultiply` throws when the matrix has as many rows as the vector has components. */
  const LengthMismatch := "Matrix length must be be the same size as vector length"

  /** The message of the `TypeError` thrown when a row that does not exist is read. */
  const MissingRow := "Cannot read properties of undefined"

  // ---------------------------------------------------------------------------
  // Operations

  /** `vectorAdd`. */
  function Add(a: Vector3, b: Vector3): Vector3
  {
    [a[0] + b[0], a[1] + b[1], a[2] + b[2]]
  }

  /** `vectorSubtract`. */
  function Subtract(a: Vector3, b: Vector3): Vector3
  {
    [a[0] - b[0], a[1] - b[1], a[2] - b[2]]
  }

  /** `vectorMultiply` of the `Engine` library: every component times a number. */
  function Multiply(v: Vector3, num: real): Vector3
  {
    [v[0] * num, v[1] * num, v[2] * num]
  }

  /** `vectorDevide` of the `Engine` library: every component divided by a number. */
  function Divide(v: Vector3, num: real): Vector3
  {
    [Div(v[0], num), Div(v[1], num), Div(v[2], num)]
  }

  /** Subtracting what was added gives the vector back, and adding what was subtracted does too. */
  lemma AddSubtractInverse(a: Vector3, b: Vector3)
    ensures Subtract(Add(a, b), b) == a
    ensures Add(Subtract(a, b), b) == a
  {
  }

  /** Dividing by the number a vector was multiplied by gives it back. */
  lemma MultiplyDivideInverse(v: Vector3, num: real)
    requires num != 0.0
    ensures Divide(Multiply(v, num), num) == v
  {
    assert v[0] * num / num == v[0] && v[1] * num / num == v[1] && v[2] * num / num == v[2];
  }

  /** `vectorLength`: the square root of the sum of the squared components. */
  function Length(m: MathLib, v: Vector3): real
  {
    m.sqrt(v[0] * v[0] + v[1] * v[1] + v[2] * v[2])
  }

  /** `vectorNormalise`: every component divided by the length. */
  function Normalise(m: MathLib, v: Vector3): Vector3
  {
    var len := Length(m, v);
    [Div(v[0], len), Div(v[1], len), Div(v[2], len)]
  }

  /** A vector that is not zero is normalised by scaling it with a positive factor, the inverse of its length. */
  lemma NormaliseScales(m: MathLib, v: Vector3)
    requires Lawful(m) && v != [0.0, 0.0, 0.0]
    ensures Length(m, v) > 0.0
    ensures Normalise(m, v) == Multiply(v, 1.0 / Length(m, v))
  {
    SquaresPositive(v);
    var len := Length(m, v);
    assert len > 0.0;
    var k := 1.0 / len;
    DivByInverse(v[0], len);
    DivByInverse(v[1], len);
    DivByInverse(v[2], len);
    forall i | 0 <= i < 3 ensures Normalise(m, v)[i] == Multiply(v, k)[i] {}
  }

  /** The sum of the squared components of a vector that is not zero is positive. */
  lemma SquaresPositive(v: Vector3)
    requires v != [0.0, 0.0, 0.0]
    ensures v[0] * v[0] + v[1] * v[1] + v[2] * v[2] > 0.0
  {
    assert v == [v[0], v[1], v[2]];
    if v[0] != 0.0 {
      assert v[0] * v[0] > 0.0;
    } else if v[1] != 0.0 {
      assert v[1] * v[1] > 0.0;
    } else {
      assert v[2] * v[2] > 0.0;
    }
  }

  /** Dividing by a non-zero number is multiplying by its inverse. */
  lemma DivByInverse(a: real, b: real)
    requires b != 0.0
    ensures Div(a, b) == a * (1.0 / b)
  {
  }

  // ---------------------------------------------------------------------------
  // Calculations

  /** `vectorDotProduct(vector, normal)`, summed in the order the source writes it. */
  function Dot(vector: Vector3, normal: Vector3): real
  {
    normal[0] * vector[0] + normal[1] * vector[1] + normal[2] * vector[2]
  }

  /** The dot product does not depend on the order of its arguments. */
  lemma DotSymmetric(a: Vector3, b: Vector3)
    ensures Dot(a, b) == Dot(b, a)
  {
  }

  /** `vectorCrossProduct`. */
  function Cross(a: Vector3, b: Vector3): Vector3
  {
    [a[1] * b[2] - a[2] * b[1], a[2] * b[0] - a[0] * b[2], a[0] * b[1] - a[1] * b[0]]
  }

  /** The cross product is perpendicular to both of its factors. */
  lemma CrossOrthogonal(a: Vector3, b: Vector3)
    ensures Dot(Cross(a, b), a) == 0.0 && Dot(Cross(a, b), b) == 0.0
  {
    var c := Cross(a, b);
    assert Dot(c, a) == a[0] * (a[1] * b[2] - a[2] * b[1]) + a[1] * (a[2] * b[0] - a[0] * b[2]) + a[2] * (a[0] * b[1] - a[1] * b[0]);
    assert Dot(c, b) == b[0] * (a[1] * b[2] - a[2] * b[1]) + b[1] * (a[2] * b[0] - a[0] * b[2]) + b[2] * (a[0] * b[1] - a[1] * b[0]);
  }

  /** The normal `vectorNormal` builds before normalising: the cross product written out on the two edges from `a`. */
  function RawNormal(a: Vector3, b: Vector3, c: Vector3): Vector3
  {
    var lineA := Subtract(b, a);
    var lineB := Subtract(c, a);
    [lineA[1] * lineB[2] - lineA[2] * lineB[1],
     lineA[2] * lineB[0] - lineA[0] * lineB[2],
     lineA[0] * lineB[1] - lineA[1] * lineB[0]]
  }

  /** `vectorNormal` (and `calculateNormal` of the older library): the normalised edge cross product. */
  function Normal(m: MathLib, a: Vector3, b: Vector3, c: Vector3): Vector3
  {
    Normalise(m, RawNormal(a, b, c))
  }

  /**
   * The written-out normal is the cross product of the edges `b - a` and `c - a`, so it is
   * perpendicular to both edges, and so is the normalised one.
   */
  lemma NormalOrthogonal(m: MathLib, a: Vector3, b: Vector3, c: Vector3)
    requires Lawful(m)
    ensures RawNormal(a, b, c) == Cross(Subtract(b, a), Subtract(c, a))
    ensures Dot(RawNormal(a, b, c), Subtract(b, a)) == 0.0 && Dot(RawNormal(a, b, c), Subtract(c, a)) == 0.0
    ensures Dot(Normal(m, a, b, c), Subtract(b, a)) == 0.0 && Dot(Normal(m, a, b, c), Subtract(c, a)) == 0.0
  {
    var n := RawNormal(a, b, c);
    CrossOrthogonal(Subtract(b, a), Subtract(c, a));
    if n != [0.0, 0.0, 0.0] {
      NormaliseScales(m, n);
      var k := 1.0 / Length(m, n);
      DotScale(n, k, Subtract(b, a));
      DotScale(n, k, Subtract(c, a));
    } else {
      assert Normal(m, a, b, c) == [0.0, 0.0, 0.0];
    }
  }

  /** Scaling a vector scales its dot product with any other. */
  lemma DotScale(v: Vector3, k: real, w: Vector3)
    ensures Dot(Multiply(v, k), w) == k * Dot(v, w)
  {
    assert Dot(Multiply(v, k), w) == w[0] * (v[0] * k) + w[1] * (v[1] * k) + w[2] * (v[2] * k);
  }

  // ---------------------------------------------------------------------------
  // Matrices

  /** The sum of the first `n` products `row[j] * v[j]`, as `vectorMatrixMultiply` accumulates them. */
  function RowSum(row: Vector3, v: Vector3, n: nat): real
    requires n <= 3
  {
    if n == 0 then 0.0 else RowSum(row, v, n - 1) + row[n - 1] * v[n - 1]
  }

  /** All three products summed are the dot product of the vector with the row. */
  lemma RowSumDot(row: Vector3, v: Vector3)
    ensures RowSum(row, v, 3) == Dot(v, row)
  {
    assert RowSum(row, v, 1) == row[0] * v[0];
  }

  /**
   * What `vectorMatrixMultiply(matrix, vector)` returns: the error when the matrix has not
   * exactly three rows, otherwise the dot product of the vector with each row.
   */
  function Transform(matrix: seq<Vector3>, v: Vector3): (r: Result<Vector3, string>)
    ensures r.Success? <==> |matrix| == 3
  {
    if |matrix| != 3 then Failure(LengthMismatch)
    else Success([Dot(v, matrix[0]), Dot(v, matrix[1]), Dot(v, matrix[2])])
  }

  /**
   * `vectorMatrixMultiply`: throws unless the matrix has as many rows as the vector has
   * components; otherwise component `i` of the result accumulates `matrix[i][j] * vector[j]`
   * over `j`, starting from zero.
   */
  method VectorMatrixMultiply(matrix: seq<Vector3>, v: Vector3) returns (r: Result<Vector3, string>)
    ensures r.Success? <==> |matrix| == 3
    ensures r.Failure? ==> r.error == LengthMismatch
    ensures r.Success? ==> forall i | 0 <= i < 3 :: r.value[i] == RowSum(matrix[i], v, 3)
    ensures r == Transform(matrix, v)
  {
    if |matrix| != |v| {
      return Failure(LengthMismatch);
    }
    var result := new real[3](_ => 0.0);
    for i := 0 to |v|
      invariant forall k | 0 <= k < i :: result[k] == RowSum(matrix[k], v, 3)
      invariant forall k | i <= k < 3 :: result[k] == 0.0
    {
      for j := 0 to |v|
        invariant result[i] == RowSum(matrix[i], v, j)
        invariant forall k | 0 <= k < i :: result[k] == RowSum(matrix[k], v, 3)
        invariant forall k | i < k < 3 :: result[k] == 0.0
      {
        result[i] := result[i] + matrix[i][j] * v[j];
      }
    }
    RowSumDot(matrix[0], v);
    RowSumDot(matrix[1], v);
    RowSumDot(matrix[2], v);
    assert result[..] == [result[0], result[1], result[2]];
    return Success(result[..]);
  }

  /** A rotation axis. */
  datatype Axis = X | Y | Z

  /** An angle in degrees converted to radians. */
  function Radians(m: MathLib, angle: real): real
  {
    angle * (m.pi / 180.0)
  }

  /** The rows `vectorRotate` (and `getRotationProjection` of the first renderer) build for an angle in degrees. */
  function RotationRows(m: MathLib, angle: real, axis: Axis): (r: seq<Vector3>)
    ensures |r| == 3
  {
    var radians := Radians(m, angle);
    var c := m.cos(radians);
    var s := m.sin(radians);
    match axis
    case X => [[1.0, 0.0, 0.0], [0.0, c, -s], [0.0, s, c]]
    case Y => [[c, 0.0, -s], [0.0, 1.0, 0.0], [s, 0.0, c]]
    case Z => [[c, -s, 0.0], [s, c, 0.0], [0.0, 0.0, 1.0]]
  }

  /** `vectorRotate`: the rotation rows applied to the vector; three rows never make it throw. */
  function Rotate(m: MathLib, v: Vector3, angle: real, axis: Axis): Vector3
  {
    Transform(RotationRows(m, angle, axis), v).value
  }

  /** A rotation leaves the component along its own axis unchanged. */
  lemma RotateKeepsAxis(m: MathLib, v: Vector3, angle: real, axis: Axis)
    ensures axis == X ==> Rotate(m, v, angle, axis)[0] == v[0]
    ensures axis == Y ==> Rotate(m, v, angle, axis)[1] == v[1]
    ensures axis == Z ==> Rotate(m, v, angle, axis)[2] == v[2]
  {
  }

  /** `vectorProject2d`: the rows `[1/z, 0, 0]`, `[0, 1/z, 0]`, `[0, 0, 1]` applied to the vector. */
  function Project2d(v: Vector3): Vector3
  {
    var z := Div(1.0, v[2]);
    Transform([[z, 0.0, 0.0], [0.0, z, 0.0], [0.0, 0.0, 1.0]], v).value
  }

  /** For a non-zero depth the projection divides x and y by z and keeps z. */
  lemma Project2dDivides(v: Vector3)
    requires v[2] != 0.0
    ensures Project2d(v) == [v[0] / v[2], v[1] / v[2], v[2]]
  {
    var z := 1.0 / v[2];
    var rows: seq<Vector3> := [[z, 0.0, 0.0], [0.0, z, 0.0], [0.0, 0.0, 1.0]];
    assert Dot(v, rows[0]) == v[0] / v[2] by {
      assert Dot(v, rows[0]) == z * v[0];
    }
    assert Dot(v, rows[1]) == v[1] / v[2] by {
      assert Dot(v, rows[1]) == z * v[1];
    }
    assert Project2d(v) == [Dot(v, rows[0]), Dot(v, rows[1]), Dot(v, rows[2])];
  }

  /**
   * `matrixPointAt`: the rows right, up and forward of a camera at `position` looking at
   * `target`, with no translation row.
   */
  function PointAt(m: MathLib, position: Vector3, target: Vector3, up: Vector3): (r: seq<Vector3>)
    ensures |r| == 3
  {
    var newForward := Normalise(m, Subtract(target, position));
    var a := Multiply(newForward, Dot(up, newForward));
    var newUp := Normalise(m, Subtract(up, a));
    var newRight := Cross(newUp, newForward);
    [newRight, newUp, newForward]
  }

  /**
   * The three rows are right, up and forward: forward is the normalised direction to the
   * target, and right is perpendicular to both up and forward.
   */
  lemma PointAtRows(m: MathLib, position: Vector3, target: Vector3, up: Vector3)
    ensures var r := PointAt(m, position, target, up);
      && r[2] == Normalise(m, Subtract(target, position))
      && r[0] == Cross(r[1], r[2])
      && Dot(r[0], r[1]) == 0.0 && Dot(r[0], r[2]) == 0.0
  {
    var r := PointAt(m, position, target, up);
    CrossOrthogonal(r[1], r[2]);
  }

  /**
   * `matrixInverseRotation`: the transpose of the first three rows; fewer rows throw when a
   * missing row is read.
   */
  function InverseRotation(matrix: seq<Vector3>): (r: Result<seq<Vector3>, string>)
    ensures r.Success? <==> |matrix| >= 3
    ensures r.Success? ==> |r.value| == 3 && forall i, j | 0 <= i < 3 && 0 <= j < 3 :: r.value[i][j] == matrix[j][i]
  {
    if |matrix| < 3 then Failure(MissingRow)
    else
      Success([[matrix[0][0], matrix[1][0], matrix[2][0]],
               [matrix[0][1], matrix[1][1], matrix[2][1]],
               [matrix[0][2], matrix[1][2], matrix[2][2]]])
  }

  /** Transposing a three-row matrix twice gives it back. */
  lemma InverseRotationTwice(matrix: seq<Vector3>)
    requires |matrix| == 3
    ensures InverseRotation(InverseRotation(matrix).value) == Success(matrix)
  {
    var t := InverseRotation(InverseRotation(matrix).value).value;
    forall i | 0 <= i < 3
      ensures t[i] == matrix[i]
    {
      assert t[i][0] == matrix[i][0] && t[i][1] == matrix[i][1] && t[i][2] == matrix[i][2];
      assert t[i] == [t[i][0], t[i][1], t[i][2]];
      assert matrix[i] == [matrix[i][0], matrix[i][1], matrix[i][2]];
    }
    assert t == [t[0], t[1], t[2]] && matrix == [matrix[0], matrix[1], matrix[2]];
  }

  /**
   * `matrixInverseTranslation(p, rows)`: component `i` is minus the dot product of `p` with
   * row `i`; fewer than three rows throw.
   */
  function InverseTranslation(p: Vector3, matrix: seq<Vector3>): (r: Result<Vector3, string>)
    ensures r.Success? <==> |matrix| >= 3
  {
    if |matrix| < 3 then Failure(MissingRow)
    else Success([-Dot(p, matrix[0]), -Dot(p, matrix[1]), -Dot(p, matrix[2])])
  }

  /**
   * Moving a point by the inverse translation of `p` and then applying the rows is applying the
   * rows to the point's offset from `p`.
   */
  lemma InverseTranslationOffset(p: Vector3, matrix: seq<Vector3>, q: Vector3)
    requires |matrix| == 3
    ensures Add(Transform(matrix, q).value, InverseTranslation(p, matrix).value) == Transform(matrix, Subtract(q, p)).value
  {
    var t := Transform(matrix, q).value;
    var s := InverseTranslation(p, matrix).value;
    var d := Transform(matrix, Subtract(q, p)).value;
    forall i | 0 <= i < 3
      ensures t[i] + s[i] == d[i]
    {
      DotSubtract(matrix[i], q, p);
    }
  }

  /** The dot product with a row is linear in the vector. */
  lemma DotSubtract(row: Vector3, q: Vector3, p: Vector3)
    ensures Dot(q, row) - Dot(p, row) == Dot(Subtract(q, p), row)
  {
    assert Dot(Subtract(q, p), row) == row[0] * (q[0] - p[0]) + row[1] * (q[1] - p[1]) + row[2] * (q[2] - p[2]);
  }
}
