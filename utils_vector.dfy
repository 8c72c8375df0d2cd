/**
 * The 4-component vector and 4x4 matrix algebra of the EngineUtils renderer
 * (row-vector convention: a point is multiplied from the left, `v * M`).
 */
module UtilsVector {
  import opened Wrappers
  import opened JsNumber

  /** A homogeneous vector; `w` is 1 for every vector the operations build. */
  datatype Vector = Vector(x: real, y: real, z: real, w: real)

  /** The optional initialiser object `vector()` accepts; `None` is a missing (undefined) field. */
  datatype VectorInit = VectorInit(x: Option<real>, y: Option<real>, z: Option<real>, w: Option<real>)

  /**
   * `vector(init)`: every component is `init.c || default`, so a missing or zero
   * x, y, z becomes 0 and a missing or zero w becomes 1.
   */
  function MakeVector(init: VectorInit): (v: Vector)
    ensures init.x.Some? ==> v.x == init.x.value
    ensures init.y.Some? ==> v.y == init.y.value
    ensures init.z.Some? ==> v.z == init.z.value
    ensures init.x.None? ==> v.x == 0.0
    ensures init.y.None? ==> v.y == 0.0
    ensures init.z.None? ==> v.z == 0.0
    ensures init.w.Some? && init.w.value != 0.0 ==> v.w == init.w.value
    ensures init.w.None? || init.w.value == 0.0 ==> v.w == 1.0
  {
    Vector(OrDefault(init.x, 0.0), OrDefault(init.y, 0.0), OrDefault(init.z, 0.0), OrDefault(init.w, 1.0))
  }

  /** `vector({ x, y, z })`, the form every operation below uses to build its result. */
  function Xyz(x: real, y: real, z: real): (v: Vector)
    ensures v == Vector(x, y, z, 1.0)
  {
    MakeVector(VectorInit(Some(x), Some(y), Some(z), None))
  }

  /** The element of an array at an index, or undefined past its end. */
  function At(a: seq<real>, i: nat): (r: Option<real>)
  {
    if i < |a| then Some(a[i]) else None
  }

  /** `arrayToVector(array)`: throws for more than four elements, otherwise `vector` of the first four. */
  function ArrayToVector(a: seq<real>): (r: Result<Vector, string>)
    ensures r.Failure? <==> |a| > 4
    ensures r.Success? ==> r.value == MakeVector(VectorInit(At(a, 0), At(a, 1), At(a, 2), At(a, 3)))
  {
    if |a| > 4 then Failure("array is too long to convert into a vector")
    else Success(MakeVector(VectorInit(At(a, 0), At(a, 1), At(a, 2), At(a, 3))))
  }

  /** `vectorToArray(vec)`. */
  function VectorToArray(v: Vector): (a: seq<real>)
  {
    [v.x, v.y, v.z, v.w]
  }

  /** Converting to an array and back is the identity exactly when `w` is not 0; a zero `w` comes back as 1. */
  lemma ArrayRoundTrip(v: Vector)
    ensures ArrayToVector(VectorToArray(v)).Success?
    ensures ArrayToVector(VectorToArray(v)).value == v <==> v.w != 0.0
    ensures v.w == 0.0 ==> ArrayToVector(VectorToArray(v)).value == v.(w := 1.0)
  {
  }

  /** Converting a vector built by `arrayToVector` back gives the array, padded with 0s and a w of 1, when it has no zero w. */
  lemma VectorArrayRoundTrip(a: seq<real>)
    requires |a| == 4 && a[3] != 0.0
    ensures ArrayToVector(a).Success? && VectorToArray(ArrayToVector(a).value) == a
  {
  }

  function Add(a: Vector, b: Vector): (r: Vector)
    ensures r.w == 1.0
  {
    Xyz(a.x + b.x, a.y + b.y, a.z + b.z)
  }

  function Subtract(a: Vector, b: Vector): (r: Vector)
    ensures r.w == 1.0
  {
    Xyz(a.x - b.x, a.y - b.y, a.z - b.z)
  }

  function Multiply(v: Vector, k: real): (r: Vector)
    ensures r.w == 1.0
  {
    Xyz(v.x * k, v.y * k, v.z * k)
  }

  /** `vectorDevide`; a zero divider is outside the model (see `JsNumber.Div`). */
  function Divide(v: Vector, k: real): (r: Vector)
    ensures r.w == 1.0
  {
    Xyz(Div(v.x, k), Div(v.y, k), Div(v.z, k))
  }

  /** Subtracting what was added gives the original x, y, z back, with w reset to 1. */
  lemma AddSubtractInverse(a: Vector, b: Vector)
    ensures Subtract(Add(a, b), b) == a.(w := 1.0)
    ensures Add(Subtract(a, b), b) == a.(w := 1.0)
  {
  }

  /** Dividing by a non-zero multiplier undoes the multiplication, with w reset to 1. */
  lemma MultiplyDivideInverse(v: Vector, k: real)
    requires k != 0.0
    ensures Divide(Multiply(v, k), k) == v.(w := 1.0)
  {
  }

  function Dot(a: Vector, b: Vector): real
  {
    a.x * b.x + a.y * b.y + a.z * b.z
  }

  /** The dot product does not depend on the order of its factors. */
  lemma DotSymmetric(a: Vector, b: Vector)
    ensures Dot(a, b) == Dot(b, a)
  {
  }

  function Cross(a: Vector, b: Vector): (r: Vector)
    ensures r.w == 1.0
  {
    Xyz(a.y * b.z - a.z * b.y, a.z * b.x - a.x * b.z, a.x * b.y - a.y * b.x)
  }

  /** The cross product is orthogonal to both of its factors. */
  lemma CrossOrthogonal(a: Vector, b: Vector)
    ensures Dot(Cross(a, b), a) == 0.0 && Dot(Cross(a, b), b) == 0.0
  {
  }

  /** The squared length of the x, y, z part. */
  function SquaredLength(v: Vector): real
  {
    v.x * v.x + v.y * v.y + v.z * v.z
  }

  function Length(m: MathLib, v: Vector): real
  {
    m.sqrt(v.x * v.x + v.y * v.y + v.z * v.z)
  }

  /** `vectorNormalise`: the x, y, z part divided by its length, w = 1. */
  function Normalise(m: MathLib, v: Vector): (r: Vector)
    ensures r.w == 1.0
  {
    var len := Length(m, v);
    Xyz(Div(v.x, len), Div(v.y, len), Div(v.z, len))
  }

  /** With a lawful square root, normalising a non-zero vector scales it by the positive factor 1 / length. */
  lemma NormaliseIsScale(m: MathLib, v: Vector)
    requires Lawful(m) && SquaredLength(v) > 0.0
    ensures Length(m, v) > 0.0
    ensures Normalise(m, v) == Scale(v, 1.0 / Length(m, v))
  {
    var len := Length(m, v);
    DivByNonZero(v.x, len);
    DivByNonZero(v.y, len);
    DivByNonZero(v.z, len);
  }

  /** x, y, z scaled by `k`, with w = 1. */
  function Scale(v: Vector, k: real): (r: Vector)
    ensures r == Multiply(v, k)
  {
    Xyz(k * v.x, k * v.y, k * v.z)
  }

  /** Scaling the second factor of a dot product scales the product. */
  lemma DotScale(p: Vector, n: Vector, k: real)
    ensures Dot(p, Scale(n, k)) == k * Dot(p, n)
  {
  }

  /** `vectorNormal`: the normalised cross product of the edges b - a and c - a. */
  function Normal(m: MathLib, a: Vector, b: Vector, c: Vector): Vector
  {
    Normalise(m, Cross(Subtract(b, a), Subtract(c, a)))
  }

  /**
   * The cross product of the edges is orthogonal to both edges of the triangle, and so is the
   * normal, which is that cross product scaled by the inverse of its length (or zero when the
   * length is zero).
   */
  lemma NormalOrthogonal(m: MathLib, a: Vector, b: Vector, c: Vector)
    ensures Dot(Cross(Subtract(b, a), Subtract(c, a)), Subtract(b, a)) == 0.0
    ensures Dot(Cross(Subtract(b, a), Subtract(c, a)), Subtract(c, a)) == 0.0
    ensures Dot(Subtract(b, a), Normal(m, a, b, c)) == 0.0 && Dot(Subtract(c, a), Normal(m, a, b, c)) == 0.0
  {
    var e1, e2 := Subtract(b, a), Subtract(c, a);
    var n := Cross(e1, e2);
    CrossOrthogonal(e1, e2);
    DotSymmetric(n, e1);
    DotSymmetric(n, e2);
    var len := Length(m, n);
    if len != 0.0 {
      DivByNonZero(n.x, len);
      DivByNonZero(n.y, len);
      DivByNonZero(n.z, len);
      assert Normal(m, a, b, c) == Scale(n, 1.0 / len);
      DotScale(e1, n, 1.0 / len);
      DotScale(e2, n, 1.0 / len);
    } else {
      assert Normal(m, a, b, c) == Xyz(0.0, 0.0, 0.0);
    }
  }

  /** Dividing by a non-zero number is multiplying by its inverse. */
  lemma DivByNonZero(a: real, d: real)
    requires d != 0.0
    ensures Div(a, d) == (1.0 / d) * a
  {
  }

  /** A triangle: its three corners. */
  type Triangle = t: seq<Vector> | |t| == 3
    witness [Vector(0.0, 0.0, 0.0, 1.0), Vector(0.0, 0.0, 0.0, 1.0), Vector(0.0, 0.0, 0.0, 1.0)]

  /** A 4x4 matrix, rows of four numbers. */
  type Matrix = m: seq<seq<real>> | |m| == 4 && forall i | 0 <= i < 4 :: |m[i]| == 4
    witness [[1.0, 0.0, 0.0, 0.0], [0.0, 1.0, 0.0, 0.0], [0.0, 0.0, 1.0, 0.0], [0.0, 0.0, 0.0, 1.0]]

  /** `matrix()`: the identity. */
  function Identity(): (r: Matrix)
    ensures forall i, j | 0 <= i < 4 && 0 <= j < 4 :: r[i][j] == if i == j then 1.0 else 0.0
  {
    [[1.0, 0.0, 0.0, 0.0], [0.0, 1.0, 0.0, 0.0], [0.0, 0.0, 1.0, 0.0], [0.0, 0.0, 0.0, 1.0]]
  }

  /** The sum of four pairwise products. */
  function Dot4(p0: real, p1: real, p2: real, p3: real, q0: real, q1: real, q2: real, q3: real): real
  {
    p0 * q0 + p1 * q1 + p2 * q2 + p3 * q3
  }

  /** Column `c` of the row vector `v` times `m`. */
  function Column(m: Matrix, v: Vector, c: nat): real
    requires c < 4
  {
    Dot4(v.x, v.y, v.z, v.w, m[0][c], m[1][c], m[2][c], m[3][c])
  }

  /** `vectorMatrixMultiply(matrix, vec)`: the row vector times the matrix, all four components. */
  function VectorMatrixMultiply(m: Matrix, v: Vector): Vector
  {
    Vector(Column(m, v, 0), Column(m, v, 1), Column(m, v, 2), Column(m, v, 3))
  }

  /** Entry (r, c) of the product `a * b`. */
  function Entry(a: Matrix, b: Matrix, r: nat, c: nat): real
    requires r < 4 && c < 4
  {
    Dot4(a[r][0], a[r][1], a[r][2], a[r][3], b[0][c], b[1][c], b[2][c], b[3][c])
  }

  /** The matrix product `a * b`, entry by entry. */
  function Product(a: Matrix, b: Matrix): (p: Matrix)
    ensures forall r, c | 0 <= r < 4 && 0 <= c < 4 :: p[r][c] == Entry(a, b, r, c)
  {
    seq(4, r requires 0 <= r < 4 => seq(4, c requires 0 <= c < 4 => Entry(a, b, r, c)))
  }

  /** `matrixMatrixMultiply`: fills a fresh identity column by column, row by row. */
  method MatrixMatrixMultiply(a: Matrix, b: Matrix) returns (result: Matrix)
    ensures result == Product(a, b)
  {
    result := Identity();
    for c := 0 to 4
      invariant forall i, j | 0 <= i < 4 && 0 <= j < c :: result[i][j] == Entry(a, b, i, j)
      invariant forall i, j | 0 <= i < 4 && c <= j < 4 :: result[i][j] == Identity()[i][j]
    {
      for r := 0 to 4
        invariant forall i, j | 0 <= i < 4 && 0 <= j < c :: result[i][j] == Entry(a, b, i, j)
        invariant forall i | 0 <= i < r :: result[i][c] == Entry(a, b, i, c)
        invariant forall i, j | 0 <= i < 4 && c <= j < 4 && (j > c || i >= r) :: result[i][j] == Identity()[i][j]
      {
        result := result[r := result[r][c := Entry(a, b, r, c)]];
      }
    }
    assert forall i | 0 <= i < 4 :: result[i] == Product(a, b)[i];
  }

  /** The identity is neutral on both sides of the product. */
  lemma ProductIdentity(a: Matrix)
    ensures Product(Identity(), a) == a
    ensures Product(a, Identity()) == a
  {
    assert forall i | 0 <= i < 4 :: Product(Identity(), a)[i] == a[i];
    assert forall i | 0 <= i < 4 :: Product(a, Identity())[i] == a[i];
  }

  /** The identity leaves every vector unchanged. */
  lemma IdentityVector(v: Vector)
    ensures VectorMatrixMultiply(Identity(), v) == v
  {
  }

  /** Multiplying by a product is multiplying by its factors in turn: `v * (a * b) == (v * a) * b`. */
  lemma ProductApplies(a: Matrix, b: Matrix, v: Vector)
    ensures VectorMatrixMultiply(Product(a, b), v) == VectorMatrixMultiply(b, VectorMatrixMultiply(a, v))
  {
    forall c | 0 <= c < 4
      ensures Column(Product(a, b), v, c) == Column(b, VectorMatrixMultiply(a, v), c)
    {
      ProductColumn(a, b, v, c);
    }
  }

  lemma ProductColumn(a: Matrix, b: Matrix, v: Vector, c: nat)
    requires c < 4
    ensures Column(Product(a, b), v, c) == Column(b, VectorMatrixMultiply(a, v), c)
  {
    var p := Product(a, b);
    assert p[0][c] == Entry(a, b, 0, c) && p[1][c] == Entry(a, b, 1, c) && p[2][c] == Entry(a, b, 2, c) && p[3][c] == Entry(a, b, 3, c);
    Regroup(v.x, v.y, v.z, v.w,
      a[0][0], a[0][1], a[0][2], a[0][3], a[1][0], a[1][1], a[1][2], a[1][3],
      a[2][0], a[2][1], a[2][2], a[2][3], a[3][0], a[3][1], a[3][2], a[3][3],
      b[0][c], b[1][c], b[2][c], b[3][c]);
  }

  /** The sum of v_i a_ij b_j regrouped: by rows of `a` first, or by columns first. */
  lemma Regroup(v0: real, v1: real, v2: real, v3: real,
                a00: real, a01: real, a02: real, a03: real, a10: real, a11: real, a12: real, a13: real,
                a20: real, a21: real, a22: real, a23: real, a30: real, a31: real, a32: real, a33: real,
                b0: real, b1: real, b2: real, b3: real)
    ensures Dot4(v0, v1, v2, v3, Dot4(a00, a01, a02, a03, b0, b1, b2, b3), Dot4(a10, a11, a12, a13, b0, b1, b2, b3),
                 Dot4(a20, a21, a22, a23, b0, b1, b2, b3), Dot4(a30, a31, a32, a33, b0, b1, b2, b3))
         == Dot4(Dot4(v0, v1, v2, v3, a00, a10, a20, a30), Dot4(v0, v1, v2, v3, a01, a11, a21, a31),
                 Dot4(v0, v1, v2, v3, a02, a12, a22, a32), Dot4(v0, v1, v2, v3, a03, a13, a23, a33), b0, b1, b2, b3)
  {
    RegroupSum(v0, v1, v2, v3, a00, a01, a02, a03, a10, a11, a12, a13, a20, a21, a22, a23, a30, a31, a32, a33, b0, b1, b2, b3);
  }

  lemma RegroupSum(v0: real, v1: real, v2: real, v3: real,
                   a00: real, a01: real, a02: real, a03: real, a10: real, a11: real, a12: real, a13: real,
                   a20: real, a21: real, a22: real, a23: real, a30: real, a31: real, a32: real, a33: real,
                   b0: real, b1: real, b2: real, b3: real)
    ensures v0 * (a00 * b0 + a01 * b1 + a02 * b2 + a03 * b3) + v1 * (a10 * b0 + a11 * b1 + a12 * b2 + a13 * b3)
          + v2 * (a20 * b0 + a21 * b1 + a22 * b2 + a23 * b3) + v3 * (a30 * b0 + a31 * b1 + a32 * b2 + a33 * b3)
         == (v0 * a00 + v1 * a10 + v2 * a20 + v3 * a30) * b0 + (v0 * a01 + v1 * a11 + v2 * a21 + v3 * a31) * b1
          + (v0 * a02 + v1 * a12 + v2 * a22 + v3 * a32) * b2 + (v0 * a03 + v1 * a13 + v2 * a23 + v3 * a33) * b3
  {
  }

  /** `matrixTranslaton(t)`: identity with the translation in the last row. */
  function Translation(t: Vector): (r: Matrix)
    ensures r[3] == [t.x, t.y, t.z, 1.0]
  {
    [[1.0, 0.0, 0.0, 0.0], [0.0, 1.0, 0.0, 0.0], [0.0, 0.0, 1.0, 0.0], [t.x, t.y, t.z, 1.0]]
  }

  /** A translation adds `w` times the offset to x, y and z and keeps w. */
  lemma TranslationApplies(t: Vector, v: Vector)
    ensures VectorMatrixMultiply(Translation(t), v) == Vector(v.x + v.w * t.x, v.y + v.w * t.y, v.z + v.w * t.z, v.w)
  {
  }

  datatype Axis = X | Y | Z

  /** `matrixRotation(angle, axis)`, angle in degrees, trigonometry taken from `m`. */
  function Rotation(m: MathLib, angle: real, axis: Axis): (r: Matrix)
    ensures r[3] == [0.0, 0.0, 0.0, 1.0]
    ensures forall i | 0 <= i < 3 :: r[i][3] == 0.0
  {
    var rad := angle * (m.pi / 180.0);
    var c := m.cos(rad);
    var s := m.sin(rad);
    match axis
    case X => [[1.0, 0.0, 0.0, 0.0], [0.0, c, -s, 0.0], [0.0, s, c, 0.0], [0.0, 0.0, 0.0, 1.0]]
    case Y => [[c, 0.0, -s, 0.0], [0.0, 1.0, 0.0, 0.0], [s, 0.0, c, 0.0], [0.0, 0.0, 0.0, 1.0]]
    case Z => [[c, -s, 0.0, 0.0], [s, c, 0.0, 0.0], [0.0, 0.0, 1.0, 0.0], [0.0, 0.0, 0.0, 1.0]]
  }

  /** `matrixPointAt`: rows right, up, forward and then the position. */
  function PointAt(m: MathLib, position: Vector, target: Vector, up: Vector): (r: Matrix)
    ensures r[2] == [Forward(m, position, target).x, Forward(m, position, target).y, Forward(m, position, target).z, 0.0]
    ensures r[3] == [position.x, position.y, position.z, 1.0]
    ensures forall i | 0 <= i < 3 :: r[i][3] == 0.0
  {
    var forward := Forward(m, position, target);
    var a := Multiply(forward, Dot(up, forward));
    var newUp := Normalise(m, Subtract(up, a));
    var right := Cross(newUp, forward);
    [[right.x, right.y, right.z, 0.0], [newUp.x, newUp.y, newUp.z, 0.0],
     [forward.x, forward.y, forward.z, 0.0], [position.x, position.y, position.z, 1.0]]
  }

  /** The normalised direction from `position` to `target`. */
  function Forward(m: MathLib, position: Vector, target: Vector): Vector
  {
    Normalise(m, Subtract(target, position))
  }

  /** Row `i` of a matrix read back as a vector (a four-element row never makes `arrayToVector` throw). */
  function Row(a: Matrix, i: nat): (v: Vector)
    requires i < 4
    ensures ArrayToVector(a[i]) == Success(v)
    ensures v.x == a[i][0] && v.y == a[i][1] && v.z == a[i][2]
  {
    ArrayToVector(a[i]).value
  }

  /** `matrixInverse`: transposes the rotation part and turns the last row into minus its projections. */
  function Inverse(a: Matrix): (r: Matrix)
    ensures forall i, j | 0 <= i < 3 && 0 <= j < 3 :: r[i][j] == a[j][i]
    ensures forall i | 0 <= i < 3 :: r[i][3] == 0.0
    ensures forall i | 0 <= i < 3 :: r[3][i] == -(a[3][0] * a[i][0] + a[3][1] * a[i][1] + a[3][2] * a[i][2])
    ensures r[3][3] == 1.0
  {
    var t := Row(a, 3);
    [[a[0][0], a[1][0], a[2][0], 0.0],
     [a[0][1], a[1][1], a[2][1], 0.0],
     [a[0][2], a[1][2], a[2][2], 0.0],
     [-Dot(t, Row(a, 0)), -Dot(t, Row(a, 1)), -Dot(t, Row(a, 2)), 1.0]]
  }

  /** Inverting a translation translates by the opposite vector. */
  lemma InverseTranslation(t: Vector)
    ensures Inverse(Translation(t)) == Translation(Xyz(-t.x, -t.y, -t.z))
  {
    var a := Translation(t);
    var inv := Inverse(a);
    var u := Translation(Xyz(-t.x, -t.y, -t.z));
    assert Row(a, 3).x == t.x && Row(a, 3).y == t.y && Row(a, 3).z == t.z;
    assert Dot(Row(a, 3), Row(a, 0)) == t.x;
    assert Dot(Row(a, 3), Row(a, 1)) == t.y;
    assert Dot(Row(a, 3), Row(a, 2)) == t.z;
    assert inv[3] == u[3];
    assert forall i | 0 <= i < 3 :: inv[i] == u[i];
  }

  /** The x, y, z parts of rows i and j of `a` have dot product 1 when i == j and 0 otherwise. */
  predicate OrthonormalRows(a: Matrix)
  {
    forall i, j | 0 <= i < 3 && 0 <= j < 3 :: RowDot(a, i, j) == if i == j then 1.0 else 0.0
  }

  /** The dot product of the x, y, z parts of rows i and j. */
  function RowDot(a: Matrix, i: nat, j: nat): real
    requires i < 4 && j < 4
  {
    a[i][0] * a[j][0] + a[i][1] * a[j][1] + a[i][2] * a[j][2]
  }

  /** A rigid transform (orthonormal rotation rows, no projective column) is undone by its inverse. */
  lemma InverseUndoesRigid(a: Matrix)
    requires OrthonormalRows(a)
    requires a[0][3] == 0.0 && a[1][3] == 0.0 && a[2][3] == 0.0 && a[3][3] == 1.0
    ensures Product(a, Inverse(a)) == Identity()
  {
    var inv := Inverse(a);
    var p := Product(a, inv);
    assert forall i | 0 <= i < 3 :: inv[3][i] == -RowDot(a, 3, i);
    forall r, c | 0 <= r < 4 && 0 <= c < 4
      ensures p[r][c] == Identity()[r][c]
    {
      InverseEntry(a, inv, r, c);
    }
    assert forall i | 0 <= i < 4 :: p[i] == Identity()[i];
  }

  /** Entry (r, c) of `a * inv`, where `inv` has the shape `Inverse(a)` has. */
  lemma InverseEntry(a: Matrix, inv: Matrix, r: nat, c: nat)
    requires r < 4 && c < 4
    requires r < 3 && c < 3 ==> RowDot(a, r, c) == if r == c then 1.0 else 0.0
    requires a[0][3] == 0.0 && a[1][3] == 0.0 && a[2][3] == 0.0 && a[3][3] == 1.0
    requires c < 3 ==> inv[0][c] == a[c][0] && inv[1][c] == a[c][1] && inv[2][c] == a[c][2]
    requires c < 3 ==> inv[3][c] == -RowDot(a, 3, c)
    requires inv[0][3] == 0.0 && inv[1][3] == 0.0 && inv[2][3] == 0.0 && inv[3][3] == 1.0
    ensures Entry(a, inv, r, c) == if r == c then 1.0 else 0.0
  {
    if c == 3 {
      LastColumn(a[r][0], a[r][1], a[r][2], a[r][3], inv[0][3], inv[1][3], inv[2][3], inv[3][3]);
    } else if r < 3 {
      assert a[r][3] == 0.0;
      RotationEntry(a[r][0], a[r][1], a[r][2], a[r][3], inv[0][c], inv[1][c], inv[2][c], inv[3][c], a[c][0], a[c][1], a[c][2],
        if r == c then 1.0 else 0.0);
    } else {
      TranslationEntry(a[3][0], a[3][1], a[3][2], a[3][3], inv[0][c], inv[1][c], inv[2][c], inv[3][c], a[c][0], a[c][1], a[c][2]);
    }
  }

  /** A rotation row times an inverse column: the three rotation terms give the row dot product and the fourth vanishes. */
  lemma RotationEntry(x0: real, x1: real, x2: real, x3: real, p0: real, p1: real, p2: real, p3: real, q0: real, q1: real, q2: real, d: real)
    requires p0 == q0 && p1 == q1 && p2 == q2 && x3 == 0.0
    requires x0 * q0 + x1 * q1 + x2 * q2 == d
    ensures x0 * p0 + x1 * p1 + x2 * p2 + x3 * p3 == d
  {
  }

  /** The translation row times an inverse column: the negated dot product cancels the three rotation terms. */
  lemma TranslationEntry(x0: real, x1: real, x2: real, x3: real, p0: real, p1: real, p2: real, p3: real, q0: real, q1: real, q2: real)
    requires p0 == q0 && p1 == q1 && p2 == q2 && x3 == 1.0
    requires p3 == -(x0 * q0 + x1 * q1 + x2 * q2)
    ensures x0 * p0 + x1 * p1 + x2 * p2 + x3 * p3 == 0.0
  {
  }

  lemma LastColumn(r0: real, r1: real, r2: real, r3: real, p0: real, p1: real, p2: real, p3: real)
    requires p0 == 0.0 && p1 == 0.0 && p2 == 0.0 && p3 == 1.0
    ensures r0 * p0 + r1 * p1 + r2 * p2 + r3 * p3 == r3
  {
  }

  /** `matrixProjection(fov, aspect, far, near)`. */
  function Projection(m: MathLib, fov: real, aspect: real, far: real, near: real): (r: Matrix)
    ensures forall v: Vector :: VectorMatrixMultiply(r, v).w == -v.z
  {
    var fovR := Div(fov * m.pi, 180.0);
    var f := Div(1.0, m.tan(fovR / 2.0));
    var rangeInv := Div(1.0, near - far);
    [[Div(f, aspect), 0.0, 0.0, 0.0],
     [0.0, f, 0.0, 0.0],
     [0.0, 0.0, (near + far) * rangeInv, -1.0],
     [0.0, 0.0, near * far * rangeInv * 2.0, 0.0]]
  }
}
