/**
 * The parts of the first renderer's vector library (`src/lib/Vector.ts`) that differ from the
 * `Engine` library: there `vectorMultiply` and `vectorDevide` take two vectors and work
 * componentwise, and `vectorScale` multiplies by a number through a vector of three copies of
 * it. Everything else in that file is the `Engine` library's code and is the `Vec3` module.
 */
module BasicVector {
  import opened JsNumber
  import Vec3

  /** `vectorMultiply(a, b)` of the first library: the componentwise product. */
  function Multiply(a: Vec3.Vector3, b: Vec3.Vector3): (r: Vec3.Vector3)
  {
    [a[0] * b[0], a[1] * b[1], a[2] * b[2]]
  }

  /** `vectorDevide(a, b)` of the first library: the componentwise quotient. */
  function Divide(a: Vec3.Vector3, b: Vec3.Vector3): (r: Vec3.Vector3)
    ensures forall i | 0 <= i < 3 && b[i] != 0.0 :: r[i] * b[i] == a[i]
  {
    [Div(a[0], b[0]), Div(a[1], b[1]), Div(a[2], b[2])]
  }

  /** Dividing componentwise by the vector multiplied by gives the vector back. */
  lemma MultiplyDivideInverse(a: Vec3.Vector3, b: Vec3.Vector3)
    requires b[0] != 0.0 && b[1] != 0.0 && b[2] != 0.0
    ensures Divide(Multiply(a, b), b) == a
  {
    var x, y, z := Div(a[0] * b[0], b[0]), Div(a[1] * b[1], b[1]), Div(a[2] * b[2], b[2]);
    CancelFactor(x, a[0], b[0]);
    CancelFactor(y, a[1], b[1]);
    CancelFactor(z, a[2], b[2]);
    assert Divide(Multiply(a, b), b) == [x, y, z];
  }

  /** A non-zero factor cancels. */
  lemma CancelFactor(x: real, y: real, k: real)
    requires k != 0.0 && x * k == y * k
    ensures x == y
  {
    assert (x - y) * k == 0.0;
  }

  /** Componentwise multiplication is commutative. */
  lemma MultiplyCommutes(a: Vec3.Vector3, b: Vec3.Vector3)
    ensures Multiply(a, b) == Multiply(b, a)
  {
  }

  /** `vectorScale(vector, multiplier)`: the componentwise product with `[multiplier, multiplier, multiplier]`. */
  function Scale(v: Vec3.Vector3, multiplier: real): Vec3.Vector3
  {
    Multiply(v, [multiplier, multiplier, multiplier])
  }

  /**
   * Scaling multiplies every component by the number, which is what the `Engine` library's
   * `vectorMultiply` does.
   */
  lemma ScaleIsScalarMultiply(v: Vec3.Vector3, multiplier: real)
    ensures Scale(v, multiplier) == Vec3.Multiply(v, multiplier)
  {
    forall i | 0 <= i < 3
      ensures Scale(v, multiplier)[i] == Vec3.Multiply(v, multiplier)[i]
    {
    }
  }
}
