/**
 * The `Engine` `Renderer`: the camera it turns, the canvas it draws on (kept as the list of
 * drawing calls made since the last clear) and `drawShape`, which transforms the shape's
 * points, keeps and shades the triangles that face the camera, orders them back to front,
 * projects the points and fills each kept triangle. Its loops are proved to compute what
 * `Scene` describes.
 */
module EngineRenderer {
  import opened Wrappers
  import opened JsNumber
  import opened DepthSort
  import opened ShapeCommon
  import opened Vec3
  import EngineShape

  /** The camera: where it stands, the direction it faces and its yaw about the y axis, in degrees. */
  class Camera {
    var position: Vector3
    var lookDirection: Vector3
    var yaw: real

    constructor(position: Vector3, lookDirection: Vector3, yaw: real)
      ensures this.position == position && this.lookDirection == lookDirection && this.yaw == yaw
    {
      this.position := position;
      this.lookDirection := lookDirection;
      this.yaw := yaw;
    }
  }

  /** A position on the canvas, in pixels from its top-left corner. */
  datatype Pixel = Pixel(x: real, y: real)

  /** One drawing call on the canvas. */
  datatype Command =
    | Fill(a: Pixel, b: Pixel, c: Pixel, paint: Paint)
    | Line(from: Pixel, to: Pixel, paint: Paint)
    | Mark(at: Pixel, paint: Paint)

  /** A canvas of a given size; what is on it is the list of drawing calls since it was last cleared. */
  class Canvas {
    const width: real
    const height: real
    var commands: seq<Command>

    constructor(width: real, height: real)
      ensures this.width == width && this.height == height && commands == []
    {
      this.width := width;
      this.height := height;
      commands := [];
    }
  }

  /** The error thrown when a triangle names a point that does not exist and its first component is read. */
  const UndefinedPoint := "Cannot read properties of undefined (reading '0')"

  // ---------------------------------------------------------------------------
  // Shading and screen mapping

  /** The direction the light travels: into the screen, towards the viewer. */
  const LightDirection: Vector3 := [0.0, 0.0, -1.0]

  /**
   * `calculateColor(normal, colorObj)`: every channel times the lighting factor, floored. The
   * factor is the normal against the light, which is minus its z component, and is not clamped.
   */
  function CalculateColor(normal: Vector3, colorObj: Color): (p: Paint)
    ensures p == Rgb(ShadeChannel(colorObj.r, -normal[2]), ShadeChannel(colorObj.g, -normal[2]), ShadeChannel(colorObj.b, -normal[2]))
  {
    var luminationFactor := Dot(LightDirection, normal);
    Rgb(ShadeChannel(colorObj.r, luminationFactor), ShadeChannel(colorObj.g, luminationFactor), ShadeChannel(colorObj.b, luminationFactor))
  }

  /**
   * A normal facing the viewer (negative z) shades a non-negative channel to a non-negative
   * value no greater than the channel times the factor; a normal facing away darkens it below 0.
   */
  lemma ShadeBounds(normal: Vector3, colorObj: Color, c: int)
    requires colorObj.r == Some(c) && c > 0
    ensures var s := CalculateColor(normal, colorObj).r.value;
      && s as real <= c as real * -normal[2] < s as real + 1.0
      && (normal[2] <= 0.0 <==> s >= 0)
  {
    var f := -normal[2];
    ProductSign(c as real, f);
    if f < 0.0 {
      assert c as real * f < 0.0;
    }
  }

  /** Where a point of camera space is drawn: `x` to the right of the centre and `y` above it. */
  function ToScreen(centerX: real, centerY: real, p: Vector3): (q: Pixel)
  {
    Pixel(centerX + p[0], centerY - p[1])
  }

  /**
   * The y axis is flipped: a point higher in camera space is drawn nearer the top of the canvas,
   * and the camera's axis lands on the centre.
   */
  lemma ScreenFlipsY(centerX: real, centerY: real, p: Vector3, q: Vector3)
    ensures p[1] > q[1] ==> ToScreen(centerX, centerY, p).y < ToScreen(centerX, centerY, q).y
    ensures p[0] > q[0] ==> ToScreen(centerX, centerY, p).x > ToScreen(centerX, centerY, q).x
    ensures p[0] == 0.0 && p[1] == 0.0 ==> ToScreen(centerX, centerY, p) == Pixel(centerX, centerY)
  {
  }

  /** The calls `fillTriangle(a, b, c, color)` makes: the fill, then the outline `a-b`, `a-c`, `b-c`. */
  function FillCommands(centerX: real, centerY: real, a: Vector3, b: Vector3, c: Vector3, paint: Paint): (cs: seq<Command>)
    ensures |cs| == 4 && cs[0].Fill? && cs[0].paint == paint
  {
    var sa, sb, sc := ToScreen(centerX, centerY, a), ToScreen(centerX, centerY, b), ToScreen(centerX, centerY, c);
    [Fill(sa, sb, sc, paint), Line(sa, sb, paint), Line(sa, sc, paint), Line(sb, sc, paint)]
  }

  // ---------------------------------------------------------------------------
  // Camera

  /** The direction the camera faces: `(0, 0, 1)` rotated by the yaw about the y axis. */
  function LookDirection(m: MathLib, yaw: real): Vector3
  {
    Rotate(m, [0.0, 0.0, 1.0], yaw, Y)
  }

  /** Turning by the yaw moves the forward direction in the horizontal plane: `(-sin, 0, cos)` of the angle. */
  lemma LookDirectionIs(m: MathLib, yaw: real)
    ensures var s, c := m.sin(Radians(m, yaw)), m.cos(Radians(m, yaw));
      LookDirection(m, yaw) == [-s, 0.0, c]
  {
    var rows := RotationRows(m, yaw, Y);
    var s := m.sin(Radians(m, yaw));
    var c := m.cos(Radians(m, yaw));
    assert rows[0][2] == -s;
    assert rows[2][2] == c;
    var v: Vector3 := [0.0, 0.0, 1.0];
    var r := LookDirection(m, yaw);
    forall i | 0 <= i < 3
      ensures r[i] == [-s, 0.0, c][i]
    {
      assert r[i] == Dot(v, rows[i]);
    }
  }

  /** `matrixPointAt` for the camera: looking from its position towards position + look direction, up being `(0, 1, 0)`. */
  function CameraRows(m: MathLib, position: Vector3, look: Vector3): (r: seq<Vector3>)
    ensures |r| == 3
  {
    PointAt(m, position, Add(position, look), [0.0, 1.0, 0.0])
  }

  /**
   * The "moving by view" step of `drawShape` for a camera at `position` turned by `yaw`: the
   * transposed camera rows applied to the point, then the inverse translation, which is built
   * from the camera rows themselves. For rows M this is Mᵀ·p − M·position.
   */
  function CameraSpace(m: MathLib, position: Vector3, yaw: real, p: Vector3): Vector3
  {
    var rows := CameraRows(m, position, LookDirection(m, yaw));
    Add(Transform(InverseRotation(rows).value, p).value, InverseTranslation(position, rows).value)
  }

  /** The same step with the camera rows used for both parts: M·(p − position). */
  function ConsistentCameraSpace(m: MathLib, position: Vector3, yaw: real, p: Vector3): Vector3
  {
    Transform(CameraRows(m, position, LookDirection(m, yaw)), Subtract(p, position)).value
  }

  /**
   * The consistent step is the rows applied to the point plus the inverse translation, and it
   * puts the camera itself at the origin, whatever its position and yaw.
   */
  lemma ConsistentCameraCentred(m: MathLib, position: Vector3, yaw: real, p: Vector3)
    ensures var rows := CameraRows(m, position, LookDirection(m, yaw));
      ConsistentCameraSpace(m, position, yaw, p) == Add(Transform(rows, p).value, InverseTranslation(position, rows).value)
    ensures ConsistentCameraSpace(m, position, yaw, position) == [0.0, 0.0, 0.0]
  {
    var rows := CameraRows(m, position, LookDirection(m, yaw));
    InverseTranslationOffset(position, rows, p);
    assert Subtract(position, position) == [0.0, 0.0, 0.0];
  }

  /**
   * With `sin` and `cos` of a quarter turn being 1 and 0 and `sqrt(1)` being 1, the camera turned
   * by 90 degrees has rows right = (0, 0, 1), up = (0, 1, 0), forward = (−1, 0, 0).
   */
  lemma QuarterTurnRows(m: MathLib, position: Vector3)
    requires m.sin(Radians(m, 90.0)) == 1.0 && m.cos(Radians(m, 90.0)) == 0.0 && m.sqrt(1.0) == 1.0
    ensures CameraRows(m, position, LookDirection(m, 90.0)) == [[0.0, 0.0, 1.0], [0.0, 1.0, 0.0], [-1.0, 0.0, 0.0]]
  {
    LookDirectionIs(m, 90.0);
    var look: Vector3 := [-1.0, 0.0, 0.0];
    assert LookDirection(m, 90.0) == look;
    assert Subtract(Add(position, look), position) == look;
    assert Length(m, look) == 1.0;
    var up: Vector3 := [0.0, 1.0, 0.0];
    assert Normalise(m, look) == look;
    assert Dot(up, look) == 0.0;
    assert Subtract(up, Multiply(look, 0.0)) == up;
    assert Length(m, up) == 1.0;
    assert Normalise(m, up) == up;
    assert Cross(up, look) == [0.0, 0.0, 1.0];
  }

  /**
   * As written, a camera turned by 90 degrees does not see itself at the origin: its position
   * (x, y, z) lands at (−2z, 0, 2x), so a camera at (1, 0, 0) sees itself at (0, 0, 2).
   */
  lemma QuarterTurnOffCentre(m: MathLib, position: Vector3)
    requires m.sin(Radians(m, 90.0)) == 1.0 && m.cos(Radians(m, 90.0)) == 0.0 && m.sqrt(1.0) == 1.0
    ensures CameraSpace(m, position, 90.0, position) == [-2.0 * position[2], 0.0, 2.0 * position[0]]
    ensures position == [1.0, 0.0, 0.0] ==> CameraSpace(m, position, 90.0, position) == [0.0, 0.0, 2.0]
  {
    QuarterTurnRows(m, position);
    var rows: seq<Vector3> := [[0.0, 0.0, 1.0], [0.0, 1.0, 0.0], [-1.0, 0.0, 0.0]];
    var t: seq<Vector3> := [[0.0, 0.0, -1.0], [0.0, 1.0, 0.0], [1.0, 0.0, 0.0]];
    assert InverseRotation(rows).value == t;
    assert Transform(t, position).value == [-position[2], position[1], position[0]];
    assert InverseTranslation(position, rows).value == [-position[2], -position[1], position[0]];
  }

  /**
   * With no yaw (`sin 0 = 0`, `cos 0 = 1`, `sqrt(1) = 1`) the camera rows are the identity, and
   * the step as written agrees with the consistent one: the point minus the camera position.
   */
  lemma NoYawAgrees(m: MathLib, position: Vector3, p: Vector3)
    requires m.sin(Radians(m, 0.0)) == 0.0 && m.cos(Radians(m, 0.0)) == 1.0 && m.sqrt(1.0) == 1.0
    ensures CameraSpace(m, position, 0.0, p) == Subtract(p, position)
    ensures ConsistentCameraSpace(m, position, 0.0, p) == Subtract(p, position)
  {
    LookDirectionIs(m, 0.0);
    var look: Vector3 := [0.0, 0.0, 1.0];
    assert LookDirection(m, 0.0) == [-0.0, 0.0, 1.0];
    assert Subtract(Add(position, look), position) == look;
    assert Length(m, look) == 1.0;
    var up: Vector3 := [0.0, 1.0, 0.0];
    assert Normalise(m, look) == look;
    assert Dot(up, look) == 0.0;
    assert Subtract(up, Multiply(look, 0.0)) == up;
    assert Length(m, up) == 1.0;
    assert Normalise(m, up) == up;
    assert Cross(up, look) == [1.0, 0.0, 0.0];
    var rows: seq<Vector3> := [[1.0, 0.0, 0.0], [0.0, 1.0, 0.0], [0.0, 0.0, 1.0]];
    assert CameraRows(m, position, LookDirection(m, 0.0)) == rows;
    assert InverseRotation(rows).value == rows;
  }

  // ---------------------------------------------------------------------------
  // The pipeline, stage by stage

  /** What `drawShape` reads from a shape: its rotation angles, origin, size and colour. */
  datatype Pose = Pose(rx: real, ry: real, rz: real, origin: Vector3, size: real, color: Color)

  /** The world translation: the origin divided by the size, component by component. */
  function Translation(pose: Pose): (t: Vector3)
    ensures pose.size != 0.0 ==> forall i | 0 <= i < 3 :: t[i] * pose.size == pose.origin[i]
  {
    Divide(pose.origin, pose.size)
  }

  /** One shape point in the world: rotated about x, then y, then z, then moved by the translation. */
  function TransformPoint(m: MathLib, pose: Pose, p: Vector3): Vector3
  {
    Add(Rotate(m, Rotate(m, Rotate(m, p, pose.rx, X), pose.ry, Y), pose.rz, Z), Translation(pose))
  }

  /** The point at an index the selection has checked; an unchecked index would read as the origin. */
  function Corner(points: seq<Vector3>, i: real): Vector3
  {
    match Indexed(points, i)
    case Some(p) => p
    case None => [0.0, 0.0, 0.0]
  }

  /** All three corners of a triangle name existing points. */
  predicate Defined(points: seq<Vector3>, tri: EngineShape.Triangle)
  {
    Indexed(points, tri[0]).Some? && Indexed(points, tri[1]).Some? && Indexed(points, tri[2]).Some?
  }

  /** The normal of a triangle of transformed points. */
  function NormalOf(m: MathLib, points: seq<Vector3>, tri: EngineShape.Triangle): Vector3
  {
    Normal(m, Corner(points, tri[0]), Corner(points, tri[1]), Corner(points, tri[2]))
  }

  /** The back-face test: the triangle is kept when the view from the camera to its first corner does not point along its normal. */
  predicate FacesCamera(m: MathLib, points: seq<Vector3>, position: Vector3, tri: EngineShape.Triangle)
  {
    Dot(Subtract(Corner(points, tri[0]), position), NormalOf(m, points, tri)) <= 0.0
  }

  /** A kept triangle with the colour the map `triangleColors` holds for it. */
  datatype Visible = Visible(tri: EngineShape.Triangle, paint: Paint)

  /** The shaded entry for a triangle. */
  function Shade(m: MathLib, points: seq<Vector3>, color: Color, tri: EngineShape.Triangle): Visible
  {
    Visible(tri, CalculateColor(NormalOf(m, points, tri), color))
  }

  /** One triangle through the selection loop: the throw, a skip, or the shaded entry. */
  function Classify(m: MathLib, points: seq<Vector3>, position: Vector3, color: Color, tri: EngineShape.Triangle): Result<Option<Visible>, string>
  {
    if !Defined(points, tri) then Failure(UndefinedPoint)
    else if !FacesCamera(m, points, position, tri) then Success(None)
    else Success(Some(Shade(m, points, color, tri)))
  }

  /**
   * The shape of the selection loop: every triangle classified in order; the first throw ends
   * it, and the entries of the triangles kept are collected in order.
   */
  function Collect(classify: EngineShape.Triangle -> Result<Option<Visible>, string>, tris: seq<EngineShape.Triangle>): Result<seq<Visible>, string>
  {
    if |tris| == 0 then Success([])
    else
      match Collect(classify, tris[..|tris| - 1])
      case Failure(e) => Failure(e)
      case Success(vs) =>
        match classify(tris[|tris| - 1])
        case Failure(e) => Failure(e)
        case Success(None) => Success(vs)
        case Success(Some(v)) => Success(vs + [v])
  }

  /** The selection loop over the triangles: the kept ones, shaded, in order, or the first throw. */
  function Select(m: MathLib, points: seq<Vector3>, position: Vector3, color: Color, tris: seq<EngineShape.Triangle>): Result<seq<Visible>, string>
  {
    Collect(Classifier(m, points, position, color), tris)
  }

  /** `Classify` for one frame's points, camera position and colour. */
  function Classifier(m: MathLib, points: seq<Vector3>, position: Vector3, color: Color): EngineShape.Triangle -> Result<Option<Visible>, string>
  {
    (tri: EngineShape.Triangle) => Classify(m, points, position, color, tri)
  }

  /** The painter's key: the sum of the transformed z of a triangle's three corners. */
  function ZSum(points: seq<Vector3>, tri: EngineShape.Triangle): real
  {
    Corner(points, tri[0])[2] + Corner(points, tri[1])[2] + Corner(points, tri[2])[2]
  }

  /** A point of the world moved into camera space, projected and scaled by the shape's size. */
  function ViewPoint(rot: seq<Vector3>, trans: Vector3, size: real, p: Vector3): Vector3
    requires |rot| == 3
  {
    var q := Add(Transform(rot, p).value, trans);
    Multiply(Project2d(q), size)
  }

  /** In front of or behind the camera (non-zero depth), x and y are divided by the depth, and all three scaled by the size. */
  lemma ViewPointDivides(rot: seq<Vector3>, trans: Vector3, size: real, p: Vector3, q: Vector3)
    requires |rot| == 3 && q == Add(Transform(rot, p).value, trans) && q[2] != 0.0
    ensures ViewPoint(rot, trans, size, p) == [q[0] / q[2] * size, q[1] / q[2] * size, q[2] * size]
  {
    Project2dDivides(q);
    var projected := Project2d(q);
    var r := ViewPoint(rot, trans, size, p);
    assert r == Multiply(projected, size);
    forall i | 0 <= i < 3
      ensures r[i] == [q[0] / q[2] * size, q[1] / q[2] * size, q[2] * size][i]
    {
      assert r[i] == projected[i] * size;
    }
  }

  /** The drawing loop's calls for the sorted triangles: each filled and outlined in its colour. */
  function VisibleCommands(centerX: real, centerY: real, projected: seq<Vector3>, vs: seq<Visible>): (cs: seq<Command>)
    ensures |cs| == 4 * |vs|
  {
    if |vs| == 0 then []
    else
      var v := vs[|vs| - 1];
      VisibleCommands(centerX, centerY, projected, vs[..|vs| - 1])
        + FillCommands(centerX, centerY, Corner(projected, v.tri[0]), Corner(projected, v.tri[1]), Corner(projected, v.tri[2]), v.paint)
  }

  /** Everything `drawShape` reads: the camera, the shape and the canvas centre. */
  datatype Frame = Frame(position: Vector3, yaw: real, pose: Pose, points: seq<Vector3>,
                         triangles: seq<EngineShape.Triangle>, centerX: real, centerY: real)

  /** The points after the transforming loop. */
  function Transformed(m: MathLib, f: Frame): (r: seq<Vector3>)
    ensures |r| == |f.points|
  {
    seq(|f.points|, i requires 0 <= i < |f.points| => TransformPoint(m, f.pose, f.points[i]))
  }

  /** The points after the projecting loop. */
  function Projected(m: MathLib, f: Frame): (r: seq<Vector3>)
    ensures |r| == |f.points|
  {
    var rows := CameraRows(m, f.position, LookDirection(m, f.yaw));
    var rot := InverseRotation(rows).value;
    var trans := InverseTranslation(f.position, rows).value;
    var pt := Transformed(m, f);
    seq(|pt|, i requires 0 <= i < |pt| => ViewPoint(rot, trans, f.pose.size, pt[i]))
  }

  /** Each projected point is its transformed point moved into the camera's view as written, projected and scaled. */
  lemma ProjectedByCameraSpace(m: MathLib, f: Frame, i: nat)
    requires i < |f.points|
    ensures Projected(m, f)[i] == Multiply(Project2d(CameraSpace(m, f.position, f.yaw, Transformed(m, f)[i])), f.pose.size)
  {
  }

  /** The kept triangles after the sort. */
  function Sorted(m: MathLib, f: Frame, vs: seq<Visible>): seq<Visible>
  {
    var pt := Transformed(m, f);
    SortDesc(vs, (v: Visible) => ZSum(pt, v.tri))
  }

  /** What `drawShape` draws, or the error it throws before drawing anything. */
  function Scene(m: MathLib, f: Frame): Result<seq<Command>, string>
  {
    match Select(m, Transformed(m, f), f.position, f.pose.color, f.triangles)
    case Failure(e) => Failure(e)
    case Success(vs) => Success(VisibleCommands(f.centerX, f.centerY, Projected(m, f), Sorted(m, f, vs)))
  }

  // ---------------------------------------------------------------------------
  // What the pipeline promises

  /** The three outcomes of classifying one triangle. */
  lemma ClassifyCases(m: MathLib, points: seq<Vector3>, position: Vector3, color: Color, tri: EngineShape.Triangle)
    ensures Classify(m, points, position, color, tri).Success? <==> Defined(points, tri)
    ensures Classify(m, points, position, color, tri).Failure? ==> Classify(m, points, position, color, tri).error == UndefinedPoint
    ensures Classify(m, points, position, color, tri) == Success(Some(Shade(m, points, color, tri))) <==>
      Defined(points, tri) && FacesCamera(m, points, position, tri)
    ensures forall v :: Classify(m, points, position, color, tri) == Success(Some(v)) ==> v == Shade(m, points, color, tri)
  {
  }

  /** Once collecting a prefix fails, collecting the whole keeps that error. */
  lemma {:induction false} CollectFailureSticks(classify: EngineShape.Triangle -> Result<Option<Visible>, string>, tris: seq<EngineShape.Triangle>, k: nat)
    requires k <= |tris| && Collect(classify, tris[..k]).Failure?
    ensures Collect(classify, tris) == Collect(classify, tris[..k])
    decreases |tris|
  {
    if k < |tris| {
      var front := tris[..|tris| - 1];
      assert front[..k] == tris[..k];
      CollectFailureSticks(classify, front, k);
    } else {
      assert tris[..k] == tris;
    }
  }

  /** Collection succeeds exactly when no triangle's classification throws, and otherwise fails with one of their errors. */
  lemma {:induction false} CollectErrors(classify: EngineShape.Triangle -> Result<Option<Visible>, string>, tris: seq<EngineShape.Triangle>)
    ensures Collect(classify, tris).Success? <==> forall k | 0 <= k < |tris| :: classify(tris[k]).Success?
    ensures Collect(classify, tris).Failure? ==>
      exists k | 0 <= k < |tris| :: classify(tris[k]) == Failure(Collect(classify, tris).error)
  {
    if |tris| > 0 {
      var n := |tris| - 1;
      var front := tris[..n];
      CollectErrors(classify, front);
      assert forall k | 0 <= k < n :: front[k] == tris[k];
    }
  }

  /** Every collected entry is the entry some triangle was classified to keep. */
  lemma {:induction false} CollectSound(classify: EngineShape.Triangle -> Result<Option<Visible>, string>, tris: seq<EngineShape.Triangle>)
    requires Collect(classify, tris).Success?
    ensures var vs := Collect(classify, tris).value;
      && |vs| <= |tris|
      && forall i | 0 <= i < |vs| :: exists k | 0 <= k < |tris| :: classify(tris[k]) == Success(Some(vs[i]))
  {
    if |tris| > 0 {
      var n := |tris| - 1;
      var front := tris[..n];
      CollectSound(classify, front);
      var vs := Collect(classify, tris).value;
      var fs := Collect(classify, front).value;
      forall i | 0 <= i < |vs|
        ensures exists k | 0 <= k < |tris| :: classify(tris[k]) == Success(Some(vs[i]))
      {
        if i < |fs| {
          assert vs[i] == fs[i];
          var j :| 0 <= j < |front| && classify(front[j]) == Success(Some(fs[i]));
          assert tris[j] == front[j];
        } else {
          assert classify(tris[n]) == Success(Some(vs[i]));
        }
      }
    }
  }

  /** Every entry a triangle is classified to keep is collected. */
  lemma {:induction false} CollectComplete(classify: EngineShape.Triangle -> Result<Option<Visible>, string>, tris: seq<EngineShape.Triangle>)
    requires Collect(classify, tris).Success?
    ensures forall k, v | 0 <= k < |tris| && classify(tris[k]) == Success(Some(v)) :: v in Collect(classify, tris).value
  {
    if |tris| > 0 {
      var n := |tris| - 1;
      var front := tris[..n];
      CollectComplete(classify, front);
      var vs := Collect(classify, tris).value;
      var fs := Collect(classify, front).value;
      forall k, v | 0 <= k < |tris| && classify(tris[k]) == Success(Some(v))
        ensures v in vs
      {
        if k < n {
          assert front[k] == tris[k];
          assert v in fs;
        } else {
          assert vs[|vs| - 1] == v;
        }
      }
    }
  }

  /** Once the selection of a prefix fails, the selection of the whole keeps that error. */
  lemma SelectFailureSticks(m: MathLib, points: seq<Vector3>, position: Vector3, color: Color, tris: seq<EngineShape.Triangle>, k: nat)
    requires k <= |tris| && Select(m, points, position, color, tris[..k]).Failure?
    ensures Select(m, points, position, color, tris) == Select(m, points, position, color, tris[..k])
  {
    CollectFailureSticks(Classifier(m, points, position, color), tris, k);
  }

  /** Selecting one more triangle after a successful prefix is classifying it. */
  lemma SelectStep(m: MathLib, points: seq<Vector3>, position: Vector3, color: Color, tris: seq<EngineShape.Triangle>, k: nat)
    requires k < |tris|
    ensures Select(m, points, position, color, tris[..k + 1]) ==
      match Select(m, points, position, color, tris[..k])
      case Failure(e) => Failure(e)
      case Success(vs) =>
        match Classify(m, points, position, color, tris[k])
        case Failure(e) => Failure(e)
        case Success(None) => Success(vs)
        case Success(Some(v)) => Success(vs + [v])
  {
    assert tris[..k + 1][..k] == tris[..k];
  }

  /** The selection throws exactly when some triangle names a point that does not exist, and then with the undefined-point error. */
  lemma SelectErrors(m: MathLib, points: seq<Vector3>, position: Vector3, color: Color, tris: seq<EngineShape.Triangle>)
    ensures Select(m, points, position, color, tris).Success? <==> forall k | 0 <= k < |tris| :: Defined(points, tris[k])
    ensures Select(m, points, position, color, tris).Failure? ==> Select(m, points, position, color, tris).error == UndefinedPoint
  {
    var classify := Classifier(m, points, position, color);
    CollectErrors(classify, tris);
    forall k | 0 <= k < |tris|
      ensures classify(tris[k]).Success? <==> Defined(points, tris[k])
      ensures classify(tris[k]).Failure? ==> classify(tris[k]).error == UndefinedPoint
    {
      ClassifyCases(m, points, position, color, tris[k]);
    }
  }

  /** Every selected entry is a triangle of the shape that faces the camera, in the colour it is shaded with. */
  lemma SelectSound(m: MathLib, points: seq<Vector3>, position: Vector3, color: Color, tris: seq<EngineShape.Triangle>)
    requires Select(m, points, position, color, tris).Success?
    ensures var vs := Select(m, points, position, color, tris).value;
      && |vs| <= |tris|
      && forall i | 0 <= i < |vs| ::
           vs[i].tri in tris && FacesCamera(m, points, position, vs[i].tri) && vs[i] == Shade(m, points, color, vs[i].tri)
  {
    var classify := Classifier(m, points, position, color);
    CollectSound(classify, tris);
    var vs := Select(m, points, position, color, tris).value;
    forall i | 0 <= i < |vs|
      ensures vs[i].tri in tris && FacesCamera(m, points, position, vs[i].tri) && vs[i] == Shade(m, points, color, vs[i].tri)
    {
      var k :| 0 <= k < |tris| && classify(tris[k]) == Success(Some(vs[i]));
      ClassifyCases(m, points, position, color, tris[k]);
    }
  }

  /** Every triangle of the shape that faces the camera is selected, in the colour it is shaded with. */
  lemma SelectComplete(m: MathLib, points: seq<Vector3>, position: Vector3, color: Color, tris: seq<EngineShape.Triangle>)
    requires Select(m, points, position, color, tris).Success?
    ensures var vs := Select(m, points, position, color, tris).value;
      forall k | 0 <= k < |tris| && FacesCamera(m, points, position, tris[k]) :: Shade(m, points, color, tris[k]) in vs
  {
    var classify := Classifier(m, points, position, color);
    CollectComplete(classify, tris);
    SelectErrors(m, points, position, color, tris);
    forall k | 0 <= k < |tris| && FacesCamera(m, points, position, tris[k])
      ensures Shade(m, points, color, tris[k]) in Select(m, points, position, color, tris).value
    {
      ClassifyCases(m, points, position, color, tris[k]);
      assert classify(tris[k]) == Success(Some(Shade(m, points, color, tris[k])));
    }
  }

  /** Drawing one more kept triangle appends its four calls. */
  lemma VisibleStep(centerX: real, centerY: real, projected: seq<Vector3>, vs: seq<Visible>, k: nat)
    requires k < |vs|
    ensures VisibleCommands(centerX, centerY, projected, vs[..k + 1]) ==
      VisibleCommands(centerX, centerY, projected, vs[..k])
        + FillCommands(centerX, centerY, Corner(projected, vs[k].tri[0]), Corner(projected, vs[k].tri[1]), Corner(projected, vs[k].tri[2]), vs[k].paint)
  {
    assert vs[..k + 1][..k] == vs[..k];
  }

  /** The calls for the kept triangles come in fours, one fill per triangle, in the triangles' order and colours. */
  lemma {:induction false} VisibleFills(centerX: real, centerY: real, projected: seq<Vector3>, vs: seq<Visible>)
    ensures forall k | 0 <= k < |vs| ::
      VisibleCommands(centerX, centerY, projected, vs)[4 * k] ==
        Fill(ToScreen(centerX, centerY, Corner(projected, vs[k].tri[0])),
             ToScreen(centerX, centerY, Corner(projected, vs[k].tri[1])),
             ToScreen(centerX, centerY, Corner(projected, vs[k].tri[2])), vs[k].paint)
  {
    if |vs| > 0 {
      var n := |vs| - 1;
      var front := vs[..n];
      VisibleFills(centerX, centerY, projected, front);
      var cs := VisibleCommands(centerX, centerY, projected, vs);
      var fcs := VisibleCommands(centerX, centerY, projected, front);
      forall k | 0 <= k < |vs|
        ensures cs[4 * k] == Fill(ToScreen(centerX, centerY, Corner(projected, vs[k].tri[0])),
                                  ToScreen(centerX, centerY, Corner(projected, vs[k].tri[1])),
                                  ToScreen(centerX, centerY, Corner(projected, vs[k].tri[2])), vs[k].paint)
      {
        if k < n {
          assert cs[4 * k] == fcs[4 * k];
          assert front[k] == vs[k];
        }
      }
    }
  }

  /**
   * When `drawShape` draws, it fills each triangle facing the camera exactly once, back to
   * front (non-increasing sum of transformed z), each in its shaded colour, so the fallback
   * colour `red` is never used.
   */
  lemma SceneOrder(m: MathLib, f: Frame)
    requires Scene(m, f).Success?
    ensures var pt := Transformed(m, f);
      var vs := Select(m, pt, f.position, f.pose.color, f.triangles).value;
      var sorted := Sorted(m, f, vs);
      && multiset(sorted) == multiset(vs)
      && SortedDesc(sorted, (v: Visible) => ZSum(pt, v.tri))
      && |Scene(m, f).value| == 4 * |sorted|
      && (forall k | 0 <= k < |sorted| :: Scene(m, f).value[4 * k].Fill? && Scene(m, f).value[4 * k].paint == sorted[k].paint)
      && (forall k | 0 <= k < |sorted| :: sorted[k].paint.Rgb?)
  {
    var pt := Transformed(m, f);
    var vs := Select(m, pt, f.position, f.pose.color, f.triangles).value;
    var key := (v: Visible) => ZSum(pt, v.tri);
    var sorted := SortDesc(vs, key);
    SortDescCorrect(vs, key);
    VisibleFills(f.centerX, f.centerY, Projected(m, f), sorted);
    SelectSound(m, pt, f.position, f.pose.color, f.triangles);
    SortedPaints(vs, key);
  }

  /** Sorting keeps every entry, so entries that all have an `rgb` colour still do. */
  lemma SortedPaints(vs: seq<Visible>, key: Visible -> real)
    requires forall i | 0 <= i < |vs| :: vs[i].paint.Rgb?
    ensures forall k | 0 <= k < |SortDesc(vs, key)| :: SortDesc(vs, key)[k].paint.Rgb?
  {
    var sorted := SortDesc(vs, key);
    forall k | 0 <= k < |sorted|
      ensures sorted[k].paint.Rgb?
    {
      SortDescMember(vs, key, sorted[k]);
    }
  }

  // ---------------------------------------------------------------------------
  // The renderer

  /** The placement `drawShape` reads from a shape. */
  function PoseOf(shape: EngineShape.Shape): Pose
    reads shape, shape.origin, shape.rotation
  {
    var x, y, z := shape.origin.x, shape.origin.y, shape.origin.z;
    Pose(shape.rotation.x, shape.rotation.y, shape.rotation.z, [x, y, z], shape.size, shape.colorObj)
  }

  /** The transforming loop: one world point per shape point, in order. */
  method TransformPoints(m: MathLib, pose: Pose, points: seq<Vector3>) returns (pointsTransformed: seq<Vector3>)
    ensures |pointsTransformed| == |points|
    ensures forall i | 0 <= i < |points| :: pointsTransformed[i] == TransformPoint(m, pose, points[i])
  {
    var translationVec := Divide(pose.origin, pose.size);
    pointsTransformed := [];
    for k := 0 to |points|
      invariant |pointsTransformed| == k
      invariant forall i | 0 <= i < k :: pointsTransformed[i] == TransformPoint(m, pose, points[i])
    {
      var point := points[k];
      point := Rotate(m, point, pose.rx, X);
      point := Rotate(m, point, pose.ry, Y);
      point := Rotate(m, point, pose.rz, Z);
      point := Add(point, translationVec);
      pointsTransformed := pointsTransformed + [point];
    }
  }

  /**
   * The body of the selection loop for one triangle: reading an undefined corner throws; a
   * triangle facing away is skipped; otherwise it is shaded.
   */
  method ClassifyTriangle(m: MathLib, pointsTransformed: seq<Vector3>, position: Vector3, color: Color, triangle: EngineShape.Triangle)
    returns (r: Result<Option<Visible>, string>)
    ensures r == Classify(m, pointsTransformed, position, color, triangle)
  {
    var a, b, c := Indexed(pointsTransformed, triangle[0]), Indexed(pointsTransformed, triangle[1]), Indexed(pointsTransformed, triangle[2]);
    if a.None? || b.None? || c.None? {
      return Failure(UndefinedPoint);
    }
    var normal := Normal(m, a.value, b.value, c.value);
    var dotProduct := Dot(Subtract(a.value, position), normal);
    if dotProduct > 0.0 {
      return Success(None);
    }
    var paint := CalculateColor(normal, color);
    return Success(Some(Visible(triangle, paint)));
  }

  /** The selection loop: the triangles that face the camera, each with its colour, in order. */
  method SelectTriangles(m: MathLib, pointsTransformed: seq<Vector3>, position: Vector3, color: Color, triangles: seq<EngineShape.Triangle>)
    returns (r: Result<seq<Visible>, string>)
    ensures r == Select(m, pointsTransformed, position, color, triangles)
  {
    var visibleTriangles: seq<Visible> := [];
    for k := 0 to |triangles|
      invariant Select(m, pointsTransformed, position, color, triangles[..k]) == Success(visibleTriangles)
    {
      SelectStep(m, pointsTransformed, position, color, triangles, k);
      var c := ClassifyTriangle(m, pointsTransformed, position, color, triangles[k]);
      if c.Failure? {
        SelectFailureSticks(m, pointsTransformed, position, color, triangles, k + 1);
        return Failure(c.error);
      }
      if c.value.Some? {
        visibleTriangles := visibleTriangles + [c.value.value];
      }
    }
    assert triangles[..|triangles|] == triangles;
    return Success(visibleTriangles);
  }

  /** The projecting loop: one screen-space point per transformed point, in order. */
  method ProjectPoints(rot: seq<Vector3>, trans: Vector3, size: real, pointsTransformed: seq<Vector3>) returns (pointsProjected: seq<Vector3>)
    requires |rot| == 3
    ensures |pointsProjected| == |pointsTransformed|
    ensures forall i | 0 <= i < |pointsTransformed| :: pointsProjected[i] == ViewPoint(rot, trans, size, pointsTransformed[i])
  {
    pointsProjected := [];
    for k := 0 to |pointsTransformed|
      invariant |pointsProjected| == k
      invariant forall i | 0 <= i < k :: pointsProjected[i] == ViewPoint(rot, trans, size, pointsTransformed[i])
    {
      var moved := VectorMatrixMultiply(rot, pointsTransformed[k]);
      var point := Add(moved.value, trans);
      point := Project2d(point);
      point := Multiply(point, size);
      pointsProjected := pointsProjected + [point];
    }
  }

  class Renderer {
    const canvas: Canvas
    const camera: Camera
    const centerX: real
    const centerY: real

    constructor(canvas: Canvas, camera: Camera)
      ensures this.canvas == canvas && this.camera == camera
      ensures centerX == canvas.width / 2.0 && centerY == canvas.height / 2.0
    {
      this.canvas := canvas;
      this.camera := camera;
      centerX := canvas.width / 2.0;
      centerY := canvas.height / 2.0;
    }

    /** `drawPoint`: a dot at the point's place on the canvas. */
    method DrawPoint(point: Vector3, color: Paint)
      modifies canvas`commands
      ensures canvas.commands == old(canvas.commands) + [Mark(ToScreen(centerX, centerY, point), color)]
    {
      canvas.commands := canvas.commands + [Mark(ToScreen(centerX, centerY, point), color)];
    }

    /** `drawLine`: a stroke between the two points' places. */
    method DrawLine(a: Vector3, b: Vector3, color: Paint)
      modifies canvas`commands
      ensures canvas.commands == old(canvas.commands) + [Line(ToScreen(centerX, centerY, a), ToScreen(centerX, centerY, b), color)]
    {
      canvas.commands := canvas.commands + [Line(ToScreen(centerX, centerY, a), ToScreen(centerX, centerY, b), color)];
    }

    /** `drawTriangle`: the outline `a-b`, `a-c`, `b-c`. */
    method DrawTriangle(a: Vector3, b: Vector3, c: Vector3, color: Paint)
      modifies canvas`commands
      ensures canvas.commands == old(canvas.commands) + FillCommands(centerX, centerY, a, b, c, color)[1..]
    {
      DrawLine(a, b, color);
      DrawLine(a, c, color);
      DrawLine(b, c, color);
    }

    /** `fillTriangle`: the filled triangle, then its outline. */
    method FillTriangle(a: Vector3, b: Vector3, c: Vector3, color: Paint)
      modifies canvas`commands
      ensures canvas.commands == old(canvas.commands) + FillCommands(centerX, centerY, a, b, c, color)
    {
      var sa, sb, sc := ToScreen(centerX, centerY, a), ToScreen(centerX, centerY, b), ToScreen(centerX, centerY, c);
      canvas.commands := canvas.commands + [Fill(sa, sb, sc, color)];
      DrawTriangle(a, b, c, color);
    }

    /** `clear`: the canvas is emptied. */
    method Clear()
      modifies canvas`commands
      ensures canvas.commands == []
    {
      canvas.commands := [];
    }

    /** The drawing loop: each sorted triangle filled in its colour from the projected points. */
    method DrawVisible(pointsProjected: seq<Vector3>, sorted: seq<Visible>)
      modifies canvas`commands
      ensures canvas.commands == old(canvas.commands) + VisibleCommands(centerX, centerY, pointsProjected, sorted)
    {
      for k := 0 to |sorted|
        invariant canvas.commands == old(canvas.commands) + VisibleCommands(centerX, centerY, pointsProjected, sorted[..k])
      {
        VisibleStep(centerX, centerY, pointsProjected, sorted, k);
        var triangle := sorted[k].tri;
        FillTriangle(Corner(pointsProjected, triangle[0]), Corner(pointsProjected, triangle[1]), Corner(pointsProjected, triangle[2]), sorted[k].paint);
      }
      assert sorted[..|sorted|] == sorted;
    }

    /** What `drawShape(shape)` reads. */
    function FrameOf(shape: EngineShape.Shape): Frame
      reads camera`position, camera`yaw, shape, shape.origin, shape.rotation
    {
      Frame(camera.position, camera.yaw, PoseOf(shape), shape.points, shape.triangles, centerX, centerY)
    }

    /**
     * `drawShape(shape)`: turns the camera's look direction to its yaw, then draws what `Scene`
     * describes, or throws before drawing anything; the shape is not changed.
     */
    method DrawShape(m: MathLib, shape: EngineShape.Shape) returns (r: Result<(), string>)
      modifies camera`lookDirection, canvas`commands
      ensures camera.lookDirection == LookDirection(m, camera.yaw)
      ensures r.Success? <==> Scene(m, FrameOf(shape)).Success?
      ensures r.Success? ==> canvas.commands == old(canvas.commands) + Scene(m, FrameOf(shape)).value
      ensures r.Failure? ==> canvas.commands == old(canvas.commands) && r.error == Scene(m, FrameOf(shape)).error
    {
      var f := FrameOf(shape);
      var lookDirection, matViewRotation, matViewTranslation := ViewMatrices(m, f.position, f.yaw);
      camera.lookDirection := lookDirection;
      var pointsTransformed := TransformPoints(m, f.pose, f.points);
      assert pointsTransformed == Transformed(m, f);
      var selected := SelectTriangles(m, pointsTransformed, f.position, f.pose.color, f.triangles);
      if selected.Failure? {
        return Failure(selected.error);
      }
      var visibleTriangles := SortDesc(selected.value, (v: Visible) => ZSum(pointsTransformed, v.tri));
      var pointsProjected := ProjectPoints(matViewRotation, matViewTranslation, f.pose.size, pointsTransformed);
      assert pointsProjected == Projected(m, f);
      DrawVisible(pointsProjected, visibleTriangles);
      return Success(());
    }
  }

  /**
   * The view set-up of `drawShape`: the look direction for the yaw, the camera's rows for
   * looking from its position along it, and their inverse rotation and translation.
   */
  method ViewMatrices(m: MathLib, position: Vector3, yaw: real) returns (lookDirection: Vector3, matViewRotation: seq<Vector3>, matViewTranslation: Vector3)
    ensures lookDirection == LookDirection(m, yaw)
    ensures |matViewRotation| == 3
    ensures matViewRotation == InverseRotation(CameraRows(m, position, lookDirection)).value
    ensures matViewTranslation == InverseTranslation(position, CameraRows(m, position, lookDirection)).value
  {
    var vUp: Vector3 := [0.0, 1.0, 0.0];
    var vTarget: Vector3 := [0.0, 0.0, 1.0];
    lookDirection := Rotate(m, vTarget, yaw, Y);
    vTarget := Add(position, lookDirection);
    var matCamera := PointAt(m, position, vTarget, vUp);
    matViewRotation := InverseRotation(matCamera).value;
    matViewTranslation := InverseTranslation(position, matCamera).value;
  }
}
