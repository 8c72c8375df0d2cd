/**
 * The EngineUtils `Renderer` object: the camera it moves, the canvas it draws on (kept as the
 * list of drawing calls made since the last clear) and `drawShape`, whose loops are proved to
 * draw exactly what `UtilsPipeline.Scene` describes.
 */
module UtilsRenderer {
  import opened Wrappers
  import opened JsNumber
  import opened UtilsVector
  import opened UtilsClipper
  import opened DepthSort
  import opened ShapeCommon
  import opened UtilsShape
  import opened UtilsPieces
  import opened UtilsPipeline

  /** The camera: where it stands, where it looks and its yaw about the y axis. */
  class Camera {
    var position: Vector
    var lookDirection: Vector
    var yaw: real

    constructor(position: Vector, lookDirection: Vector, yaw: real)
      ensures this.position == position && this.lookDirection == lookDirection && this.yaw == yaw
    {
      this.position := position;
      this.lookDirection := lookDirection;
      this.yaw := yaw;
    }
  }

  /** A canvas of a given size; what is on it is the list of drawing calls since it was last cleared. */
  class Canvas {
    var width: real
    var height: real
    var commands: seq<Command>

    constructor(width: real, height: real)
      ensures this.width == width && this.height == height && commands == []
    {
      this.width := width;
      this.height := height;
      commands := [];
    }
  }

  /** The error `drawShape` throws when a triangle names a point that does not exist. */
  const UndefinedPoint := "Cannot read properties of undefined (reading 'x')"

  /** The placement `drawShape` reads from a shape. */
  function PoseOf(shape: Shape): (p: Pose)
    reads shape, shape.origin, shape.rotation
    ensures p.origin == Vector(shape.origin.x, shape.origin.y, shape.origin.z, 1.0)
    ensures p.rx == shape.rotation.x && p.ry == shape.rotation.y && p.rz == shape.rotation.z
    ensures p.size == shape.size && p.color == shape.colorObj
  {
    Pose(shape.rotation.x, shape.rotation.y, shape.rotation.z,
         Xyz(shape.origin.x, shape.origin.y, shape.origin.z), shape.size, shape.colorObj)
  }

  /** The identifier of a selected triangle, which the colour map is keyed by. */
  function LitId(l: Lit): int
  {
    l.id
  }

  /** The three corners of `triangle` replaced, one after the other, by their product with `mat`. */
  method TransformCorners(mat: Matrix, triangle: array<Vector>)
    requires triangle.Length == 3
    modifies triangle
    ensures triangle[..] == Apply(mat, old(triangle[..]))
  {
    for i := 0 to 3
      invariant forall j | 0 <= j < i :: triangle[j] == VectorMatrixMultiply(mat, old(triangle[j]))
      invariant forall j | i <= j < 3 :: triangle[j] == old(triangle[j])
    {
      triangle[i] := VectorMatrixMultiply(mat, triangle[i]);
    }
  }

  /** Classifying one more triangle appends its classification. */
  lemma ClassifiedStep(m: MathLib, world: Matrix, view: Matrix, position: Vector, color: Color, faces: seq<Face>, k: nat)
    requires k < |faces| && forall i | 0 <= i <= k :: Complete(faces[i])
    ensures Gather(Classified(m, world, view, position, color, faces[..k + 1])) ==
      var s := Gather(Classified(m, world, view, position, color, faces[..k]));
      var c := Classify(m, world, view, position, color, faces[k]);
      if c.None? then s else Selection(s.lits + [Lit(k, c.value.tri)], s.colors[k := c.value.paint])
  {
    var cs := Classified(m, world, view, position, color, faces[..k + 1]);
    assert cs[..k] == Classified(m, world, view, position, color, faces[..k]);
  }

  /**
   * The body of the first loop of `drawShape` for one triangle: its points copied, moved to world
   * space, dropped when it faces away from the camera, otherwise shaded and moved to view space.
   */
  method ClassifyFace(m: MathLib, worldMatrix: Matrix, viewMatrix: Matrix, position: Vector, colorObj: Color, f: Face)
    returns (c: Option<Shaded>)
    requires Complete(f)
    ensures c == Classify(m, worldMatrix, viewMatrix, position, colorObj, f)
  {
    var triangle := new Vector[3] [f[0].value, f[1].value, f[2].value];
    TransformCorners(worldMatrix, triangle);
    var normal := Normal(m, triangle[0], triangle[1], triangle[2]);
    var cameraRay := Subtract(triangle[0], position);
    var dotProduct := Dot(cameraRay, normal);
    if dotProduct > 0.0 {
      return None;
    }
    var color := CalculateColor(normal, colorObj);
    TransformCorners(viewMatrix, triangle);
    return Some(Shaded(triangle[..], color));
  }

  /**
   * The first loop of `drawShape`: each triangle classified in turn; a kept one is recorded in the
   * colour map under its index and appended in view space. A triangle with an undefined point throws.
   */
  method SelectTriangles(m: MathLib, worldMatrix: Matrix, viewMatrix: Matrix, position: Vector, colorObj: Color, faces: seq<Face>)
    returns (r: Result<Selection, string>)
    ensures r.Success? <==> AllComplete(faces)
    ensures r.Failure? ==> r.error == UndefinedPoint
    ensures r.Success? ==> r.value == Select(m, worldMatrix, viewMatrix, position, colorObj, faces)
  {
    var transformed: seq<Lit> := [];
    var triangleColors: map<nat, Paint> := map[];
    for k := 0 to |faces|
      invariant forall i | 0 <= i < k :: Complete(faces[i])
      invariant Selection(transformed, triangleColors) ==
        Gather(Classified(m, worldMatrix, viewMatrix, position, colorObj, faces[..k]))
    {
      var f := faces[k];
      if !Complete(f) {
        return Failure(UndefinedPoint);
      }
      ClassifiedStep(m, worldMatrix, viewMatrix, position, colorObj, faces, k);
      var c := ClassifyFace(m, worldMatrix, viewMatrix, position, colorObj, f);
      if c.Some? {
        triangleColors := triangleColors[k := c.value.paint];
        transformed := transformed + [Lit(k, c.value.tri)];
      }
    }
    assert faces[..|faces|] == faces;
    return Success(Selection(transformed, triangleColors));
  }

  /** Drawing one more piece appends its commands. */
  lemma PiecesStep(pieces: seq<Piece>, q: nat, color: Paint, debug: DebugOptions)
    requires q < |pieces|
    ensures PiecesCommands(pieces[..q + 1], color, debug) == PiecesCommands(pieces[..q], color, debug) + PieceCommands(pieces[q], color, debug)
  {
    assert pieces[..q + 1][..q] == pieces[..q];
  }

  /** Appending twice is appending the concatenation. */
  lemma Append<T>(a: seq<T>, b: seq<T>, c: seq<T>)
    ensures a + b + c == a + (b + c)
  {
  }

  /** One more triangle drawn extends the commands for a prefix of the sorted triangles to the next prefix. */
  lemma LitsStep(m: MathLib, sc: Screen, lits: seq<Lit>, colors: map<nat, Paint>, t: nat)
    requires t < |lits|
    ensures LitsCommands(m, sc, lits[..t + 1], colors) ==
      LitsCommands(m, sc, lits[..t], colors) + LitCommands(m, sc, lits[t], ColorOf(colors, lits[t].id))
  {
    assert lits[..t + 1][..t] == lits[..t];
  }

  /** Every triangle still to be drawn finds the same colour in `current` as in `colors`. */
  predicate Agrees(current: map<nat, Paint>, colors: map<nat, Paint>, rest: seq<Lit>)
  {
    |rest| == 0 || (ColorOf(current, rest[0].id) == ColorOf(colors, rest[0].id) && Agrees(current, colors, rest[1..]))
  }

  lemma {:induction false} AgreesSelf(colors: map<nat, Paint>, rest: seq<Lit>)
    ensures Agrees(colors, colors, rest)
  {
    if |rest| > 0 {
      AgreesSelf(colors, rest[1..]);
    }
  }

  /** Deleting the colour of a triangle that is not among those still to be drawn keeps their colours. */
  lemma {:induction false} AgreesRemove(current: map<nat, Paint>, colors: map<nat, Paint>, rest: seq<Lit>, id: nat)
    requires Agrees(current, colors, rest)
    requires forall y | y in rest :: y.id != id
    ensures Agrees(current - {id}, colors, rest)
  {
    if |rest| > 0 {
      AgreesRemove(current, colors, rest[1..], id);
    }
  }

  /** With distinct ids, the triangle drawn now is none of those drawn after it. */
  lemma DistinctAfter(lits: seq<Lit>, t: nat)
    requires DistinctBy(lits, LitId) && t < |lits|
    ensures forall y | y in lits[t + 1..] :: y.id != lits[t].id
  {
    forall y | y in lits[t + 1..] ensures y.id != lits[t].id {
      var j :| t + 1 <= j < |lits| && lits[j] == y;
      assert LitId(lits[t]) != LitId(lits[j]);
    }
  }

  /** The colour the second loop finds for the next triangle, and what it leaves for the rest once that colour is deleted. */
  lemma AgreesNext(current: map<nat, Paint>, colors: map<nat, Paint>, lits: seq<Lit>, t: nat)
    requires DistinctBy(lits, LitId) && t < |lits| && Agrees(current, colors, lits[t..])
    ensures ColorOf(current, lits[t].id) == ColorOf(colors, lits[t].id)
    ensures Agrees(current - {lits[t].id}, colors, lits[t + 1..])
  {
    assert lits[t..][1..] == lits[t + 1..];
    DistinctAfter(lits, t);
    AgreesRemove(current, colors, lits[t + 1..], lits[t].id);
  }

  /** The camera steps of `drawShape` compute the look direction and the view matrix of the camera's position and yaw. */
  lemma CameraView(m: MathLib, position: Vector, yaw: real, look: Vector, viewMatrix: Matrix)
    requires look == VectorMatrixMultiply(Rotation(m, yaw, Y), Vector(0.0, 0.0, 1.0, 1.0))
    requires viewMatrix == Inverse(PointAt(m, position, Add(position, look), Vector(0.0, 1.0, 0.0, 1.0)))
    ensures look == LookDirection(m, yaw) && viewMatrix == ViewMatrix(m, position, yaw)
  {
  }

  /** The commands for one triangle, given what the near clip left of it. */
  lemma LitDrawn(m: MathLib, sc: Screen, lit: Lit, color: Paint, near: seq<Piece>)
    requires near == NearClip(m, lit.tri)
    ensures |near| == 0 ==> LitCommands(m, sc, lit, color) == []
    ensures |near| > 0 ==>
              LitCommands(m, sc, lit, color)
              == PiecesCommands(EdgeClip(m, sc.width, sc.height, ProjectAll(sc.proj, sc.centering, sc.size, near)), color, sc.debug)
  {
  }

  /**
   * The camera step of `drawShape`: the look direction is (0, 0, 1) turned by the yaw, and the view
   * matrix inverts the camera placed at `position` facing `position + lookDirection`.
   */
  method CameraOf(m: MathLib, position: Vector, yaw: real) returns (lookDirection: Vector, viewMatrix: Matrix)
    ensures lookDirection == LookDirection(m, yaw) && viewMatrix == ViewMatrix(m, position, yaw)
  {
    var cameraRotationMatrix := Rotation(m, yaw, Y);
    lookDirection := VectorMatrixMultiply(cameraRotationMatrix, Vector(0.0, 0.0, 1.0, 1.0));
    var vTarget := Add(position, lookDirection);
    var cameraMatrix := PointAt(m, position, vTarget, Vector(0.0, 1.0, 0.0, 1.0));
    viewMatrix := Inverse(cameraMatrix);
    CameraView(m, position, yaw, lookDirection, viewMatrix);
  }

  /**
   * What `drawShape` leaves, given what its two loops did with the matrices it built: when those
   * matrices are the view's and the pose's, the outcome is the scene's.
   */
  lemma SceneOutcome(m: MathLib, view: View, pose: Pose, faces: seq<Face>, worldMatrix: Matrix, viewMatrix: Matrix,
                     proj: Matrix, centering: Matrix, ok: bool, before: seq<Command>, after: seq<Command>)
    requires worldMatrix == WorldMatrix(m, pose) && viewMatrix == ViewMatrix(m, view.position, view.yaw)
    requires proj == ProjectionOf(m, view) && centering == Centering(view)
    requires ok <==> AllComplete(faces)
    requires !ok ==> after == before
    requires ok ==>
      var s := Select(m, worldMatrix, viewMatrix, view.position, pose.color, faces);
      after == before + LitsCommands(m, Screen(view.width, view.height, proj, centering, pose.size, view.debug), Sorted(s), s.colors)
    ensures ok <==> Scene(m, view, pose, faces).Success?
    ensures ok ==> after == before + Scene(m, view, pose, faces).value
  {
  }

  class Renderer {
    const canvas: Canvas
    const camera: Camera
    var debugOptions: DebugOptions
    /** `graphicsOptions.fov`, the field of view in degrees. */
    var fov: real

    /** A renderer with every debug switch off and a field of view of 10 degrees. */
    constructor(canvas: Canvas, camera: Camera)
      ensures this.canvas == canvas && this.camera == camera
      ensures debugOptions == DebugOptions(false, false, false) && fov == 10.0
    {
      this.canvas := canvas;
      this.camera := camera;
      debugOptions := DebugOptions(false, false, false);
      fov := 10.0;
    }

    /** What `drawShape` draws with: the camera, the canvas size, the field of view and the debug switches. */
    function ViewOf(): View
      reads this, camera, canvas
    {
      View(camera.position, camera.yaw, canvas.width, canvas.height, fov, debugOptions)
    }

    /** `drawPoint`: a dot at the point. */
    method DrawPoint(point: Vector, color: Paint)
      modifies canvas`commands
      ensures canvas.commands == old(canvas.commands) + [Mark(point, color)]
    {
      canvas.commands := canvas.commands + [Mark(point, color)];
    }

    /** `drawLine`: a stroke from `a` to `b`. */
    method DrawLine(a: Vector, b: Vector, color: Paint)
      modifies canvas`commands
      ensures canvas.commands == old(canvas.commands) + [Line(a, b, color)]
    {
      canvas.commands := canvas.commands + [Line(a, b, color)];
    }

    /** `drawTriangle`: the edges a-b, a-c and b-c, in that order. */
    method DrawTriangle(a: Vector, b: Vector, c: Vector, color: Paint)
      modifies canvas`commands
      ensures canvas.commands == old(canvas.commands) + [Line(a, b, color), Line(a, c, color), Line(b, c, color)]
    {
      DrawLine(a, b, color);
      DrawLine(a, c, color);
      DrawLine(b, c, color);
    }

    /** `fillTriangle`: the filled triangle, then its outline when `wireframe` is false. */
    method FillTriangle(a: Vector, b: Vector, c: Vector, color: Paint, wireframe: bool)
      modifies canvas`commands
      ensures canvas.commands == old(canvas.commands) + FillCommands(a, b, c, color, wireframe)
    {
      canvas.commands := canvas.commands + [Fill(a, b, c, color)];
      if !wireframe {
        DrawTriangle(a, b, c, color);
      }
    }

    /** `clear`: the whole canvas is wiped. */
    method Clear()
      modifies canvas`commands
      ensures canvas.commands == []
    {
      canvas.commands := [];
    }

    /** One clipped piece: filled, in green when the clipping switch marks it, and its corners marked when the points switch is on. */
    method DrawPiece(tr: Piece, color: Paint)
      modifies canvas`commands
      ensures canvas.commands == old(canvas.commands) + PieceCommands(tr, color, debugOptions)
    {
      var trColor := color;
      if debugOptions.clipping && !tr.same {
        trColor := Named("green");
      }
      FillTriangle(tr.tri[0], tr.tri[1], tr.tri[2], trColor, debugOptions.wireframe);
      ghost var filled := canvas.commands;
      if debugOptions.points {
        for i := 0 to 3
          invariant canvas.commands == filled + seq(i, j requires 0 <= j < i => Mark(tr.tri[j], Named("blue")))
        {
          DrawPoint(tr.tri[i], Named("blue"));
        }
      }
    }

    /** The draw loop for one selected triangle: every clipped piece in order. */
    method DrawPieces(pieces: seq<Piece>, color: Paint)
      modifies canvas`commands
      ensures canvas.commands == old(canvas.commands) + PiecesCommands(pieces, color, debugOptions)
    {
      for q := 0 to |pieces|
        invariant canvas.commands == old(canvas.commands) + PiecesCommands(pieces[..q], color, debugOptions)
      {
        DrawPiece(pieces[q], color);
        PiecesStep(pieces, q, color, debugOptions);
        Append(old(canvas.commands), PiecesCommands(pieces[..q], color, debugOptions), PieceCommands(pieces[q], color, debugOptions));
      }
      assert pieces[..|pieces|] == pieces;
    }

    /**
     * The projection loop for one selected triangle: every corner of every piece projected,
     * divided by its w, scaled by the shape size and moved to the canvas centre.
     */
    method ProjectPieces(proj: Matrix, centering: Matrix, size: real, near: seq<Piece>) returns (clipped: seq<Piece>)
      ensures clipped == ProjectAll(proj, centering, size, near)
    {
      clipped := near;
      for j := 0 to |clipped|
        invariant |clipped| == |near|
        invariant forall q | 0 <= q < j :: clipped[q] == ProjectPiece(proj, centering, size, near[q])
        invariant forall q | j <= q < |clipped| :: clipped[q] == near[q]
      {
        var tri := clipped[j].tri;
        for i := 0 to 3
          invariant |tri| == 3
          invariant forall p | 0 <= p < i :: tri[p] == ProjectVertex(proj, centering, size, near[j].tri[p])
          invariant forall p | i <= p < 3 :: tri[p] == near[j].tri[p]
        {
          var v := VectorMatrixMultiply(proj, tri[i]);
          v := Divide(v, v.w);
          v := Multiply(v, size);
          v := VectorMatrixMultiply(centering, v);
          tri := tri[i := v];
        }
        clipped := clipped[j := Piece(tri, clipped[j].same)];
      }
    }

    /** The four screen-edge passes, each a `clipTriangleArray` over a plane clip. */
    method EdgePasses(m: MathLib, pieces: seq<Piece>) returns (clipped: seq<Piece>)
      ensures clipped == EdgeClip(m, canvas.width, canvas.height, pieces)
    {
      var top, up := Vector(0.0, 0.0, 0.0, 1.0), Vector(0.0, 1.0, 0.0, 1.0);
      var bottom, down := Vector(0.0, canvas.height - 1.0, 0.0, 1.0), Vector(0.0, -1.0, 0.0, 1.0);
      var left, right := Vector(0.0, 0.0, 0.0, 1.0), Vector(1.0, 0.0, 0.0, 1.0);
      var far, back := Vector(canvas.width - 1.0, 0.0, 0.0, 1.0), Vector(-1.0, 0.0, 0.0, 1.0);
      var f0 := (tr: Piece) => ClipPiece(m, top, up, tr);
      var f1 := (tr: Piece) => ClipPiece(m, bottom, down, tr);
      var f2 := (tr: Piece) => ClipPiece(m, left, right, tr);
      var f3 := (tr: Piece) => ClipPiece(m, far, back, tr);
      var c0 := ClipTriangleArray(pieces, f0);
      FlatMapIsPass(m, top, up, pieces, f0);
      var c1 := ClipTriangleArray(c0, f1);
      FlatMapIsPass(m, bottom, down, c0, f1);
      var c2 := ClipTriangleArray(c1, f2);
      FlatMapIsPass(m, left, right, c1, f2);
      clipped := ClipTriangleArray(c2, f3);
      FlatMapIsPass(m, far, back, c2, f3);
    }

    /** The screen the second loop works with: the canvas size and debug switches with the given matrices and shape size. */
    function ScreenWith(proj: Matrix, centering: Matrix, size: real): Screen
      reads this, canvas
    {
      Screen(canvas.width, canvas.height, proj, centering, size, debugOptions)
    }

    /**
     * The second loop's work for one selected triangle: the near clip, then, when anything is
     * left, the projection, the four edge passes and the drawing.
     */
    method DrawLit(m: MathLib, proj: Matrix, centering: Matrix, size: real, lit: Lit, color: Paint)
      modifies canvas`commands
      ensures canvas.commands == old(canvas.commands) + LitCommands(m, old(ScreenWith(proj, centering, size)), lit, color)
    {
      ghost var sc := ScreenWith(proj, centering, size);
      var clipped := NearClip(m, lit.tri);
      LitDrawn(m, sc, lit, color, clipped);
      if |clipped| == 0 {
        return;
      }
      DrawNear(m, proj, centering, size, clipped, color);
    }

    /** The pieces left by the near clip projected, clipped to the four screen edges and drawn. */
    method DrawNear(m: MathLib, proj: Matrix, centering: Matrix, size: real, near: seq<Piece>, color: Paint)
      modifies canvas`commands
      ensures canvas.commands == old(canvas.commands) +
        PiecesCommands(EdgeClip(m, old(canvas.width), old(canvas.height), ProjectAll(proj, centering, size, near)), color, debugOptions)
    {
      var clipped := ProjectPieces(proj, centering, size, near);
      clipped := EdgePasses(m, clipped);
      DrawPieces(clipped, color);
    }

    /**
     * The second loop of `drawShape`: every selected triangle, in the order given, drawn in the colour
     * recorded for it, which is taken out of the map as it is used.
     */
    method DrawSorted(m: MathLib, proj: Matrix, centering: Matrix, size: real, lits: seq<Lit>, colors: map<nat, Paint>)
      requires DistinctBy(lits, LitId)
      modifies canvas`commands
      ensures canvas.commands == old(canvas.commands) + LitsCommands(m, old(ScreenWith(proj, centering, size)), lits, colors)
    {
      ghost var sc := ScreenWith(proj, centering, size);
      var triangleColors := colors;
      AgreesSelf(colors, lits);
      for t := 0 to |lits|
        invariant canvas.commands == old(canvas.commands) + LitsCommands(m, sc, lits[..t], colors)
        invariant Agrees(triangleColors, colors, lits[t..])
        invariant ScreenWith(proj, centering, size) == sc
      {
        var triangle := lits[t];
        AgreesNext(triangleColors, colors, lits, t);
        var color := ColorOf(triangleColors, triangle.id);
        triangleColors := triangleColors - {triangle.id};
        ghost var before := canvas.commands;
        DrawLit(m, proj, centering, size, triangle, color);
        assert canvas.commands == before + LitCommands(m, sc, triangle, color);
        LitsStep(m, sc, lits, colors, t);
        Append(old(canvas.commands), LitsCommands(m, sc, lits[..t], colors), LitCommands(m, sc, triangle, color));
      }
      assert lits[..|lits|] == lits;
    }

    /** The camera part of `drawShape`: the look direction is set from the yaw, and the view matrix follows from it. */
    method PointCamera(m: MathLib) returns (viewMatrix: Matrix)
      modifies camera`lookDirection
      ensures camera.lookDirection == LookDirection(m, old(camera.yaw))
      ensures viewMatrix == ViewMatrix(m, old(camera.position), old(camera.yaw))
    {
      var lookDirection;
      lookDirection, viewMatrix := CameraOf(m, camera.position, camera.yaw);
      camera.lookDirection := lookDirection;
    }

    /** The world matrix of `drawShape`: identity times the shape's x, y and z rotations, then its translation. */
    method WorldOf(m: MathLib, shape: Shape, ghost pose: Pose) returns (worldMatrix: Matrix)
      requires pose == PoseOf(shape)
      ensures worldMatrix == WorldMatrix(m, pose)
    {
      worldMatrix := Identity();
      worldMatrix := MatrixMatrixMultiply(worldMatrix, Rotation(m, shape.rotation.x, X));
      worldMatrix := MatrixMatrixMultiply(worldMatrix, Rotation(m, shape.rotation.y, Y));
      worldMatrix := MatrixMatrixMultiply(worldMatrix, Rotation(m, shape.rotation.z, Z));
      worldMatrix := MatrixMatrixMultiply(worldMatrix, Translation(Xyz(shape.origin.x, shape.origin.y, shape.origin.z)));
    }

    /**
     * The two loops of `drawShape` once the matrices are built: the selection, then the selected
     * triangles drawn farthest first. A triangle with an undefined point fails before anything is drawn.
     */
    method DrawSelected(m: MathLib, worldMatrix: Matrix, viewMatrix: Matrix, proj: Matrix, centering: Matrix,
                        position: Vector, colorObj: Color, size: real, faces: seq<Face>)
      returns (r: Result<(), string>)
      modifies canvas`commands
      ensures r.Success? <==> AllComplete(faces)
      ensures r.Failure? ==> r.error == UndefinedPoint && canvas.commands == old(canvas.commands)
      ensures r.Success? ==>
        var s := Select(m, worldMatrix, viewMatrix, position, colorObj, faces);
        canvas.commands == old(canvas.commands) + LitsCommands(m, old(ScreenWith(proj, centering, size)), Sorted(s), s.colors)
    {
      // First loop: to world space, back-face test, shading, to view space.
      var selected := SelectTriangles(m, worldMatrix, viewMatrix, position, colorObj, faces);
      if selected.Failure? {
        return Failure(selected.error);
      }
      var transformed := selected.value.lits;
      var triangleColors := selected.value.colors;

      // Painter's order, then the second loop.
      transformed := SortDesc(transformed, ZSum);
      SortDescDistinct(selected.value.lits, ZSum, LitId);
      DrawSorted(m, proj, centering, size, transformed, triangleColors);
      return Success(());
    }

    /**
     * `drawShape(shape)`: points the camera along its yaw, then draws the shape's triangles that
     * face the camera, farthest first, clipped to the near plane and the canvas. A triangle with
     * an undefined point throws before anything is drawn. The shape is not modified.
     */
    method DrawShape(m: MathLib, shape: Shape) returns (r: Result<(), string>)
      modifies camera`lookDirection, canvas`commands
      ensures camera.lookDirection == LookDirection(m, old(camera.yaw))
      ensures var scene := Scene(m, old(ViewOf()), old(PoseOf(shape)), shape.triangles);
        && (r.Success? <==> scene.Success?)
        && (r.Failure? ==> r.error == UndefinedPoint && canvas.commands == old(canvas.commands))
        && (r.Success? ==> canvas.commands == old(canvas.commands) + scene.value)
    {
      var view, pose, faces := ViewOf(), PoseOf(shape), shape.triangles;
      ghost var before := canvas.commands;
      var centeringMatrix := Centering(view);
      var projectionMatrix := ProjectionOf(m, view);
      var worldMatrix := WorldOf(m, shape, pose);
      var viewMatrix := PointCamera(m);
      r := DrawSelected(m, worldMatrix, viewMatrix, projectionMatrix, centeringMatrix,
                        view.position, pose.color, pose.size, faces);
      SceneOutcome(m, view, pose, faces, worldMatrix, viewMatrix, projectionMatrix, centeringMatrix, r.Success?, before, canvas.commands);
    }
  }
}
