/**
 * What the EngineUtils renderer's `drawShape` computes, stage by stage, as functions:
 * shading, the matrices, back-face selection, the painter's order, near-plane and
 * screen-edge clipping, the perspective divide and the draw commands it emits.
 */
module UtilsPipeline {
  import opened Wrappers
  import opened JsNumber
  import opened UtilsVector
  import opened UtilsClipper
  import opened DepthSort
  import opened ShapeCommon
  import opened UtilsShape
  import opened UtilsPieces

  /** One drawing call on the canvas. */
  datatype Command =
    | Fill(a: Vector, b: Vector, c: Vector, paint: Paint)
    | Line(from: Vector, to: Vector, paint: Paint)
    | Mark(at: Vector, paint: Paint)

  /** The renderer's debug switches; all are off on a new renderer. */
  datatype DebugOptions = DebugOptions(wireframe: bool, clipping: bool, points: bool)

  // ---------------------------------------------------------------------------
  // Shading

  /** The lighting factor: the normal against the light `(0, 0.5, normal.z)`, never below 0.1. */
  function LightFactor(normal: Vector): (f: real)
    ensures f >= 0.1 && f >= Dot(normal, Vector(0.0, 0.5, normal.z, 1.0))
    ensures f == 0.1 || f == Dot(normal, Vector(0.0, 0.5, normal.z, 1.0))
  {
    Max(0.1, Dot(normal, Vector(0.0, 0.5, normal.z, 1.0)))
  }

  /** `calculateColor(normal, colorObj)`: every channel scaled by the lighting factor and floored. */
  function CalculateColor(normal: Vector, colorObj: Color): (p: Paint)
  {
    var f := LightFactor(normal);
    Rgb(ShadeChannel(colorObj.r, f), ShadeChannel(colorObj.g, f), ShadeChannel(colorObj.b, f))
  }

  /** A channel that is a number stays one, and a non-negative channel is shaded to at least a tenth of itself. */
  lemma ShadedChannel(normal: Vector, c: int)
    requires c >= 0
    ensures var s := ShadeChannel(Some(c), LightFactor(normal));
      s.Some? && (c as real * 0.1).Floor <= s.value && s.value as real <= c as real * LightFactor(normal)
  {
    var f := LightFactor(normal);
    if c > 0 {
      ProductSign(c as real, f - 0.1);
    }
    assert c as real * f >= c as real * 0.1;
  }

  // ---------------------------------------------------------------------------
  // Matrices

  /** The direction the camera looks: (0, 0, 1) rotated by the yaw about the y axis. */
  function LookDirection(m: MathLib, yaw: real): Vector
  {
    VectorMatrixMultiply(Rotation(m, yaw, Y), Vector(0.0, 0.0, 1.0, 1.0))
  }

  /** The view matrix: the inverse of the camera placed at `position` looking along `LookDirection`, y up. */
  function ViewMatrix(m: MathLib, position: Vector, yaw: real): Matrix
  {
    Inverse(PointAt(m, position, Add(position, LookDirection(m, yaw)), Vector(0.0, 1.0, 0.0, 1.0)))
  }

  /** A shape's placement: its rotation angles in degrees, its origin, its size and its colour. */
  datatype Pose = Pose(rx: real, ry: real, rz: real, origin: Vector, size: real, color: Color)

  /** The world matrix: identity times the x, y and z rotations, then the translation to the origin. */
  function WorldMatrix(m: MathLib, pose: Pose): Matrix
  {
    var rotated := Product(Product(Product(Identity(), Rotation(m, pose.rx, X)), Rotation(m, pose.ry, Y)), Rotation(m, pose.rz, Z));
    Product(rotated, Translation(pose.origin))
  }

  /** A point goes through the world matrix by rotating about x, then y, then z, then moving by the origin. */
  lemma WorldApplies(m: MathLib, pose: Pose, v: Vector)
    ensures VectorMatrixMultiply(WorldMatrix(m, pose), v) ==
      VectorMatrixMultiply(Translation(pose.origin),
        VectorMatrixMultiply(Rotation(m, pose.rz, Z),
          VectorMatrixMultiply(Rotation(m, pose.ry, Y),
            VectorMatrixMultiply(Rotation(m, pose.rx, X), v))))
  {
    var rx, ry, rz := Rotation(m, pose.rx, X), Rotation(m, pose.ry, Y), Rotation(m, pose.rz, Z);
    var a := Product(Identity(), rx);
    var b := Product(a, ry);
    var c := Product(b, rz);
    ProductApplies(c, Translation(pose.origin), v);
    ProductApplies(b, rz, v);
    ProductApplies(a, ry, v);
    ProductApplies(Identity(), rx, v);
    IdentityVector(v);
  }

  /** The view the renderer draws with: camera position and yaw, canvas size, field of view and debug switches. */
  datatype View = View(position: Vector, yaw: real, width: real, height: real, fov: real, debug: DebugOptions)

  /** The perspective projection: the field of view, the canvas aspect, far plane 1000 and near plane 0.5. */
  function ProjectionOf(m: MathLib, view: View): Matrix
  {
    Projection(m, view.fov, Div(view.width, view.height), 1000.0, 0.5)
  }

  /** The translation that moves the origin to the middle of the canvas. */
  function Centering(view: View): Matrix
  {
    Translation(Vector(view.width / 2.0, view.height / 2.0, 0.0, 1.0))
  }

  // ---------------------------------------------------------------------------
  // Selecting triangles

  /** A shape triangle all of whose points exist. */
  predicate Complete(f: Face)
  {
    f[0].Some? && f[1].Some? && f[2].Some?
  }

  /** Every triangle of the shape has all its points. */
  predicate AllComplete(faces: seq<Face>)
  {
    forall i | 0 <= i < |faces| :: Complete(faces[i])
  }

  function Corners(f: Face): Triangle
    requires Complete(f)
  {
    [f[0].value, f[1].value, f[2].value]
  }

  /** Every corner of a triangle multiplied by a matrix. */
  function Apply(mat: Matrix, t: Triangle): (r: Triangle)
    ensures forall i | 0 <= i < 3 :: r[i] == VectorMatrixMultiply(mat, t[i])
  {
    [VectorMatrixMultiply(mat, t[0]), VectorMatrixMultiply(mat, t[1]), VectorMatrixMultiply(mat, t[2])]
  }

  /** The back-face test on a world-space triangle: the ray from the camera to its first corner does not run along its normal. */
  predicate FacesCamera(m: MathLib, position: Vector, w: Triangle)
  {
    Dot(Subtract(w[0], position), Normal(m, w[0], w[1], w[2])) <= 0.0
  }

  /** A selected triangle in view space, with the index of the shape triangle it came from. */
  datatype Lit = Lit(id: nat, tri: Triangle)

  /** A triangle that passed the back-face test: its view-space corners and its shaded colour. */
  datatype Shaded = Shaded(tri: Triangle, paint: Paint)

  /**
   * One shape triangle through the first loop: to world space, dropped if it faces away,
   * otherwise shaded by its world-space normal and moved to view space.
   */
  function Classify(m: MathLib, world: Matrix, view: Matrix, position: Vector, color: Color, f: Face): Option<Shaded>
    requires Complete(f)
  {
    var w := Apply(world, Corners(f));
    if FacesCamera(m, position, w) then Some(Shaded(Apply(view, w), CalculateColor(Normal(m, w[0], w[1], w[2]), color)))
    else None
  }

  /** The selected triangles in shape order and the shaded colour of each, by index. */
  datatype Selection = Selection(lits: seq<Lit>, colors: map<nat, Paint>)

  /** Collecting classified triangles in order: a kept one is appended and its colour recorded under its index. */
  function Gather(cs: seq<Option<Shaded>>): (s: Selection)
    ensures forall i | 0 <= i < |s.lits| :: s.lits[i].id < |cs| && s.lits[i].id in s.colors
    ensures forall i, j | 0 <= i < j < |s.lits| :: s.lits[i].id < s.lits[j].id
    ensures forall k | k in s.colors :: k < |cs|
  {
    if |cs| == 0 then Selection([], map[])
    else
      var s := Gather(cs[..|cs| - 1]);
      var k := |cs| - 1;
      if cs[k].None? then s
      else Selection(s.lits + [Lit(k, cs[k].value.tri)], s.colors[k := cs[k].value.paint])
  }

  /** Every shape triangle classified. */
  function Classified(m: MathLib, world: Matrix, view: Matrix, position: Vector, color: Color, faces: seq<Face>): (cs: seq<Option<Shaded>>)
    requires AllComplete(faces)
    ensures |cs| == |faces|
    ensures forall k | 0 <= k < |faces| :: cs[k] == Classify(m, world, view, position, color, faces[k])
  {
    seq(|faces|, k requires 0 <= k < |faces| => Classify(m, world, view, position, color, faces[k]))
  }

  /** The first loop of `drawShape` over all shape triangles. */
  function Select(m: MathLib, world: Matrix, view: Matrix, position: Vector, color: Color, faces: seq<Face>): (s: Selection)
    requires AllComplete(faces)
    ensures forall i | 0 <= i < |s.lits| :: s.lits[i].id < |faces| && s.lits[i].id in s.colors
    ensures forall i, j | 0 <= i < j < |s.lits| :: s.lits[i].id < s.lits[j].id
  {
    Gather(Classified(m, world, view, position, color, faces))
  }

  /**
   * An index is kept exactly when its classification keeps it; it is then present with its
   * view-space corners and its colour, and is absent from both otherwise.
   */
  lemma {:induction false} GatherKeeps(cs: seq<Option<Shaded>>, k: nat)
    requires k < |cs|
    ensures KeepsAt(cs[k], Gather(cs), k)
  {
    var last := |cs| - 1;
    var front := cs[..last];
    var sf := Gather(front);
    if k < last {
      GatherKeeps(front, k);
      assert front[k] == cs[k];
      if cs[last].Some? {
        KeepsAppend(cs[k], sf, k, Lit(last, cs[last].value.tri), cs[last].value.paint);
      }
    } else {
      GatherKeepsLast(cs);
    }
  }

  /**
   * Triangle `k`, classified as `c`, appears among the selected triangles, with its corners,
   * and has a colour recorded exactly when its classification kept it.
   */
  predicate KeepsAt(c: Option<Shaded>, s: Selection, k: nat)
  {
    && ((exists i | 0 <= i < |s.lits| :: s.lits[i].id == k) <==> c.Some?)
    && (k in s.colors <==> c.Some?)
    && (k in s.colors ==> s.colors[k] == c.value.paint)
    && forall i | 0 <= i < |s.lits| && s.lits[i].id == k :: s.lits[i].tri == c.value.tri
  }

  /** Appending a different triangle keeps what triangle `k` contributed. */
  lemma KeepsAppend(c: Option<Shaded>, s: Selection, k: nat, lit: Lit, paint: Paint)
    requires KeepsAt(c, s, k) && lit.id != k
    ensures KeepsAt(c, Selection(s.lits + [lit], s.colors[lit.id := paint]), k)
  {
    var t := Selection(s.lits + [lit], s.colors[lit.id := paint]);
    forall i | 0 <= i < |t.lits| && t.lits[i].id == k
      ensures i < |s.lits| && t.lits[i] == s.lits[i]
    {
    }
    if c.Some? {
      var i :| 0 <= i < |s.lits| && s.lits[i].id == k;
      assert t.lits[i].id == k;
    }
  }

  /** The last triangle is selected exactly when its classification keeps it. */
  lemma GatherKeepsLast(cs: seq<Option<Shaded>>)
    requires |cs| > 0
    ensures KeepsAt(cs[|cs| - 1], Gather(cs), |cs| - 1)
  {
    var k := |cs| - 1;
    var sf := Gather(cs[..k]);
    assert forall i | 0 <= i < |sf.lits| :: sf.lits[i].id != k;
    assert k !in sf.colors;
    if cs[k].Some? {
      var s := Selection(sf.lits + [Lit(k, cs[k].value.tri)], sf.colors[k := cs[k].value.paint]);
      assert Gather(cs) == s;
      assert s.lits[|sf.lits|].id == k;
      assert forall i | 0 <= i < |s.lits| && s.lits[i].id == k :: i == |sf.lits|;
    } else {
      assert Gather(cs) == sf;
    }
  }

  /**
   * A shape triangle is selected, with its view-space corners, and given a colour exactly when
   * its classification keeps it, and never otherwise.
   */
  lemma SelectClassified(m: MathLib, world: Matrix, view: Matrix, position: Vector, color: Color, faces: seq<Face>, k: nat)
    requires AllComplete(faces)
    requires k < |faces|
    ensures KeepsAt(Classify(m, world, view, position, color, faces[k]), Select(m, world, view, position, color, faces), k)
  {
    var cs := Classified(m, world, view, position, color, faces);
    GatherKeeps(cs, k);
    assert cs[k] == Classify(m, world, view, position, color, faces[k]);
  }

  /**
   * The back-face rule: a shape triangle is selected, in view space and with the colour shaded
   * from its world-space normal, exactly when it faces the camera.
   */
  lemma CullRule(m: MathLib, world: Matrix, view: Matrix, position: Vector, color: Color, f: Face)
    requires Complete(f)
    ensures var w := Apply(world, Corners(f));
      var c := Classify(m, world, view, position, color, f);
      && (c.Some? <==> Dot(Subtract(w[0], position), Normal(m, w[0], w[1], w[2])) <= 0.0)
      && (c.Some? ==> c.value == Shaded(Apply(view, w), CalculateColor(Normal(m, w[0], w[1], w[2]), color)))
  {
  }

  /** The painter's sort key: the sum of the three view-space depths. */
  function ZSum(l: Lit): real
  {
    l.tri[0].z + l.tri[1].z + l.tri[2].z
  }

  /** After the sort every selected triangle still finds its colour, so the `'red'` fallback is never taken. */
  lemma SortedColors(m: MathLib, world: Matrix, view: Matrix, position: Vector, color: Color, faces: seq<Face>)
    requires AllComplete(faces)
    ensures var s := Select(m, world, view, position, color, faces);
      forall i | 0 <= i < |SortDesc(s.lits, ZSum)| :: SortDesc(s.lits, ZSum)[i].id in s.colors
  {
    var s := Select(m, world, view, position, color, faces);
    var sorted := SortDesc(s.lits, ZSum);
    SortDescCorrect(s.lits, ZSum);
    forall i | 0 <= i < |sorted|
      ensures sorted[i].id in s.colors
    {
      assert sorted[i] in multiset(sorted);
      assert sorted[i] in multiset(s.lits);
      var j :| 0 <= j < |s.lits| && s.lits[j] == sorted[i];
    }
  }

  // ---------------------------------------------------------------------------
  // Near plane and projection

  /** The near-plane clip against the point (0, 0, 1) with normal (0, 0, 1). */
  function NearClip(m: MathLib, t: Triangle): seq<Piece>
  {
    ClipPiece(m, Vector(0.0, 0.0, 1.0, 1.0), Vector(0.0, 0.0, 1.0, 1.0), Piece(t, true))
  }

  /**
   * Under exact arithmetic the near clip leaves only corners with z >= 1, so the projection's w,
   * which is -z, is at most -1 and the perspective divide never divides by zero.
   */
  lemma NearClipDepth(m: MathLib, view: View, t: Triangle)
    requires Lawful(m)
    ensures forall i, j | 0 <= i < |NearClip(m, t)| && 0 <= j < 3 ::
      NearClip(m, t)[i].tri[j].z >= 1.0 && VectorMatrixMultiply(ProjectionOf(m, view), NearClip(m, t)[i].tri[j]).w <= -1.0
  {
    var pp, pn := Vector(0.0, 0.0, 1.0, 1.0), Vector(0.0, 0.0, 1.0, 1.0);
    ClipInside(m, pp, pn, t, pn, 1.0);
  }

  /** Per corner: projection, perspective divide by w, scaling by the shape size, centering. */
  function ProjectVertex(proj: Matrix, centering: Matrix, size: real, v: Vector): Vector
  {
    var p := VectorMatrixMultiply(proj, v);
    VectorMatrixMultiply(centering, Multiply(Divide(p, p.w), size))
  }

  /**
   * A corner whose projected w is -z for a depth z >= 1, as `NearClipDepth` guarantees, lands at its
   * projected x and y divided by -z, scaled by the size and moved to the canvas centre.
   */
  lemma ProjectVertexMaps(proj: Matrix, view: View, size: real, v: Vector)
    requires v.z >= 1.0 && VectorMatrixMultiply(proj, v).w == -v.z
    ensures var p := VectorMatrixMultiply(proj, v);
      ProjectVertex(proj, Centering(view), size, v) ==
        Vector(p.x / -v.z * size + view.width / 2.0, p.y / -v.z * size + view.height / 2.0, p.z / -v.z * size, 1.0)
  {
    var p := VectorMatrixMultiply(proj, v);
    var u := Multiply(Divide(p, p.w), size);
    assert u == Vector(p.x / -v.z * size, p.y / -v.z * size, p.z / -v.z * size, 1.0);
    TranslationApplies(Vector(view.width / 2.0, view.height / 2.0, 0.0, 1.0), u);
  }

  /** A piece with each corner projected; the array is updated in place, so it stays the same object. */
  function ProjectPiece(proj: Matrix, centering: Matrix, size: real, p: Piece): (r: Piece)
    ensures r.same == p.same
  {
    Piece([ProjectVertex(proj, centering, size, p.tri[0]), ProjectVertex(proj, centering, size, p.tri[1]),
           ProjectVertex(proj, centering, size, p.tri[2])], p.same)
  }

  /** Every piece projected, in order. */
  function ProjectAll(proj: Matrix, centering: Matrix, size: real, ps: seq<Piece>): (r: seq<Piece>)
    ensures |r| == |ps|
    ensures forall i | 0 <= i < |ps| :: r[i] == ProjectPiece(proj, centering, size, ps[i])
  {
    seq(|ps|, i requires 0 <= i < |ps| => ProjectPiece(proj, centering, size, ps[i]))
  }

  // ---------------------------------------------------------------------------
  // Drawing

  /** `fillTriangle`: the filled path, then its outline unless the wireframe switch is on. */
  function FillCommands(a: Vector, b: Vector, c: Vector, paint: Paint, wireframe: bool): seq<Command>
  {
    [Fill(a, b, c, paint)] + if wireframe then [] else [Line(a, b, paint), Line(a, c, paint), Line(b, c, paint)]
  }

  /** The commands for one clipped piece: green when the clipping switch is on and the piece is new, blue corner marks when the points switch is on. */
  function PieceCommands(p: Piece, color: Paint, debug: DebugOptions): seq<Command>
  {
    var paint := if debug.clipping && !p.same then Named("green") else color;
    FillCommands(p.tri[0], p.tri[1], p.tri[2], paint, debug.wireframe)
      + if debug.points then [Mark(p.tri[0], Named("blue")), Mark(p.tri[1], Named("blue")), Mark(p.tri[2], Named("blue"))] else []
  }

  function PiecesCommands(ps: seq<Piece>, color: Paint, debug: DebugOptions): seq<Command>
  {
    if |ps| == 0 then [] else PiecesCommands(ps[..|ps| - 1], color, debug) + PieceCommands(ps[|ps| - 1], color, debug)
  }

  /** The colour recorded for a selected triangle, or `'red'` when none was. */
  function ColorOf(colors: map<nat, Paint>, id: nat): Paint
  {
    if id in colors then colors[id] else Named("red")
  }

  /** What the second loop works with for every selected triangle: the canvas size, the two matrices, the shape's size and the debug switches. */
  datatype Screen = Screen(width: real, height: real, proj: Matrix, centering: Matrix, size: real, debug: DebugOptions)

  /** The screen a view and a shape size give: the view's projection and centering. */
  function ScreenOf(m: MathLib, view: View, size: real): Screen
  {
    Screen(view.width, view.height, ProjectionOf(m, view), Centering(view), size, view.debug)
  }

  /**
   * The pieces the second loop draws for a triangle: none when the near plane removes it,
   * otherwise its projected pieces clipped to the four screen edges.
   */
  function DrawnPieces(m: MathLib, sc: Screen, tri: Triangle): seq<Piece>
  {
    var near := NearClip(m, tri);
    if |near| == 0 then [] else EdgeClip(m, sc.width, sc.height, ProjectAll(sc.proj, sc.centering, sc.size, near))
  }

  /** Everything the second loop draws for one selected triangle. */
  function LitCommands(m: MathLib, sc: Screen, lit: Lit, color: Paint): seq<Command>
  {
    PiecesCommands(DrawnPieces(m, sc, lit.tri), color, sc.debug)
  }

  function LitsCommands(m: MathLib, sc: Screen, lits: seq<Lit>, colors: map<nat, Paint>): seq<Command>
  {
    if |lits| == 0 then []
    else LitsCommands(m, sc, lits[..|lits| - 1], colors) + LitCommands(m, sc, lits[|lits| - 1], ColorOf(colors, lits[|lits| - 1].id))
  }

  /**
   * What `drawShape` draws: nothing and an error when some triangle has an undefined point,
   * otherwise the commands for the selected triangles, farthest first.
   */
  function Scene(m: MathLib, view: View, pose: Pose, faces: seq<Face>): Result<seq<Command>, string>
  {
    if !AllComplete(faces) then Failure("cannot read a point of an undefined vertex")
    else
      var s := Select(m, WorldMatrix(m, pose), ViewMatrix(m, view.position, view.yaw), view.position, pose.color, faces);
      Success(LitsCommands(m, ScreenOf(m, view, pose.size), Sorted(s), s.colors))
  }

  /** The selected triangles in painter's order, farthest first. */
  function Sorted(s: Selection): seq<Lit>
  {
    SortDesc(s.lits, ZSum)
  }

  // ---------------------------------------------------------------------------
  // What is drawn

  /** Every point a command draws at lies on the canvas rectangle. */
  predicate CommandOnScreen(view: View, c: Command)
  {
    match c
    case Fill(a, b, d, _) => OnScreen(view.width, view.height, a) && OnScreen(view.width, view.height, b) && OnScreen(view.width, view.height, d)
    case Line(a, b, _) => OnScreen(view.width, view.height, a) && OnScreen(view.width, view.height, b)
    case Mark(a, _) => OnScreen(view.width, view.height, a)
  }

  /** Pieces whose corners are all on the canvas are drawn on the canvas. */
  lemma {:induction false} PiecesOnScreen(view: View, ps: seq<Piece>, color: Paint, debug: DebugOptions)
    requires forall i, j | 0 <= i < |ps| && 0 <= j < 3 :: OnScreen(view.width, view.height, ps[i].tri[j])
    ensures forall c | c in PiecesCommands(ps, color, debug) :: CommandOnScreen(view, c)
  {
    if |ps| > 0 {
      var front := ps[..|ps| - 1];
      assert forall i | 0 <= i < |front| :: front[i] == ps[i];
      PiecesOnScreen(view, front, color, debug);
      var p := ps[|ps| - 1];
      PieceOnScreen(view, p, color, debug);
    }
  }

  /** A piece whose corners are on the canvas is drawn on the canvas. */
  lemma PieceOnScreen(view: View, p: Piece, color: Paint, debug: DebugOptions)
    requires forall j | 0 <= j < 3 :: OnScreen(view.width, view.height, p.tri[j])
    ensures forall c | c in PieceCommands(p, color, debug) :: CommandOnScreen(view, c)
  {
    assert OnScreen(view.width, view.height, p.tri[0]) && OnScreen(view.width, view.height, p.tri[1]) && OnScreen(view.width, view.height, p.tri[2]);
  }

  /** Under exact arithmetic, everything drawn for a triangle lies on the canvas. */
  lemma LitOnScreen(m: MathLib, view: View, sc: Screen, lit: Lit, color: Paint)
    requires Lawful(m) && sc.width == view.width && sc.height == view.height
    ensures forall c | c in LitCommands(m, sc, lit, color) :: CommandOnScreen(view, c)
  {
    var near := NearClip(m, lit.tri);
    if |near| > 0 {
      EdgeClipOnScreen(m, sc.width, sc.height, ProjectAll(sc.proj, sc.centering, sc.size, near));
    }
    PiecesOnScreen(view, DrawnPieces(m, sc, lit.tri), color, sc.debug);
  }

  lemma {:induction false} LitsOnScreen(m: MathLib, view: View, sc: Screen, lits: seq<Lit>, colors: map<nat, Paint>)
    requires Lawful(m) && sc.width == view.width && sc.height == view.height
    ensures forall c | c in LitsCommands(m, sc, lits, colors) :: CommandOnScreen(view, c)
  {
    if |lits| > 0 {
      LitsOnScreen(m, view, sc, lits[..|lits| - 1], colors);
      LitOnScreen(m, view, sc, lits[|lits| - 1], ColorOf(colors, lits[|lits| - 1].id));
    }
  }

  /** Under exact arithmetic, every fill, line and mark `drawShape` issues lies on the canvas. */
  lemma SceneOnScreen(m: MathLib, view: View, pose: Pose, faces: seq<Face>)
    requires Lawful(m)
    ensures Scene(m, view, pose, faces).Success? ==>
      forall c | c in Scene(m, view, pose, faces).value :: CommandOnScreen(view, c)
  {
    if Scene(m, view, pose, faces).Success? {
      var s := Select(m, WorldMatrix(m, pose), ViewMatrix(m, view.position, view.yaw), view.position, pose.color, faces);
      LitsOnScreen(m, view, ScreenOf(m, view, pose.size), Sorted(s), s.colors);
    }
  }

  /** The paint of a fill or line, or of a mark. */
  function PaintOf(c: Command): Paint
  {
    match c
    case Fill(_, _, _, p) => p
    case Line(_, _, p) => p
    case Mark(_, p) => p
  }

  /** The paints one piece is drawn with: its colour, blue for corner marks, green only under the clipping switch; a piece that is still the selected triangle fills and outlines in its colour. */
  lemma PiecePaint(p: Piece, color: Paint, debug: DebugOptions)
    ensures forall c | c in PieceCommands(p, color, debug) ::
      PaintOf(c) == color || (c.Mark? && PaintOf(c) == Named("blue")) || (debug.clipping && PaintOf(c) == Named("green"))
    ensures p.same ==> forall c | c in PieceCommands(p, color, debug) && !c.Mark? :: PaintOf(c) == color
  {
  }

  /**
   * A piece that is still the selected triangle itself is filled and outlined in its shaded colour,
   * and with the clipping switch off every piece is; only corner marks are blue.
   */
  lemma {:induction false} PiecesPaint(ps: seq<Piece>, color: Paint, debug: DebugOptions)
    ensures forall c | c in PiecesCommands(ps, color, debug) ::
      PaintOf(c) == color || (c.Mark? && PaintOf(c) == Named("blue")) || (debug.clipping && PaintOf(c) == Named("green"))
    ensures (forall i | 0 <= i < |ps| :: ps[i].same) ==>
      forall c | c in PiecesCommands(ps, color, debug) && !c.Mark? :: PaintOf(c) == color
  {
    if |ps| > 0 {
      var front := ps[..|ps| - 1];
      PiecesPaint(front, color, debug);
      PiecePaint(ps[|ps| - 1], color, debug);
      assert PiecesCommands(ps, color, debug) == PiecesCommands(front, color, debug) + PieceCommands(ps[|ps| - 1], color, debug);
      if forall i | 0 <= i < |ps| :: ps[i].same {
        assert forall i | 0 <= i < |front| :: front[i].same by {
          forall i | 0 <= i < |front| ensures front[i].same { assert front[i] == ps[i]; }
        }
      }
    }
  }

  /** With the clipping switch off, every fill and line of a triangle is in its shaded colour. */
  lemma LitPaint(m: MathLib, sc: Screen, lit: Lit, color: Paint)
    requires !sc.debug.clipping
    ensures forall c | c in LitCommands(m, sc, lit, color) :: PaintOf(c) == color || (c.Mark? && PaintOf(c) == Named("blue"))
  {
    PiecesPaint(DrawnPieces(m, sc, lit.tri), color, sc.debug);
  }
}
