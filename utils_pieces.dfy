/**
 * Triangles on their way through the EngineUtils clipping stages: the pieces a plane clip
 * produces, whole clipping passes, and the canvas rectangle the four edge passes confine
 * them to.
 */
module UtilsPieces {
  import opened JsNumber
  import opened UtilsVector
  import opened UtilsClipper

  /** A point inside the canvas: `0 <= x <= width - 1` and `0 <= y <= height - 1`. */
  predicate OnScreen(width: real, height: real, v: Vector)
  {
    0.0 <= v.x <= width - 1.0 && 0.0 <= v.y <= height - 1.0
  }

  /**
   * A point inside the four half-spaces the screen-edge passes clip against: below the top
   * edge `y = 0`, above the bottom edge `y = height - 1`, right of `x = 0` and left of `x = width - 1`.
   */
  predicate InCanvas(width: real, height: real, v: Vector)
  {
    && InHalfSpace(Vector(0.0, 1.0, 0.0, 1.0), Dot(Vector(0.0, 0.0, 0.0, 1.0), Vector(0.0, 1.0, 0.0, 1.0)), v)
    && InHalfSpace(Vector(0.0, -1.0, 0.0, 1.0), Dot(Vector(0.0, height - 1.0, 0.0, 1.0), Vector(0.0, -1.0, 0.0, 1.0)), v)
    && InHalfSpace(Vector(1.0, 0.0, 0.0, 1.0), Dot(Vector(0.0, 0.0, 0.0, 1.0), Vector(1.0, 0.0, 0.0, 1.0)), v)
    && InHalfSpace(Vector(-1.0, 0.0, 0.0, 1.0), Dot(Vector(width - 1.0, 0.0, 0.0, 1.0), Vector(-1.0, 0.0, 0.0, 1.0)), v)
  }

  /** The four edge half-spaces together are exactly the canvas rectangle. */
  lemma InCanvasBounds(width: real, height: real, v: Vector)
    ensures InCanvas(width, height, v) <==> OnScreen(width, height, v)
  {
    if InCanvas(width, height, v) {
      InCanvasOnScreen(width, height, v);
    }
    if OnScreen(width, height, v) {
      OnScreenInCanvas(width, height, v);
    }
  }

  lemma InCanvasOnScreen(width: real, height: real, v: Vector)
    requires InCanvas(width, height, v)
    ensures OnScreen(width, height, v)
  {
    assert 0.0 <= v.y by { YEdge(v, 0.0, 1.0); }
    assert v.y <= height - 1.0 by { YEdge(v, height - 1.0, -1.0); }
    assert 0.0 <= v.x by { XEdge(v, 0.0, 1.0); }
    assert v.x <= width - 1.0 by { XEdge(v, width - 1.0, -1.0); }
  }

  lemma OnScreenInCanvas(width: real, height: real, v: Vector)
    requires OnScreen(width, height, v)
    ensures InCanvas(width, height, v)
  {
    assert InHalfSpace(Vector(0.0, 1.0, 0.0, 1.0), Dot(Vector(0.0, 0.0, 0.0, 1.0), Vector(0.0, 1.0, 0.0, 1.0)), v) by {
      YEdge(v, 0.0, 1.0);
    }
    assert InHalfSpace(Vector(0.0, -1.0, 0.0, 1.0), Dot(Vector(0.0, height - 1.0, 0.0, 1.0), Vector(0.0, -1.0, 0.0, 1.0)), v) by {
      YEdge(v, height - 1.0, -1.0);
    }
    assert InHalfSpace(Vector(1.0, 0.0, 0.0, 1.0), Dot(Vector(0.0, 0.0, 0.0, 1.0), Vector(1.0, 0.0, 0.0, 1.0)), v) by {
      XEdge(v, 0.0, 1.0);
    }
    assert InHalfSpace(Vector(-1.0, 0.0, 0.0, 1.0), Dot(Vector(width - 1.0, 0.0, 0.0, 1.0), Vector(-1.0, 0.0, 0.0, 1.0)), v) by {
      XEdge(v, width - 1.0, -1.0);
    }
  }

  /** The four edge normals are not zero. */
  lemma AxisLengths()
    ensures SquaredLength(Vector(0.0, 1.0, 0.0, 1.0)) > 0.0 && SquaredLength(Vector(0.0, -1.0, 0.0, 1.0)) > 0.0
    ensures SquaredLength(Vector(1.0, 0.0, 0.0, 1.0)) > 0.0 && SquaredLength(Vector(-1.0, 0.0, 0.0, 1.0)) > 0.0
  {
  }

  /** A horizontal edge through height `y0` with normal `(0, s, 0)`, `s` being 1 or -1: the side it keeps. */
  lemma YEdge(v: Vector, y0: real, s: real)
    requires s == 1.0 || s == -1.0
    ensures InHalfSpace(Vector(0.0, s, 0.0, 1.0), Dot(Vector(0.0, y0, 0.0, 1.0), Vector(0.0, s, 0.0, 1.0)), v) <==> s * v.y >= s * y0
  {
  }

  /** A vertical edge through `x0` with normal `(s, 0, 0)`: the side it keeps. */
  lemma XEdge(v: Vector, x0: real, s: real)
    requires s == 1.0 || s == -1.0
    ensures InHalfSpace(Vector(s, 0.0, 0.0, 1.0), Dot(Vector(x0, 0.0, 0.0, 1.0), Vector(s, 0.0, 0.0, 1.0)), v) <==> s * v.x >= s * x0
  {
  }

  // ---------------------------------------------------------------------------
  // Clipping pieces

  /**
   * A triangle on its way to the screen; `same` holds while it is still the very array object the
   * selection produced (object identity in the source, which the debug colouring tests).
   */
  datatype Piece = Piece(tri: Triangle, same: bool)

  /**
   * `triangleClippingAgainstPlane` on a piece: a triangle wholly inside comes back as the same
   * object, every other result is a new triangle.
   */
  function ClipPiece(m: MathLib, planePoint: Vector, planeNormal: Vector, p: Piece): (r: seq<Piece>)
    ensures |r| == |Clip(m, planePoint, planeNormal, p.tri)|
    ensures forall i | 0 <= i < |r| :: r[i].tri == Clip(m, planePoint, planeNormal, p.tri)[i]
  {
    var ts := Clip(m, planePoint, planeNormal, p.tri);
    if |InsidePoints(Normalise(m, planeNormal), planePoint, p.tri)| == 3 then [p]
    else seq(|ts|, i requires 0 <= i < |ts| => Piece(ts[i], false))
  }

  /** A piece keeps its identity through a clip exactly when it lies wholly inside the plane; otherwise every result is new. */
  lemma ClipPieceIdentity(m: MathLib, planePoint: Vector, planeNormal: Vector, p: Piece)
    ensures |InsidePoints(Normalise(m, planeNormal), planePoint, p.tri)| == 3 ==> ClipPiece(m, planePoint, planeNormal, p) == [p]
    ensures |InsidePoints(Normalise(m, planeNormal), planePoint, p.tri)| != 3 ==>
      forall i | 0 <= i < |ClipPiece(m, planePoint, planeNormal, p)| :: !ClipPiece(m, planePoint, planeNormal, p)[i].same
  {
  }

  /** `clipTriangleArray` with a plane clip: the pieces of each piece, in order. */
  function ClipPass(m: MathLib, planePoint: Vector, planeNormal: Vector, ps: seq<Piece>): seq<Piece>
  {
    if |ps| == 0 then [] else ClipPass(m, planePoint, planeNormal, ps[..|ps| - 1]) + ClipPiece(m, planePoint, planeNormal, ps[|ps| - 1])
  }

  /** `clipTriangleArray` with a clip function that clips each piece against one plane is that plane's pass. */
  lemma {:induction false} FlatMapIsPass(m: MathLib, planePoint: Vector, planeNormal: Vector, ps: seq<Piece>, f: Piece -> seq<Piece>)
    requires forall p :: f(p) == ClipPiece(m, planePoint, planeNormal, p)
    ensures FlatMap(ps, f) == ClipPass(m, planePoint, planeNormal, ps)
  {
    if |ps| > 0 {
      FlatMapIsPass(m, planePoint, planeNormal, ps[..|ps| - 1], f);
    }
  }

  /** The four screen-edge passes: top (y >= 0), bottom (y <= height - 1), left (x >= 0), right (x <= width - 1). */
  function EdgeClip(m: MathLib, width: real, height: real, ps: seq<Piece>): seq<Piece>
  {
    var top := ClipPass(m, Vector(0.0, 0.0, 0.0, 1.0), Vector(0.0, 1.0, 0.0, 1.0), ps);
    var bottom := ClipPass(m, Vector(0.0, height - 1.0, 0.0, 1.0), Vector(0.0, -1.0, 0.0, 1.0), top);
    var left := ClipPass(m, Vector(0.0, 0.0, 0.0, 1.0), Vector(1.0, 0.0, 0.0, 1.0), bottom);
    ClipPass(m, Vector(width - 1.0, 0.0, 0.0, 1.0), Vector(-1.0, 0.0, 0.0, 1.0), left)
  }

  /** Every corner of every piece lies in the half-space `{q | q . a >= c}`. */
  predicate PiecesIn(ps: seq<Piece>, a: Vector, c: real)
  {
    forall i, j | 0 <= i < |ps| && 0 <= j < 3 :: InHalfSpace(a, c, ps[i].tri[j])
  }

  /** A plane pass puts every corner inside its plane and keeps every half-space the input pieces were in. */
  lemma {:induction false} ClipPassIn(m: MathLib, planePoint: Vector, planeNormal: Vector, ps: seq<Piece>, a: Vector, c: real)
    requires Lawful(m) && SquaredLength(planeNormal) > 0.0
    ensures PiecesIn(ClipPass(m, planePoint, planeNormal, ps), planeNormal, Dot(planePoint, planeNormal))
    ensures PiecesIn(ps, a, c) ==> PiecesIn(ClipPass(m, planePoint, planeNormal, ps), a, c)
  {
    if |ps| > 0 {
      var front := ps[..|ps| - 1];
      var last := ps[|ps| - 1];
      ClipPassIn(m, planePoint, planeNormal, front, a, c);
      ClipInside(m, planePoint, planeNormal, last.tri, a, c);
      var head := ClipPass(m, planePoint, planeNormal, front);
      var tail := ClipPiece(m, planePoint, planeNormal, last);
      var clipped := Clip(m, planePoint, planeNormal, last.tri);
      if PiecesIn(ps, a, c) {
        assert PiecesIn(front, a, c) by {
          forall i, j | 0 <= i < |front| && 0 <= j < 3 ensures InHalfSpace(a, c, front[i].tri[j]) {
            assert front[i] == ps[i];
          }
        }
        assert VerticesIn([last.tri], a, c) by {
          forall i, j | 0 <= i < 1 && 0 <= j < 3 ensures InHalfSpace(a, c, [last.tri][i][j]) {
            assert ps[|ps| - 1] == last;
          }
        }
      }
      var all: seq<Piece> := head + tail;
      assert all == ClipPass(m, planePoint, planeNormal, ps);
      forall i, j | 0 <= i < |all| && 0 <= j < 3
        ensures InHalfSpace(planeNormal, Dot(planePoint, planeNormal), all[i].tri[j])
        ensures PiecesIn(ps, a, c) ==> InHalfSpace(a, c, all[i].tri[j])
      {
        if i >= |head| {
          assert all[i] == tail[i - |head|];
          assert tail[i - |head|].tri == clipped[i - |head|];
        } else {
          assert all[i] == head[i];
        }
      }
    }
  }

  /** Four plane passes in a row leave every corner inside all four planes. */
  lemma FourPasses(m: MathLib, ps: seq<Piece>, p0: Vector, n0: Vector, p1: Vector, n1: Vector, p2: Vector, n2: Vector, p3: Vector, n3: Vector)
    requires Lawful(m)
    requires SquaredLength(n0) > 0.0 && SquaredLength(n1) > 0.0 && SquaredLength(n2) > 0.0 && SquaredLength(n3) > 0.0
    ensures var r := ClipPass(m, p3, n3, ClipPass(m, p2, n2, ClipPass(m, p1, n1, ClipPass(m, p0, n0, ps))));
      && PiecesIn(r, n0, Dot(p0, n0)) && PiecesIn(r, n1, Dot(p1, n1))
      && PiecesIn(r, n2, Dot(p2, n2)) && PiecesIn(r, n3, Dot(p3, n3))
  {
    var top := ClipPass(m, p0, n0, ps);
    var bottom := ClipPass(m, p1, n1, top);
    var left := ClipPass(m, p2, n2, bottom);
    ClipPassIn(m, p0, n0, ps, n0, Dot(p0, n0));
    ClipPassIn(m, p1, n1, top, n0, Dot(p0, n0));
    ClipPassIn(m, p2, n2, bottom, n0, Dot(p0, n0));
    ClipPassIn(m, p3, n3, left, n0, Dot(p0, n0));
    ClipPassIn(m, p2, n2, bottom, n1, Dot(p1, n1));
    ClipPassIn(m, p3, n3, left, n1, Dot(p1, n1));
    ClipPassIn(m, p3, n3, left, n2, Dot(p2, n2));
  }

  /** After the four edge passes every corner lies inside the four edge half-spaces. */
  lemma EdgeClipInCanvas(m: MathLib, width: real, height: real, ps: seq<Piece>)
    requires Lawful(m)
    ensures forall i, j | 0 <= i < |EdgeClip(m, width, height, ps)| && 0 <= j < 3 :: InCanvas(width, height, EdgeClip(m, width, height, ps)[i].tri[j])
  {
    AxisLengths();
    FourPasses(m, ps, Vector(0.0, 0.0, 0.0, 1.0), Vector(0.0, 1.0, 0.0, 1.0), Vector(0.0, height - 1.0, 0.0, 1.0), Vector(0.0, -1.0, 0.0, 1.0),
      Vector(0.0, 0.0, 0.0, 1.0), Vector(1.0, 0.0, 0.0, 1.0), Vector(width - 1.0, 0.0, 0.0, 1.0), Vector(-1.0, 0.0, 0.0, 1.0));
  }

  /** Every corner the four edge passes leave lies on the canvas rectangle. */
  lemma EdgeClipOnScreen(m: MathLib, width: real, height: real, ps: seq<Piece>)
    requires Lawful(m)
    ensures forall i, j | 0 <= i < |EdgeClip(m, width, height, ps)| && 0 <= j < 3 :: OnScreen(width, height, EdgeClip(m, width, height, ps)[i].tri[j])
  {
    EdgeClipInCanvas(m, width, height, ps);
    var out := EdgeClip(m, width, height, ps);
    forall i, j | 0 <= i < |out| && 0 <= j < 3
      ensures OnScreen(width, height, out[i].tri[j])
    {
      InCanvasOnScreen(width, height, out[i].tri[j]);
    }
  }
}
