/**
 * The `Engine` `Shape`: a list of points and a list of triangles that index into it, plus
 * the origin, rotation, size and colour the renderer reads; the bundled meshes it can be
 * created from, and the `.obj` text reader that builds it.
 */
module EngineShape {
  import opened Wrappers
  import opened JsString
  import opened ShapeCommon
  import Vec3

  /** A triangle: the zero-based indices of its three points, as read (not checked against the points). */
  type Triangle = s: seq<real> | |s| == 3 witness [0.0, 0.0, 0.0]

  /** The names of the bundled meshes. */
  datatype ShapeName = Cube | Prism | PrismSqB

  /** A bundled mesh as its JSON file stores it. */
  datatype ShapeObject = ShapeObject(name: string, points: seq<Vec3.Vector3>, triangles: seq<Triangle>)

  class Shape {
    /** The points of the shape; the array itself is never replaced, only appended to while parsing. */
    var points: seq<Vec3.Vector3>
    /** The triangles of the shape, as indices into `points`. */
    var triangles: seq<Triangle>
    var origin: Coords
    var rotation: Coords
    var size: real
    var colorObj: Color

    /** A new shape: 300 units in front of the camera, not rotated, size 100 and white. */
    predicate HasDefaults()
      reads this, origin, rotation
    {
      && origin.x == 0.0 && origin.y == 0.0 && origin.z == 300.0
      && rotation.x == 0.0 && rotation.y == 0.0 && rotation.z == 0.0
      && size == 100.0 && colorObj == White
    }

    constructor(points: seq<Vec3.Vector3>, triangles: seq<Triangle>)
      ensures this.points == points && this.triangles == triangles
      ensures fresh(origin) && fresh(rotation) && origin != rotation
      ensures HasDefaults()
    {
      this.points := points;
      this.triangles := triangles;
      origin := new Coords(0.0, 0.0, 300.0);
      rotation := new Coords(0.0, 0.0, 0.0);
      size := 100.0;
      colorObj := White;
    }

    /** `setColor(hex)`: replaces the colour record, or keeps it and logs an error when `hex` is not 7 characters long. */
    method SetColor(hex: string) returns (logged: Option<string>)
      modifies this`colorObj
      ensures colorObj == ColorFromHex(old(colorObj), hex)
      ensures |hex| != 7 ==> logged == Some(HexErrorLog(hex))
      ensures |hex| == 7 ==> logged == None
    {
      if |hex| != 7 {
        return Some(HexErrorLog(hex));
      }
      colorObj := Color(hex, ParseHex(Substring(hex, 1, 3)), ParseHex(Substring(hex, 3, 5)), ParseHex(Substring(hex, 5, 7)));
      logged := None;
    }
  }

  /**
   * `copyShapeParams(shape, origin)`: `shape` takes the size of `origin` and shares its origin,
   * rotation and colour objects; its points and triangles stay its own.
   */
  method CopyShapeParams(shape: Shape, origin: Shape)
    modifies shape`size, shape`origin, shape`rotation, shape`colorObj
    ensures shape.size == origin.size && shape.colorObj == origin.colorObj
    ensures shape.origin == origin.origin && shape.rotation == origin.rotation
  {
    shape.size := origin.size;
    shape.origin := origin.origin;
    shape.rotation := origin.rotation;
    shape.colorObj := origin.colorObj;
  }

  /**
   * `createShape(name, origin)`: a new shape holding the named bundled mesh (the meshes are a
   * parameter), with the parameters of `origin` when one is given and the defaults otherwise.
   */
  method CreateShape(meshes: ShapeName -> ShapeObject, name: ShapeName, origin: Shape?) returns (shp: Shape)
    ensures fresh(shp)
    ensures shp.points == meshes(name).points && shp.triangles == meshes(name).triangles
    ensures origin == null ==> fresh(shp.origin) && fresh(shp.rotation) && shp.HasDefaults()
    ensures origin != null ==>
      && shp.size == origin.size && shp.colorObj == origin.colorObj
      && shp.origin == origin.origin && shp.rotation == origin.rotation
  {
    var obj := meshes(name);
    shp := new Shape(obj.points, obj.triangles);
    if origin != null {
      CopyShapeParams(shp, origin);
    }
  }

  // ---------------------------------------------------------------------------
  // parseToShape

  /** A token with everything from its first carriage return on cut off. */
  function CutReturn(v: string): string
  {
    if '\r' in v then Substring(v, 0, IndexOf(v, '\r')) else v
  }

  /** The tokens of a `v` line's data: split on spaces, empty ones dropped, each cut at a carriage return. */
  function VertexTokens(data: string): seq<string>
  {
    var parts := NonEmpty(Split(data, ' '));
    seq(|parts|, i requires 0 <= i < |parts| => CutReturn(parts[i]))
  }

  /** The point a `v` line with three tokens adds. */
  function PointOf(num: string -> real, data: string): Vec3.Vector3
    requires |VertexTokens(data)| == 3
  {
    var vs := VertexTokens(data);
    [num(vs[0]), num(vs[1]), num(vs[2])]
  }

  /** The zero-based indices an `f` line with three parts adds. */
  function FaceOf(num: string -> real, data: string): Triangle
    requires |Split(data, ' ')| == 3
  {
    var fs := Split(data, ' ');
    [FaceIndex(num, fs[0]), FaceIndex(num, fs[1]), FaceIndex(num, fs[2])]
  }

  /** The points and triangles read so far. */
  datatype ObjData = ObjData(points: seq<Vec3.Vector3>, triangles: seq<Triangle>)

  /** A line that does not make `parseToShape` throw. */
  predicate LineOk(line: string)
  {
    && (IsKind(line, "v") ==> |VertexTokens(LineHead(line).data)| == 3)
    && (IsKind(line, "f") ==> |Split(LineHead(line).data, ' ')| == 3)
  }

  /** What line number `i` does to the data read before it. */
  function ReadLine(num: string -> real, acc: ObjData, i: nat, line: string): Result<ObjData, ParseError>
  {
    if |line| == 0 then Success(acc)
    else
      var h := LineHead(line);
      if h.kind == "v" then
        if |VertexTokens(h.data)| != 3 then Failure(BadVertex(i, h.data))
        else Success(acc.(points := acc.points + [PointOf(num, h.data)]))
      else if h.kind == "f" then
        if |Split(h.data, ' ')| != 3 then Failure(BadFace(i, |Split(h.data, ' ')|))
        else Success(acc.(triangles := acc.triangles + [FaceOf(num, h.data)]))
      else Success(acc)
  }

  /** The data read from the lines, line by line, stopping at the first error. */
  function ReadLines(num: string -> real, lines: seq<string>): Result<ObjData, ParseError>
  {
    if |lines| == 0 then Success(ObjData([], []))
    else
      match ReadLines(num, lines[..|lines| - 1])
      case Failure(e) => Failure(e)
      case Success(acc) => ReadLine(num, acc, |lines| - 1, lines[|lines| - 1])
  }

  /** What `parseToShape(text)` yields: the points and triangles of the new shape, or the error it throws. */
  function Parse(num: string -> real, text: string): Result<ObjData, ParseError>
  {
    ReadLines(num, Split(text, '\n'))
  }

  /** Once reading a prefix fails, reading more lines keeps that error. */
  lemma {:induction false} FailureSticks(num: string -> real, lines: seq<string>, k: nat)
    requires k <= |lines| && ReadLines(num, lines[..k]).Failure?
    ensures ReadLines(num, lines) == ReadLines(num, lines[..k])
    decreases |lines|
  {
    if k < |lines| {
      var front := lines[..|lines| - 1];
      assert front[..k] == lines[..k];
      FailureSticks(num, front, k);
    } else {
      assert lines[..k] == lines;
    }
  }

  /** Reading one more line after a successful prefix is `ReadLine` on what the prefix read. */
  lemma ReadStep(num: string -> real, lines: seq<string>, i: nat, acc: ObjData)
    requires i < |lines| && ReadLines(num, lines[..i]) == Success(acc)
    ensures ReadLines(num, lines[..i + 1]) == ReadLine(num, acc, i, lines[i])
  {
    assert lines[..i + 1][..i] == lines[..i];
  }

  /**
   * One line fails exactly when it is malformed; otherwise a `v` line adds its point, an `f`
   * line its triangle, and any other line (an empty one included) nothing.
   */
  lemma LineEffect(num: string -> real, acc: ObjData, i: nat, line: string)
    ensures ReadLine(num, acc, i, line).Success? <==> LineOk(line)
    ensures ReadLine(num, acc, i, line).Failure? ==> ReadLine(num, acc, i, line).error.line == i
    ensures LineOk(line) ==>
      && ReadLine(num, acc, i, line).value.points ==
           acc.points + (if IsKind(line, "v") then [PointOf(num, LineHead(line).data)] else [])
      && ReadLine(num, acc, i, line).value.triangles ==
           acc.triangles + (if IsKind(line, "f") then [FaceOf(num, LineHead(line).data)] else [])
  {
    if IsKind(line, "v") {
      assert !IsKind(line, "f");
    }
  }

  /**
   * The body of `parseToShape`'s loop for line number `i`: an empty line is skipped, a `v`
   * line appends its point to the shape, an `f` line its triangle, and a malformed one gives
   * the error the loop throws.
   */
  method ReadInto(shape: Shape, num: string -> real, i: nat, line: string) returns (err: Option<ParseError>)
    modifies shape`points, shape`triangles
    ensures var r := ReadLine(num, ObjData(old(shape.points), old(shape.triangles)), i, line);
      && (err.None? <==> r.Success?)
      && (err.Some? ==> err.value == r.error)
      && (r.Success? ==> r.value == ObjData(shape.points, shape.triangles))
  {
    if |line| == 0 {
      return None;
    }
    var pivot := IndexOf(line, ' ');
    var kind := Substring(line, 0, pivot);
    var data := Substring(line, pivot + 1, |line|);
    assert LineHead(line) == Head(kind, data);
    if kind == "v" {
      var vertices := VertexTokens(data);
      if |vertices| != 3 {
        return Some(BadVertex(i, data));
      }
      var point: Vec3.Vector3 := [num(vertices[0]), num(vertices[1]), num(vertices[2])];
      shape.points := shape.points + [point];
    } else if kind == "f" {
      var faces := Split(data, ' ');
      if |faces| != 3 {
        return Some(BadFace(i, |faces|));
      }
      var v1 := FaceIndex(num, faces[0]);
      var v2 := FaceIndex(num, faces[1]);
      var v3 := FaceIndex(num, faces[2]);
      shape.triangles := shape.triangles + [[v1, v2, v3]];
    }
    return None;
  }

  /**
   * `parseToShape`: starts from a new shape and reads the text line by line, appending a point
   * for every `v` line and a triangle for every `f` line, and throwing at the first malformed one.
   */
  method ParseToShape(num: string -> real, text: string) returns (r: Result<Shape, ParseError>)
    ensures r.Success? <==> Parse(num, text).Success?
    ensures r.Success? ==>
      && fresh(r.value) && fresh(r.value.origin) && fresh(r.value.rotation) && r.value.HasDefaults()
      && r.value.points == Parse(num, text).value.points
      && r.value.triangles == Parse(num, text).value.triangles
    ensures r.Failure? ==> r.error == Parse(num, text).error
  {
    var shape := new Shape([], []);
    var read := Split(text, '\n');
    for i := 0 to |read|
      invariant fresh(shape) && fresh(shape.origin) && fresh(shape.rotation) && shape.HasDefaults()
      invariant ReadLines(num, read[..i]) == Success(ObjData(shape.points, shape.triangles))
    {
      ReadStep(num, read, i, ObjData(shape.points, shape.triangles));
      var err := ReadInto(shape, num, i, read[i]);
      if err.Some? {
        FailureSticks(num, read, i + 1);
        assert read[..|read|] == read;
        return Failure(err.value);
      }
    }
    assert read[..|read|] == read;
    return Success(shape);
  }

  // ---------------------------------------------------------------------------
  // What the reader promises

  /**
   * Reading succeeds exactly when no line is malformed, and a failure names the first
   * malformed line.
   */
  lemma {:induction false} ReadLinesErrors(num: string -> real, lines: seq<string>)
    ensures ReadLines(num, lines).Success? <==> forall k | 0 <= k < |lines| :: LineOk(lines[k])
    ensures ReadLines(num, lines).Failure? ==>
      var i := ReadLines(num, lines).error.line;
      i < |lines| && !LineOk(lines[i]) && forall k | 0 <= k < i :: LineOk(lines[k])
  {
    if |lines| > 0 {
      var n := |lines| - 1;
      ReadLinesErrors(num, lines[..n]);
      if ReadLines(num, lines[..n]).Failure? {
        EarlierError(num, lines);
      } else {
        LastLineError(num, lines);
      }
    }
  }

  /** An error in the lines before the last one is the error of the whole. */
  lemma EarlierError(num: string -> real, lines: seq<string>)
    requires |lines| > 0
    requires var front := lines[..|lines| - 1];
      && ReadLines(num, front).Failure?
      && var i := ReadLines(num, front).error.line;
      i < |front| && !LineOk(front[i]) && forall k | 0 <= k < i :: LineOk(front[k])
    ensures ReadLines(num, lines) == ReadLines(num, lines[..|lines| - 1])
    ensures var i := ReadLines(num, lines).error.line;
      i < |lines| && !LineOk(lines[i]) && forall k | 0 <= k < i :: LineOk(lines[k])
  {
    var front := lines[..|lines| - 1];
    var i := ReadLines(num, front).error.line;
    assert front[i] == lines[i];
    forall k | 0 <= k < i
      ensures LineOk(lines[k])
    {
      assert front[k] == lines[k];
    }
  }

  /** After well-formed lines, the whole reads exactly when the last line is well formed. */
  lemma LastLineError(num: string -> real, lines: seq<string>)
    requires |lines| > 0
    requires var front := lines[..|lines| - 1];
      ReadLines(num, front).Success? && forall k | 0 <= k < |front| :: LineOk(front[k])
    ensures ReadLines(num, lines).Success? <==> forall k | 0 <= k < |lines| :: LineOk(lines[k])
    ensures ReadLines(num, lines).Failure? ==>
      var i := ReadLines(num, lines).error.line;
      i < |lines| && !LineOk(lines[i]) && forall k | 0 <= k < i :: LineOk(lines[k])
  {
    var n := |lines| - 1;
    var front := lines[..n];
    var acc := ReadLines(num, front).value;
    forall k | 0 <= k < n
      ensures LineOk(lines[k])
    {
      assert front[k] == lines[k];
    }
    assert ReadLines(num, lines) == ReadLine(num, acc, n, lines[n]);
    LineEffect(num, acc, n, lines[n]);
  }

  /** Every `v` line adds one point, in text order; no other line adds one. */
  lemma {:induction false} ReadPoints(num: string -> real, lines: seq<string>)
    requires ReadLines(num, lines).Success?
    ensures var d := ReadLines(num, lines).value;
      && |d.points| == |KindLines(lines, "v")|
      && forall k | 0 <= k < |d.points| ::
           |VertexTokens(LineHead(KindLines(lines, "v")[k]).data)| == 3 &&
           d.points[k] == PointOf(num, LineHead(KindLines(lines, "v")[k]).data)
  {
    if |lines| > 0 {
      var n := |lines| - 1;
      var front := lines[..n];
      assert ReadLines(num, front).Success?;
      ReadPoints(num, front);
      var acc := ReadLines(num, front).value;
      assert ReadLines(num, lines) == ReadLine(num, acc, n, lines[n]);
      LineEffect(num, acc, n, lines[n]);
      var d := ReadLines(num, lines).value;
      var kf := KindLines(front, "v");
      var kl := KindLines(lines, "v");
      assert kl == kf + (if IsKind(lines[n], "v") then [lines[n]] else []);
      forall k | 0 <= k < |d.points|
        ensures |VertexTokens(LineHead(kl[k]).data)| == 3 && d.points[k] == PointOf(num, LineHead(kl[k]).data)
      {
        if k < |acc.points| {
          assert kl[k] == kf[k];
        } else {
          assert kl[k] == lines[n];
        }
      }
    }
  }

  /** Every `f` line adds one triangle, in text order; no other line adds one. */
  lemma {:induction false} ReadTriangles(num: string -> real, lines: seq<string>)
    requires ReadLines(num, lines).Success?
    ensures var d := ReadLines(num, lines).value;
      && |d.triangles| == |KindLines(lines, "f")|
      && forall k | 0 <= k < |d.triangles| ::
           |Split(LineHead(KindLines(lines, "f")[k]).data, ' ')| == 3 &&
           d.triangles[k] == FaceOf(num, LineHead(KindLines(lines, "f")[k]).data)
  {
    if |lines| > 0 {
      var n := |lines| - 1;
      var front := lines[..n];
      assert ReadLines(num, front).Success?;
      ReadTriangles(num, front);
      var acc := ReadLines(num, front).value;
      assert ReadLines(num, lines) == ReadLine(num, acc, n, lines[n]);
      LineEffect(num, acc, n, lines[n]);
      var d := ReadLines(num, lines).value;
      var kf := KindLines(front, "f");
      var kl := KindLines(lines, "f");
      assert kl == kf + (if IsKind(lines[n], "f") then [lines[n]] else []);
      forall k | 0 <= k < |d.triangles|
        ensures |Split(LineHead(kl[k]).data, ' ')| == 3 && d.triangles[k] == FaceOf(num, LineHead(kl[k]).data)
      {
        if k < |acc.triangles| {
          assert kl[k] == kf[k];
        } else {
          assert kl[k] == lines[n];
        }
      }
    }
  }

  /** A cut token has no carriage return, is a prefix of the token, and is the token itself when it had none. */
  lemma CutReturnPrefix(v: string)
    ensures '\r' !in CutReturn(v) && CutReturn(v) <= v
    ensures '\r' !in v ==> CutReturn(v) == v
  {
  }

  /** A token ending in a carriage return is read without it. */
  lemma CutReturnSuffix(t: string)
    requires '\r' !in t
    ensures CutReturn(t + "\r") == t
  {
    var v := t + "\r";
    assert v[|t|] == '\r';
    assert v[..|t|] == t;
  }

  /**
   * Space-joined non-empty tokens without spaces are read back as those tokens, each cut at
   * its first carriage return: a line ending in `\r\n` reads as if it ended in `\n`.
   */
  lemma VertexTokensJoin(tokens: seq<string>)
    requires |tokens| >= 1
    requires forall i | 0 <= i < |tokens| :: tokens[i] != "" && ' ' !in tokens[i]
    ensures VertexTokens(Join(tokens, ' ')) == seq(|tokens|, i requires 0 <= i < |tokens| => CutReturn(tokens[i]))
  {
    SplitJoin(tokens, ' ');
    NonEmptyAll(tokens);
  }

  /**
   * An `f` line is stored as read, with no check against the points: on its own it gives a
   * shape with no point and one triangle, whatever indices it names.
   */
  lemma FaceNotChecked(num: string -> real, faceLine: string)
    requires IsKind(faceLine, "f") && |Split(LineHead(faceLine).data, ' ')| == 3
    ensures ReadLines(num, [faceLine]) == Success(ObjData([], [FaceOf(num, LineHead(faceLine).data)]))
  {
    var empty := ObjData([], []);
    var face := FaceOf(num, LineHead(faceLine).data);
    assert [faceLine][..0] == [];
    assert ReadLines(num, [faceLine]) == ReadLine(num, empty, 0, faceLine);
    assert LineHead(faceLine).kind != "v" by {
      assert "f"[0] != "v"[0];
    }
    assert ReadLine(num, empty, 0, faceLine) == Success(empty.(triangles := empty.triangles + [face]));
    assert empty.triangles + [face] == [face];
  }
}
