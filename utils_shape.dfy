/**
 * The EngineUtils `Shape`: a list of triangles of points plus the origin, rotation,
 * size and colour the renderer reads, and the `.obj` text reader that builds it.
 */
module UtilsShape {
  import opened Wrappers
  import opened JsString
  import opened UtilsVector
  import opened ShapeCommon

  /** A triangle as `parseToShape` builds it: three looked-up points, any of which may be undefined (`None`). */
  type Face = f: seq<Option<Vector>> | |f| == 3 witness [None, None, None]

  /** The three vertex indices a face line names. */
  type Indices = s: seq<real> | |s| == 3 witness [0.0, 0.0, 0.0]

  class Shape {
    /** The triangles of the shape; the array is never replaced. */
    const triangles: seq<Face>
    var origin: Coords
    var rotation: Coords
    var size: real
    var colorObj: Color

    /** A new shape: at the world origin, not rotated, size 100 and white. */
    predicate HasDefaults()
      reads this, origin, rotation
    {
      && origin.x == 0.0 && origin.y == 0.0 && origin.z == 0.0
      && rotation.x == 0.0 && rotation.y == 0.0 && rotation.z == 0.0
      && size == 100.0 && colorObj == White
    }

    constructor(triangles: seq<Face>)
      ensures this.triangles == triangles
      ensures fresh(origin) && fresh(rotation) && origin != rotation
      ensures HasDefaults()
    {
      this.triangles := triangles;
      origin := new Coords(0.0, 0.0, 0.0);
      rotation := new Coords(0.0, 0.0, 0.0);
      size := 100.0;
      colorObj := White;
    }

    /** `setColor(hex)`: replaces the colour record, or keeps it and logs an error when `hex` is not 7 characters long. */
    method SetColor(hex: string) returns (logged: Option<string>)
      modifies this
      ensures colorObj == ColorFromHex(old(colorObj), hex)
      ensures |hex| != 7 ==> logged == Some(HexErrorLog(hex))
      ensures |hex| == 7 ==> logged == None
      ensures origin == old(origin) && rotation == old(rotation) && size == old(size)
    {
      if |hex| != 7 {
        return Some(HexErrorLog(hex));
      }
      colorObj := Color(hex, ParseHex(Substring(hex, 1, 3)), ParseHex(Substring(hex, 3, 5)), ParseHex(Substring(hex, 5, 7)));
      logged := None;
    }
  }

  /**
   * `copyShapeParams(shape, origin)`: `shape` takes the size and colour of `origin` and
   * shares its origin and rotation objects; its triangles stay its own.
   */
  method CopyShapeParams(shape: Shape, origin: Shape)
    modifies shape
    ensures shape.size == origin.size && shape.colorObj == origin.colorObj
    ensures shape.origin == origin.origin && shape.rotation == origin.rotation
  {
    shape.size := origin.size;
    shape.origin := origin.origin;
    shape.rotation := origin.rotation;
    shape.colorObj := origin.colorObj;
  }

  // ---------------------------------------------------------------------------
  // parseToShape

  /** The characters a vertex token keeps: digits, `.` and `-`. */
  const NumberChars: set<char> := {'0', '1', '2', '3', '4', '5', '6', '7', '8', '9', '.', '-'}

  /** The tokens of a `v` line's data: split on spaces, stripped of every other character, empty ones dropped. */
  function VertexTokens(data: string): seq<string>
  {
    var parts := Split(data, ' ');
    NonEmpty(seq(|parts|, i requires 0 <= i < |parts| => KeepOnly(parts[i], NumberChars)))
  }

  /** The point a `v` line with three tokens adds. */
  function PointOf(num: string -> real, data: string): Vector
    requires |VertexTokens(data)| == 3
  {
    var vs := VertexTokens(data);
    Xyz(num(vs[0]), num(vs[1]), num(vs[2]))
  }

  /** The zero-based indices an `f` line with three parts adds. */
  function FaceOf(num: string -> real, data: string): Indices
    requires |Split(data, ' ')| == 3
  {
    var fs := Split(data, ' ');
    [FaceIndex(num, fs[0]), FaceIndex(num, fs[1]), FaceIndex(num, fs[2])]
  }

  /** The points and face indices read so far. */
  datatype ObjData = ObjData(points: seq<Vector>, faces: seq<Indices>)

  /** A line that does not make `parseToShape` throw. */
  predicate LineOk(line: string)
  {
    && (IsKind(line, "v") ==> |VertexTokens(LineHead(line).data)| == 3)
    && (IsKind(line, "f") ==> |Split(LineHead(line).data, ' ')| == 3)
  }

  /** What line number `i` does to the data read before it. */
  function ReadLine(num: string -> real, acc: ObjData, i: nat, line: string): Result<ObjData, ParseError>
  {
    if |line| == 0 then Success(acc)
    else
      var h := LineHead(line);
      if h.kind == "v" then
        if |VertexTokens(h.data)| != 3 then Failure(BadVertex(i, h.data))
        else Success(acc.(points := acc.points + [PointOf(num, h.data)]))
      else if h.kind == "f" then
        if |Split(h.data, ' ')| != 3 then Failure(BadFace(i, |Split(h.data, ' ')|))
        else Success(acc.(faces := acc.faces + [FaceOf(num, h.data)]))
      else Success(acc)
  }

  /** The data read from the lines, line by line, stopping at the first error. */
  function ReadLines(num: string -> real, lines: seq<string>): Result<ObjData, ParseError>
  {
    if |lines| == 0 then Success(ObjData([], []))
    else
      match ReadLines(num, lines[..|lines| - 1])
      case Failure(e) => Failure(e)
      case Success(acc) => ReadLine(num, acc, |lines| - 1, lines[|lines| - 1])
  }

  /** The final `map`: each face's indices looked up in the complete list of points. */
  function Resolve(points: seq<Vector>, faces: seq<Indices>): (r: seq<Face>)
    ensures |r| == |faces|
    ensures forall k, j | 0 <= k < |faces| && 0 <= j < 3 :: r[k][j] == Indexed(points, faces[k][j])
  {
    seq(|faces|, k requires 0 <= k < |faces| => [Indexed(points, faces[k][0]), Indexed(points, faces[k][1]), Indexed(points, faces[k][2])])
  }

  /** What `parseToShape(text)` yields: the triangles of the new shape, or the error it throws. */
  function Parse(num: string -> real, text: string): Result<seq<Face>, ParseError>
  {
    match ReadLines(num, Split(text, '\n'))
    case Failure(e) => Failure(e)
    case Success(d) => Success(Resolve(d.points, d.faces))
  }

  /** Once reading a prefix fails, reading more lines keeps that error. */
  lemma {:induction false} FailureSticks(num: string -> real, lines: seq<string>, k: nat)
    requires k <= |lines| && ReadLines(num, lines[..k]).Failure?
    ensures ReadLines(num, lines) == ReadLines(num, lines[..k])
    decreases |lines|
  {
    if k < |lines| {
      var front := lines[..|lines| - 1];
      assert front[..k] == lines[..k];
      FailureSticks(num, front, k);
    } else {
      assert lines[..k] == lines;
    }
  }

  /** Reading one more line after a successful prefix is `ReadLine` on what the prefix read. */
  lemma ReadStep(num: string -> real, lines: seq<string>, i: nat, acc: ObjData)
    requires i < |lines| && ReadLines(num, lines[..i]) == Success(acc)
    ensures ReadLines(num, lines[..i + 1]) == ReadLine(num, acc, i, lines[i])
  {
    assert lines[..i + 1][..i] == lines[..i];
  }

  /**
   * One line fails exactly when it is malformed; otherwise a `v` line adds its point, an `f`
   * line its face, and any other line nothing.
   */
  lemma LineEffect(num: string -> real, acc: ObjData, i: nat, line: string)
    ensures ReadLine(num, acc, i, line).Success? <==> LineOk(line)
    ensures ReadLine(num, acc, i, line).Failure? ==> ReadLine(num, acc, i, line).error.line == i
    ensures LineOk(line) ==>
      && ReadLine(num, acc, i, line).value.points ==
           acc.points + (if IsKind(line, "v") then [PointOf(num, LineHead(line).data)] else [])
      && ReadLine(num, acc, i, line).value.faces ==
           acc.faces + (if IsKind(line, "f") then [FaceOf(num, LineHead(line).data)] else [])
  {
    if IsKind(line, "v") {
      assert !IsKind(line, "f");
    }
  }

  /**
   * `parseToShape`: reads the text line by line, collecting points and face indices and
   * throwing at the first malformed `v` or `f` line, then resolves the faces into a new shape.
   */
  method ParseToShape(num: string -> real, text: string) returns (r: Result<Shape, ParseError>)
    ensures r.Success? <==> Parse(num, text).Success?
    ensures r.Success? ==> fresh(r.value) && r.value.triangles == Parse(num, text).value && r.value.HasDefaults()
    ensures r.Failure? ==> r.error == Parse(num, text).error
  {
    var points: seq<Vector> := [];
    var trianglesIdx: seq<Indices> := [];
    var read := Split(text, '\n');
    for i := 0 to |read|
      invariant ReadLines(num, read[..i]) == Success(ObjData(points, trianglesIdx))
    {
      ReadStep(num, read, i, ObjData(points, trianglesIdx));
      var line := read[i];
      if |line| == 0 {
        continue;
      }
      var pivot := IndexOf(line, ' ');
      var kind := Substring(line, 0, pivot);
      var data := Substring(line, pivot + 1, |line|);
      assert LineHead(line) == Head(kind, data);
      if kind == "v" {
        var vertices := VertexTokens(data);
        if |vertices| != 3 {
          FailureSticks(num, read, i + 1);
          assert read[..|read|] == read;
          return Failure(BadVertex(i, data));
        }
        points := points + [Xyz(num(vertices[0]), num(vertices[1]), num(vertices[2]))];
      } else if kind == "f" {
        var faces := Split(data, ' ');
        if |faces| != 3 {
          FailureSticks(num, read, i + 1);
          assert read[..|read|] == read;
          return Failure(BadFace(i, |faces|));
        }
        var v1 := FaceIndex(num, faces[0]);
        var v2 := FaceIndex(num, faces[1]);
        var v3 := FaceIndex(num, faces[2]);
        trianglesIdx := trianglesIdx + [[v1, v2, v3]];
      }
    }
    assert read[..|read|] == read;
    var triangles := Resolve(points, trianglesIdx);
    var shape := new Shape(triangles);
    return Success(shape);
  }

  // ---------------------------------------------------------------------------
  // What the reader promises

  /**
   * Reading succeeds exactly when no line is malformed, and a failure names the first
   * malformed line.
   */
  lemma {:induction false} ReadLinesErrors(num: string -> real, lines: seq<string>)
    ensures ReadLines(num, lines).Success? <==> forall k | 0 <= k < |lines| :: LineOk(lines[k])
    ensures ReadLines(num, lines).Failure? ==>
      var i := ReadLines(num, lines).error.line;
      i < |lines| && !LineOk(lines[i]) && forall k | 0 <= k < i :: LineOk(lines[k])
  {
    if |lines| > 0 {
      var n := |lines| - 1;
      ReadLinesErrors(num, lines[..n]);
      if ReadLines(num, lines[..n]).Failure? {
        EarlierError(num, lines);
      } else {
        LastLineError(num, lines);
      }
    }
  }

  /** An error in the lines before the last one is the error of the whole. */
  lemma EarlierError(num: string -> real, lines: seq<string>)
    requires |lines| > 0
    requires var front := lines[..|lines| - 1];
      && ReadLines(num, front).Failure?
      && var i := ReadLines(num, front).error.line;
      i < |front| && !LineOk(front[i]) && forall k | 0 <= k < i :: LineOk(front[k])
    ensures ReadLines(num, lines) == ReadLines(num, lines[..|lines| - 1])
    ensures var i := ReadLines(num, lines).error.line;
      i < |lines| && !LineOk(lines[i]) && forall k | 0 <= k < i :: LineOk(lines[k])
  {
    var front := lines[..|lines| - 1];
    var i := ReadLines(num, front).error.line;
    assert front[i] == lines[i];
    forall k | 0 <= k < i
      ensures LineOk(lines[k])
    {
      assert front[k] == lines[k];
    }
  }

  /** After well-formed lines, the whole reads exactly when the last line is well formed. */
  lemma LastLineError(num: string -> real, lines: seq<string>)
    requires |lines| > 0
    requires var front := lines[..|lines| - 1];
      ReadLines(num, front).Success? && forall k | 0 <= k < |front| :: LineOk(front[k])
    ensures ReadLines(num, lines).Success? <==> forall k | 0 <= k < |lines| :: LineOk(lines[k])
    ensures ReadLines(num, lines).Failure? ==>
      var i := ReadLines(num, lines).error.line;
      i < |lines| && !LineOk(lines[i]) && forall k | 0 <= k < i :: LineOk(lines[k])
  {
    var n := |lines| - 1;
    var front := lines[..n];
    var acc := ReadLines(num, front).value;
    forall k | 0 <= k < n
      ensures LineOk(lines[k])
    {
      assert front[k] == lines[k];
    }
    assert ReadLines(num, lines) == ReadLine(num, acc, n, lines[n]);
    LineEffect(num, acc, n, lines[n]);
  }

  /** Every `v` line adds one point, in text order; no other line adds one. */
  lemma {:induction false} ReadPoints(num: string -> real, lines: seq<string>)
    requires ReadLines(num, lines).Success?
    ensures var d := ReadLines(num, lines).value;
      && |d.points| == |KindLines(lines, "v")|
      && forall k | 0 <= k < |d.points| ::
           |VertexTokens(LineHead(KindLines(lines, "v")[k]).data)| == 3 &&
           d.points[k] == PointOf(num, LineHead(KindLines(lines, "v")[k]).data)
  {
    if |lines| > 0 {
      var n := |lines| - 1;
      var front := lines[..n];
      assert ReadLines(num, front).Success?;
      ReadPoints(num, front);
      var acc := ReadLines(num, front).value;
      assert ReadLines(num, lines) == ReadLine(num, acc, n, lines[n]);
      LineEffect(num, acc, n, lines[n]);
      var d := ReadLines(num, lines).value;
      var kf := KindLines(front, "v");
      var kl := KindLines(lines, "v");
      assert kl == kf + (if IsKind(lines[n], "v") then [lines[n]] else []);
      forall k | 0 <= k < |d.points|
        ensures |VertexTokens(LineHead(kl[k]).data)| == 3 && d.points[k] == PointOf(num, LineHead(kl[k]).data)
      {
        if k < |acc.points| {
          assert kl[k] == kf[k];
        } else {
          assert kl[k] == lines[n];
        }
      }
    }
  }

  /** Every `f` line adds one face, in text order; no other line adds one. */
  lemma {:induction false} ReadFaces(num: string -> real, lines: seq<string>)
    requires ReadLines(num, lines).Success?
    ensures var d := ReadLines(num, lines).value;
      && |d.faces| == |KindLines(lines, "f")|
      && forall k | 0 <= k < |d.faces| ::
           |Split(LineHead(KindLines(lines, "f")[k]).data, ' ')| == 3 &&
           d.faces[k] == FaceOf(num, LineHead(KindLines(lines, "f")[k]).data)
  {
    if |lines| > 0 {
      var n := |lines| - 1;
      var front := lines[..n];
      assert ReadLines(num, front).Success?;
      ReadFaces(num, front);
      var acc := ReadLines(num, front).value;
      assert ReadLines(num, lines) == ReadLine(num, acc, n, lines[n]);
      LineEffect(num, acc, n, lines[n]);
      var d := ReadLines(num, lines).value;
      var kf := KindLines(front, "f");
      var kl := KindLines(lines, "f");
      assert kl == kf + (if IsKind(lines[n], "f") then [lines[n]] else []);
      forall k | 0 <= k < |d.faces|
        ensures |Split(LineHead(kl[k]).data, ' ')| == 3 && d.faces[k] == FaceOf(num, LineHead(kl[k]).data)
      {
        if k < |acc.faces| {
          assert kl[k] == kf[k];
        } else {
          assert kl[k] == lines[n];
        }
      }
    }
  }

  /** The new shape has one triangle per `f` line, in text order, resolved against every point of the text. */
  lemma ParseFaces(num: string -> real, text: string)
    requires Parse(num, text).Success?
    ensures var lines := Split(text, '\n');
      var d := ReadLines(num, lines).value;
      && |Parse(num, text).value| == |KindLines(lines, "f")|
      && forall k, j | 0 <= k < |d.faces| && 0 <= j < 3 ::
           Parse(num, text).value[k][j] == Indexed(d.points, d.faces[k][j])
  {
    ReadFaces(num, Split(text, '\n'));
  }

  /** A face part naming vertex `n + 1` before its first `/` picks the point at index `n`, when there is one. */
  lemma FacePartLookup(num: string -> real, points: seq<Vector>, part: string, n: nat)
    requires num(Split(part, '/')[0]) == n as real + 1.0 && n < |points|
    ensures Indexed(points, FaceIndex(num, part)) == Some(points[n])
  {
  }

  /** Space-joined tokens made only of digits, `.` and `-` are read back as exactly those tokens. */
  lemma VertexTokensJoin(tokens: seq<string>)
    requires |tokens| >= 1
    requires forall i | 0 <= i < |tokens| :: tokens[i] != ""
    requires forall i, j | 0 <= i < |tokens| && 0 <= j < |tokens[i]| :: tokens[i][j] in NumberChars
    ensures VertexTokens(Join(tokens, ' ')) == tokens
  {
    forall i | 0 <= i < |tokens|
      ensures ' ' !in tokens[i] && KeepOnly(tokens[i], NumberChars) == tokens[i]
    {
      assert forall j | 0 <= j < |tokens[i]| :: tokens[i][j] in NumberChars;
    }
    SplitJoin(tokens, ' ');
    var kept := seq(|tokens|, i requires 0 <= i < |tokens| => KeepOnly(tokens[i], NumberChars));
    assert kept == tokens;
    NonEmptyAll(tokens);
  }

  /** Two lines without line breaks, joined by one, split back into those two lines. */
  lemma TwoLines(a: string, b: string)
    requires '\n' !in a && '\n' !in b
    ensures Split(a + "\n" + b, '\n') == [a, b]
  {
    var lines := [a, b];
    assert lines[1..] == [b];
    assert Join(lines, '\n') == a + "\n" + b;
    SplitJoin(lines, '\n');
  }

  /**
   * An `f` line may name a vertex whose `v` line comes after it: faces are looked up only
   * once every line has been read.
   */
  lemma ForwardReference(num: string -> real, faceLine: string, vertexLine: string)
    requires '\n' !in faceLine && '\n' !in vertexLine
    requires IsKind(faceLine, "f") && |Split(LineHead(faceLine).data, ' ')| == 3
    requires forall j | 0 <= j < 3 :: num(Split(Split(LineHead(faceLine).data, ' ')[j], '/')[0]) == 1.0
    requires IsKind(vertexLine, "v") && |VertexTokens(LineHead(vertexLine).data)| == 3
    ensures var p := Some(PointOf(num, LineHead(vertexLine).data));
      Parse(num, faceLine + "\n" + vertexLine) == Success([[p, p, p]])
  {
    TwoLines(faceLine, vertexLine);
    var lines := [faceLine, vertexLine];
    var face := FaceOf(num, LineHead(faceLine).data);
    var point := PointOf(num, LineHead(vertexLine).data);
    var one := ObjData([], [face]);
    FaceAlone(num, faceLine);
    assert lines[..1] == [faceLine];
    ReadStep(num, lines, 1, one);
    LineEffect(num, one, 1, vertexLine);
    assert !IsKind(vertexLine, "f");
    assert one.points + [point] == [point] && one.faces + [] == [face];
    assert lines[..2] == lines;
    assert ReadLines(num, lines) == Success(ObjData([point], [face]));
    assert face[0] == 0.0 && face[1] == 0.0 && face[2] == 0.0;
    ResolveFirst(point, face);
  }

  /** A well-formed `f` line on its own reads as that one face and no point. */
  lemma FaceAlone(num: string -> real, faceLine: string)
    requires IsKind(faceLine, "f") && |Split(LineHead(faceLine).data, ' ')| == 3
    ensures ReadLines(num, [faceLine]) == Success(ObjData([], [FaceOf(num, LineHead(faceLine).data)]))
  {
    var empty := ObjData([], []);
    var face := FaceOf(num, LineHead(faceLine).data);
    assert ReadLines(num, [faceLine][..0]) == Success(empty);
    ReadStep(num, [faceLine], 0, empty);
    LineEffect(num, empty, 0, faceLine);
    assert !IsKind(faceLine, "v");
    assert empty.points + [] == [] && empty.faces + [face] == [face];
    assert [faceLine][..1] == [faceLine];
  }

  /** A face whose three indices are all 0 resolves to the first point three times. */
  lemma ResolveFirst(point: Vector, face: Indices)
    requires face[0] == 0.0 && face[1] == 0.0 && face[2] == 0.0
    ensures Resolve([point], [face]) == [[Some(point), Some(point), Some(point)]]
  {
    assert Indexed([point], 0.0) == Some(point) by {
      assert 0.0.Floor == 0;
    }
    var r := Resolve([point], [face]);
    assert r[0] == [Some(point), Some(point), Some(point)];
  }
}
