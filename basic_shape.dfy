/**
 * The first library's `Shape`: a wireframe of points and edges (pairs of point indices) with an
 * origin, a viewing distance, three rotation angles and a size, and the two meshes it builds, a
 * unit cube and a triangular pyramid ("prism"). The builders are proved to produce the meshes
 * their names promise: every corner of the cube joined to exactly its three neighbours, and
 * every pair of the pyramid's four points joined once.
 */
module BasicShape {
  import Vec3

  type Point = Vec3.Vector3

  /** An edge: the indices of the two points it joins. */
  type Edge = (nat, nat)

  class Shape {
    var points: seq<Point>
    var edges: seq<Edge>
    var originX: real
    var originY: real
    var distance: real
    var rotationX: real
    var rotationY: real
    var rotationZ: real
    var size: real

    /** Everything but the points, the edges and the size as a new shape has it. */
    predicate Placed()
      reads this
    {
      && originX == 0.0 && originY == 0.0 && distance == 1.25
      && rotationX == 0.0 && rotationY == 0.0 && rotationZ == 0.0
    }

    /** A new shape: no points, no edges, at the origin, not rotated, viewed from 1.25, size 1. */
    constructor()
      ensures points == [] && edges == [] && Placed() && size == 1.0
    {
      points := [];
      edges := [];
      originX := 0.0;
      originY := 0.0;
      distance := 1.25;
      rotationX := 0.0;
      rotationY := 0.0;
      rotationZ := 0.0;
      size := 1.0;
    }
  }

  /**
   * `points[i] = p` on an array with no holes before `i`: the entry replaced, or the array grown
   * by one when `i` is its length.
   */
  function Assign(points: seq<Point>, i: nat, p: Point): (r: seq<Point>)
    requires i <= |points|
    ensures |r| == if i == |points| then i + 1 else |points|
    ensures r[i] == p && forall k | 0 <= k < |points| && k != i :: r[k] == points[k]
  {
    if i == |points| then points + [p] else points[i := p]
  }

  // ---------------------------------------------------------------------------
  // What makes a mesh a cube or a pyramid

  /** No point appears twice. */
  predicate Distinct(points: seq<Point>)
  {
    forall i, j | 0 <= i < j < |points| :: points[i] != points[j]
  }

  /** Every edge joins two existing points. */
  predicate EdgesWithin(edges: seq<Edge>, n: nat)
  {
    forall k | 0 <= k < |edges| :: edges[k].0 < n && edges[k].1 < n
  }

  /** An edge with its smaller index first, so that both directions compare equal. */
  function Unordered(e: Edge): Edge
  {
    if e.0 <= e.1 then e else (e.1, e.0)
  }

  /** No two edges join the same pair of points, in either direction. */
  predicate NoRepeats(edges: seq<Edge>)
  {
    forall k, l | 0 <= k < l < |edges| :: Unordered(edges[k]) != Unordered(edges[l])
  }

  /** Some edge joins points `i` and `j`, in one direction or the other. */
  predicate Linked(edges: seq<Edge>, i: nat, j: nat)
  {
    (i, j) in edges || (j, i) in edges
  }

  /** The number of coordinates in which two points differ. */
  function Differing(p: Point, q: Point): nat
  {
    (if p[0] != q[0] then 1 else 0) + (if p[1] != q[1] then 1 else 0) + (if p[2] != q[2] then 1 else 0)
  }

  /** A corner of the cube of side 1 centred on the origin: every coordinate is one half, either way. */
  predicate Corner(p: Point)
  {
    forall i | 0 <= i < 3 :: p[i] == 0.5 || p[i] == -0.5
  }

  /**
   * The wireframe of the cube of side 1 centred on the origin: its eight corners, each once, and
   * its twelve edges, each once, where two corners are joined exactly when they differ in one
   * coordinate.
   */
  predicate IsCube(points: seq<Point>, edges: seq<Edge>)
  {
    && |points| == 8 && (forall i | 0 <= i < 8 :: Corner(points[i])) && Distinct(points)
    && |edges| == 12 && EdgesWithin(edges, 8) && NoRepeats(edges)
    && (forall k | 0 <= k < 12 :: Differing(points[edges[k].0], points[edges[k].1]) == 1)
    && forall i, j | 0 <= i < j < 8 :: Differing(points[i], points[j]) == 1 ==> Linked(edges, i, j)
  }

  /** The wireframe of a pyramid on four distinct points: each pair of points joined by exactly one edge. */
  predicate IsPyramid(points: seq<Point>, edges: seq<Edge>)
  {
    && |points| == 4 && Distinct(points)
    && |edges| == 6 && EdgesWithin(edges, 4) && NoRepeats(edges)
    && (forall k | 0 <= k < 6 :: edges[k].0 != edges[k].1)
    && forall i, j | 0 <= i < j < 4 :: Linked(edges, i, j)
  }

  // ---------------------------------------------------------------------------
  // The two meshes

  /** The cube's corner table. */
  function CubeCorners(): seq<Point>
  {
    [[0.5, 0.5, 0.5], [-0.5, 0.5, 0.5], [0.5, -0.5, 0.5], [-0.5, -0.5, 0.5],
     [0.5, 0.5, -0.5], [-0.5, 0.5, -0.5], [0.5, -0.5, -0.5], [-0.5, -0.5, -0.5]]
  }

  /** The cube's edge table. */
  function CubeEdges(): seq<Edge>
  {
    [(0, 1), (0, 2), (0, 4), (1, 3), (1, 5), (2, 3), (2, 6), (3, 7), (4, 5), (4, 6), (5, 7), (6, 7)]
  }

  /** The cube's tables form a cube. */
  lemma CubeTables()
    ensures IsCube(CubeCorners(), CubeEdges())
  {
    CubeCornersDistinct();
    CubeEdgesAdjacent();
    CubeAdjacentLinked();
    CubeEdgesOnce();
  }

  /** The cube's eight corners are all different. */
  lemma CubeCornersDistinct()
    ensures Distinct(CubeCorners())
  {
    var p := CubeCorners();
    forall i, j | 0 <= i < j < 8
      ensures p[i] != p[j]
    {
      assert p[i][0] != p[j][0] || p[i][1] != p[j][1] || p[i][2] != p[j][2] by {
        assert i == 0 || i == 1 || i == 2 || i == 3 || i == 4 || i == 5 || i == 6;
        assert j == 1 || j == 2 || j == 3 || j == 4 || j == 5 || j == 6 || j == 7;
      }
    }
  }

  /** Every edge of the cube joins two corners that differ in one coordinate. */
  lemma CubeEdgesAdjacent()
    ensures forall k | 0 <= k < 12 :: Differing(CubeCorners()[CubeEdges()[k].0], CubeCorners()[CubeEdges()[k].1]) == 1
  {
    var p, e := CubeCorners(), CubeEdges();
    forall k | 0 <= k < 12
      ensures Differing(p[e[k].0], p[e[k].1]) == 1
    {
      assert k == 0 || k == 1 || k == 2 || k == 3 || k == 4 || k == 5 || k == 6 || k == 7 || k == 8 || k == 9 || k == 10 || k == 11;
    }
  }

  /** Every two corners of the cube that differ in one coordinate share an edge. */
  lemma CubeAdjacentLinked()
    ensures forall i, j | 0 <= i < j < 8 :: Differing(CubeCorners()[i], CubeCorners()[j]) == 1 ==> Linked(CubeEdges(), i, j)
  {
    var p, e := CubeCorners(), CubeEdges();
    forall i, j | 0 <= i < j < 8 && Differing(p[i], p[j]) == 1
      ensures Linked(e, i, j)
    {
      assert i == 0 || i == 1 || i == 2 || i == 3 || i == 4 || i == 5 || i == 6;
      assert j == 1 || j == 2 || j == 3 || j == 4 || j == 5 || j == 6 || j == 7;
    }
  }

  /** The cube's edges are listed with the smaller index first and in increasing order, so none repeats. */
  lemma CubeEdgesOnce()
    ensures NoRepeats(CubeEdges())
  {
    var e := CubeEdges();
    forall k, l | 0 <= k < l < |e|
      ensures Unordered(e[k]) != Unordered(e[l])
    {
      assert e[k].0 < e[k].1 && e[l].0 < e[l].1;
      assert e[k].0 * 8 + e[k].1 < e[l].0 * 8 + e[l].1;
    }
  }

  /** The width of the pyramid's base. */
  const Width: real := 1.0
  /** The height of the pyramid's base triangle, about `sqrt(3) / 2`. */
  const Height: real := 0.866

  /** The pyramid's point table: three base points and the apex. */
  function PyramidPoints(): seq<Point>
  {
    [[-Width / 2.0, -Height / 3.0, Height / 3.0],
     [Width / 2.0, -Height / 3.0, Height / 3.0],
     [0.0, -Height / 3.0, -((Height * 2.0) / 3.0)],
     [0.0, (Height * 2.0) / 3.0, 0.0]]
  }

  /** The pyramid's edge table: the base triangle, then each base point to the apex. */
  function PyramidEdges(): seq<Edge>
  {
    [(0, 1), (1, 2), (2, 0), (0, 3), (1, 3), (2, 3)]
  }

  /** The pyramid's tables form a pyramid. */
  lemma PyramidTables()
    ensures IsPyramid(PyramidPoints(), PyramidEdges())
  {
    var p, e := PyramidPoints(), PyramidEdges();
    forall i, j | 0 <= i < j < 4
      ensures p[i] != p[j] && Linked(e, i, j)
    {
      assert i == 0 || i == 1 || i == 2;
      assert j == 1 || j == 2 || j == 3;
    }
    forall k, l | 0 <= k < l < |e|
      ensures Unordered(e[k]) != Unordered(e[l])
    {
      assert k == 0 || k == 1 || k == 2 || k == 3 || k == 4;
      assert l == 1 || l == 2 || l == 3 || l == 4 || l == 5;
    }
  }

  /**
   * `createCube(size)`: a new shape holding the cube's corners and edges, at the given size, placed
   * as a new shape is.
   */
  method CreateCube(size: real) returns (cube: Shape)
    ensures fresh(cube)
    ensures cube.points == CubeCorners() && cube.edges == CubeEdges()
    ensures IsCube(cube.points, cube.edges)
    ensures cube.size == size && cube.Placed()
  {
    cube := new Shape();
    var points, edges := cube.points, cube.edges;
    points := Assign(points, 0, [0.5, 0.5, 0.5]);
    points := Assign(points, 1, [-0.5, 0.5, 0.5]);
    points := Assign(points, 2, [0.5, -0.5, 0.5]);
    points := Assign(points, 3, [-0.5, -0.5, 0.5]);
    points := Assign(points, 4, [0.5, 0.5, -0.5]);
    points := Assign(points, 5, [-0.5, 0.5, -0.5]);
    points := Assign(points, 6, [0.5, -0.5, -0.5]);
    points := Assign(points, 7, [-0.5, -0.5, -0.5]);

    edges := edges + [(0, 1)];
    edges := edges + [(0, 2)];
    edges := edges + [(0, 4)];
    edges := edges + [(1, 3)];
    edges := edges + [(1, 5)];
    edges := edges + [(2, 3)];
    edges := edges + [(2, 6)];
    edges := edges + [(3, 7)];
    edges := edges + [(4, 5)];
    edges := edges + [(4, 6)];
    edges := edges + [(5, 7)];
    edges := edges + [(6, 7)];
    cube.points, cube.edges := points, edges;

    cube.size := size;

    assert IsCube(cube.points, cube.edges) by {
      assert cube.points == CubeCorners();
      assert cube.edges == CubeEdges();
      CubeTables();
    }
  }

  /**
   * `createPrism(size)`: a new shape holding the pyramid's points and edges, at the given size,
   * placed as a new shape is. The base lies level at a third of the base height below the
   * origin, and the apex straight above the origin.
   */
  method CreatePrism(size: real) returns (prism: Shape)
    ensures fresh(prism)
    ensures prism.points == PyramidPoints() && prism.edges == PyramidEdges()
    ensures IsPyramid(prism.points, prism.edges)
    ensures forall i | 0 <= i < 3 :: prism.points[i][1] == -Height / 3.0 < prism.points[3][1]
    ensures prism.points[3][0] == 0.0 && prism.points[3][2] == 0.0
    ensures prism.size == size && prism.Placed()
  {
    prism := new Shape();
    var points, edges := prism.points, prism.edges;

    var w := Width;
    var h := Height;

    points := Assign(points, 0, [-w / 2.0, -h / 3.0, h / 3.0]);
    points := Assign(points, 1, [w / 2.0, -h / 3.0, h / 3.0]);
    points := Assign(points, 2, [0.0, -h / 3.0, -((h * 2.0) / 3.0)]);
    points := Assign(points, 3, [0.0, (h * 2.0) / 3.0, 0.0]);

    edges := edges + [(0, 1)];
    edges := edges + [(1, 2)];
    edges := edges + [(2, 0)];

    edges := edges + [(0, 3)];
    edges := edges + [(1, 3)];
    edges := edges + [(2, 3)];
    prism.points, prism.edges := points, edges;

    prism.size := size;

    assert IsPyramid(prism.points, prism.edges) by {
      assert prism.points == PyramidPoints();
      assert prism.edges == PyramidEdges();
      PyramidTables();
    }
  }
}
