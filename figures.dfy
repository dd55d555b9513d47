/**
 * The constant primitive tables (src/modules/figures.py): a unit square in
 * the z = 0 plane and a cube with corners at ±1, each as vertices, triangle
 * indices, normals and texture coordinates.
 */
module Figures {
  import opened Gl

  datatype Primitive = Primitive(vertices: seq<Vec3>, indices: seq<nat>, normals: seq<Vec3>, texcoords: seq<Vec2>)

  const Square: Primitive := Primitive(
    [Vec3(-1.0, -1.0, 0.0), Vec3(1.0, -1.0, 0.0), Vec3(1.0, 1.0, 0.0), Vec3(-1.0, 1.0, 0.0)],
    [0, 1, 2, 2, 3, 0],
    [Vec3(0.0, 0.0, 1.0), Vec3(0.0, 0.0, 1.0), Vec3(0.0, 0.0, 1.0), Vec3(0.0, 0.0, 1.0)],
    [Vec2(0.0, 0.0), Vec2(1.0, 0.0), Vec2(1.0, 1.0), Vec2(0.0, 1.0)])

  /** Faces in the order front, back, right, left, top, bottom; four normals and four texture coordinates per face. */
  const Cube: Primitive := Primitive(CubeVertices, CubeIndices, CubeNormals, CubeTexcoords)

  const CubeVertices: seq<Vec3> :=
    [Vec3(1.0, 1.0, 1.0), Vec3(-1.0, 1.0, 1.0), Vec3(-1.0, -1.0, 1.0), Vec3(1.0, -1.0, 1.0),
     Vec3(1.0, 1.0, -1.0), Vec3(-1.0, 1.0, -1.0), Vec3(-1.0, -1.0, -1.0), Vec3(1.0, -1.0, -1.0)]

  const CubeIndices: seq<nat> :=
    [0, 1, 2, 2, 3, 0,
     4, 7, 6, 6, 5, 4,
     0, 3, 7, 7, 4, 0,
     1, 5, 6, 6, 2, 1,
     1, 0, 4, 4, 5, 1,
     3, 2, 6, 6, 7, 3]

  const CubeNormals: seq<Vec3> :=
    [
     Vec3(0.0, 0.0, 1.0), Vec3(0.0, 0.0, 1.0), Vec3(0.0, 0.0, 1.0), Vec3(0.0, 0.0, 1.0),
     Vec3(0.0, 0.0, -1.0), Vec3(0.0, 0.0, -1.0), Vec3(0.0, 0.0, -1.0), Vec3(0.0, 0.0, -1.0),
     Vec3(1.0, 0.0, 0.0), Vec3(1.0, 0.0, 0.0), Vec3(1.0, 0.0, 0.0), Vec3(1.0, 0.0, 0.0),
     Vec3(-1.0, 0.0, 0.0), Vec3(-1.0, 0.0, 0.0), Vec3(-1.0, 0.0, 0.0), Vec3(-1.0, 0.0, 0.0),
     Vec3(0.0, 1.0, 0.0), Vec3(0.0, 1.0, 0.0), Vec3(0.0, 1.0, 0.0), Vec3(0.0, 1.0, 0.0),
     Vec3(0.0, -1.0, 0.0), Vec3(0.0, -1.0, 0.0), Vec3(0.0, -1.0, 0.0), Vec3(0.0, -1.0, 0.0)
    ]

  const CubeTexcoords: seq<Vec2> :=
    [
     Vec2(1.0, 1.0), Vec2(0.0, 1.0), Vec2(0.0, 0.0), Vec2(1.0, 0.0),
     Vec2(1.0, 1.0), Vec2(0.0, 1.0), Vec2(0.0, 0.0), Vec2(1.0, 0.0),
     Vec2(1.0, 1.0), Vec2(0.0, 1.0), Vec2(0.0, 0.0), Vec2(1.0, 0.0),
     Vec2(1.0, 1.0), Vec2(0.0, 1.0), Vec2(0.0, 0.0), Vec2(1.0, 0.0),
     Vec2(1.0, 1.0), Vec2(0.0, 1.0), Vec2(0.0, 0.0), Vec2(1.0, 0.0),
     Vec2(1.0, 1.0), Vec2(0.0, 1.0), Vec2(0.0, 0.0), Vec2(1.0, 0.0)
    ]

  /** Every index names one of the primitive's vertices. */
  predicate IndicesInRange(p: Primitive) {
    AllBelow(p.indices, |p.vertices|)
  }

  predicate AllBelow(s: seq<nat>, n: nat) {
    forall k :: 0 <= k < |s| ==> s[k] < n
  }

  /** The index list is a whole number of triangles, none of which repeats a vertex. */
  predicate WellFormedTriangles(p: Primitive) {
    Triangles(p.indices)
  }

  predicate Triangles(s: seq<nat>) {
    |s| % 3 == 0 &&
    forall t :: 0 <= t < |s| / 3 ==> Distinct3(s[3 * t], s[3 * t + 1], s[3 * t + 2])
  }

  predicate Distinct3(a: nat, b: nat, c: nat) {
    a != b && b != c && a != c
  }

  lemma AllBelowConcat(s: seq<nat>, t: seq<nat>, n: nat)
    requires AllBelow(s, n) && AllBelow(t, n)
    ensures AllBelow(s + t, n)
  {
  }

  lemma TrianglesConcat(s: seq<nat>, t: seq<nat>)
    requires Triangles(s) && Triangles(t)
    ensures Triangles(s + t)
  {
    var u := s + t;
    forall k | 0 <= k < |u| / 3 ensures Distinct3(u[3 * k], u[3 * k + 1], u[3 * k + 2]) {
      if k >= |s| / 3 {
        var j := k - |s| / 3;
        assert 3 * k == |s| + 3 * j;
        assert 0 <= j < |t| / 3;
        assert Distinct3(t[3 * j], t[3 * j + 1], t[3 * j + 2]);
      }
    }
  }

  /**
   * One rectangular face as the tables write it: corners a, b, c, d give the
   * two triangles a, b, c and c, d, a, sharing the diagonal a-c.
   */
  datatype Face = Face(a: nat, b: nat, c: nat, d: nat)

  function Corners(f: Face): seq<nat> {
    [f.a, f.b, f.c, f.c, f.d, f.a]
  }

  /** The index list of a sequence of faces, six entries per face. */
  function Tiles(fs: seq<Face>): (r: seq<nat>)
    ensures |r| == 6 * |fs|
    decreases |fs|
  {
    if fs == [] then [] else Corners(fs[0]) + Tiles(fs[1..])
  }

  /** Four different corners, all naming one of n vertices. */
  predicate GoodFace(f: Face, n: nat) {
    f.a < n && f.b < n && f.c < n && f.d < n &&
    f.a != f.b && f.a != f.c && f.a != f.d && f.b != f.c && f.b != f.d && f.c != f.d
  }

  /** Faces with four different in-range corners tile into in-range, non-degenerate triangles. */
  lemma {:induction false} TilesWellFormed(fs: seq<Face>, n: nat)
    requires forall k :: 0 <= k < |fs| ==> GoodFace(fs[k], n)
    ensures AllBelow(Tiles(fs), n) && Triangles(Tiles(fs))
    decreases |fs|
  {
    if fs != [] {
      var q := Corners(fs[0]);
      assert GoodFace(fs[0], n);
      assert Distinct3(q[0], q[1], q[2]) && Distinct3(q[3], q[4], q[5]);
      assert Triangles(q);
      TilesWellFormed(fs[1..], n);
      AllBelowConcat(q, Tiles(fs[1..]), n);
      TrianglesConcat(q, Tiles(fs[1..]));
    }
  }

  /** Square: 4 vertices, normals and texture coordinates; 2 triangles; every index in range; no degenerate triangle. */
  lemma SquareTable()
    ensures |Square.vertices| == 4 && |Square.normals| == 4 && |Square.texcoords| == 4
    ensures |Square.indices| == 6
    ensures IndicesInRange(Square)
    ensures WellFormedTriangles(Square)
  {
  }

  /** The cube's faces in table order: front, back, right, left, top, bottom. */
  const CubeFaceList: seq<Face> :=
    [Face(0, 1, 2, 3), Face(4, 7, 6, 5), Face(0, 3, 7, 4), Face(1, 5, 6, 2), Face(1, 0, 4, 5), Face(3, 2, 6, 7)]

  /** The cube's index table is six faces of two triangles each. */
  lemma CubeIndicesAreFaces()
    ensures CubeIndices == Tiles(CubeFaceList)
  {
    // unfolding Tiles six times down to the empty list keeps this cheap
    var fs := CubeFaceList;
    assert fs[1..][1..][1..][1..][1..][1..] == [];
  }

  /** Cube: 8 vertices, 12 triangles, every index in range, no degenerate triangle. */
  lemma CubeTable()
    ensures |Cube.vertices| == 8 && |Cube.indices| == 36
    ensures IndicesInRange(Cube)
    ensures WellFormedTriangles(Cube)
  {
    CubeIndicesAreFaces();
    TilesWellFormed(CubeFaceList, 8);
  }

  /**
   * The cube's normal and texture-coordinate tables hold four entries per
   * face, 24 in all, against 8 vertices: they are not one entry per vertex.
   */
  lemma CubeAttributeCounts()
    ensures |Cube.normals| == 24 && |Cube.texcoords| == 24
    ensures |Cube.normals| != |Cube.vertices| && |Cube.texcoords| != |Cube.vertices|
  {
  }

  predicate Unit(r: real) {
    r == 1.0 || r == -1.0
  }

  /** Every vertex coordinate of the cube is ±1. */
  lemma CubeCorners()
    ensures forall v :: 0 <= v < |Cube.vertices| ==>
      Unit(Cube.vertices[v].x) && Unit(Cube.vertices[v].y) && Unit(Cube.vertices[v].z)
  {
  }

  /** An axis-aligned plane: the points whose coordinate on `axis` is `level`. */
  datatype Plane = Plane(axis: Axis, level: real)

  function Coord(v: Vec3, axis: Axis): real {
    match axis
    case XAxis => v.x
    case YAxis => v.y
    case ZAxis => v.z
  }

  /** The unit normal of a plane at level ±1, pointing away from the origin. */
  function Outward(p: Plane): Vec3 {
    match p.axis
    case XAxis => Vec3(p.level, 0.0, 0.0)
    case YAxis => Vec3(0.0, p.level, 0.0)
    case ZAxis => Vec3(0.0, 0.0, p.level)
  }

  /** Every corner of the face is a cube vertex lying in the plane. */
  predicate OnPlane(f: Face, p: Plane) {
    f.a < |CubeVertices| && f.b < |CubeVertices| && f.c < |CubeVertices| && f.d < |CubeVertices| &&
    Coord(CubeVertices[f.a], p.axis) == p.level && Coord(CubeVertices[f.b], p.axis) == p.level &&
    Coord(CubeVertices[f.c], p.axis) == p.level && Coord(CubeVertices[f.d], p.axis) == p.level
  }

  /** The plane of each face, in table order: z = 1, z = -1, x = 1, x = -1, y = 1, y = -1. */
  const CubeFacePlanes: seq<Plane> :=
    [Plane(ZAxis, 1.0), Plane(ZAxis, -1.0), Plane(XAxis, 1.0),
     Plane(XAxis, -1.0), Plane(YAxis, 1.0), Plane(YAxis, -1.0)]

  /** Each face's outward normal written out four times. */
  function Quadruple(ps: seq<Plane>): (r: seq<Vec3>)
    ensures |r| == 4 * |ps|
    ensures forall k :: 0 <= k < |r| ==> r[k] == Outward(ps[k / 4])
    decreases |ps|
  {
    if ps == [] then [] else [Outward(ps[0]), Outward(ps[0]), Outward(ps[0]), Outward(ps[0])] + Quadruple(ps[1..])
  }

  /** The cube's normal table holds, for each face, its outward normal four times. */
  lemma CubeNormalsPerFace()
    ensures Cube.normals == Quadruple(CubeFacePlanes)
  {
    // unfolding Quadruple six times down to the empty list keeps this cheap
    var ps := CubeFacePlanes;
    assert ps[1..][1..][1..][1..][1..][1..] == [];
  }

  /** Each of the six faces lies in its own plane, the one its normals point out of. */
  lemma CubeFacesOnPlanes()
    ensures |CubeFaceList| == |CubeFacePlanes| == 6
    ensures forall f :: 0 <= f < 6 ==> OnPlane(CubeFaceList[f], CubeFacePlanes[f])
  {
  }
}
