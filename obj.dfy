/**
 * What the OBJ reader hands to the renderer, and the post-processing both
 * model classes apply to it: the flat float lists are grouped into vec3s or
 * vec2s, and the shapes' face indices are concatenated into one index list.
 * Parsing the file is left to the reader; only its result is modelled.
 */
module ObjData {
  import opened Wrappers
  import opened Gl

  /** One corner of a face; only its position index is used by the renderer. */
  datatype Index = Index(vertexIndex: nat)

  datatype Shape = Shape(name: string, indices: seq<Index>)

  /** attrib.vertices, attrib.normals, attrib.texcoords: flat float lists. */
  datatype Attrib = Attrib(vertices: seq<real>, normals: seq<real>, texcoords: seq<real>)

  /** The reader's result for one file. */
  datatype ObjFile = ObjFile(attrib: Attrib, shapes: seq<Shape>)

  /** The position indices of one shape's corners, in order. */
  function ShapeIndices(s: Shape): (r: seq<nat>)
    ensures |r| == |s.indices|
    ensures forall k :: 0 <= k < |r| ==> r[k] == s.indices[k].vertexIndex
    decreases |s.indices|
  {
    if s.indices == [] then []
    else [s.indices[0].vertexIndex] + ShapeIndices(Shape(s.name, s.indices[1..]))
  }

  /** `[index.vertex_index for shape in shapes for index in shape.mesh.indices]`. */
  function VertexIndices(shapes: seq<Shape>): seq<nat>
    decreases |shapes|
  {
    if shapes == [] then [] else ShapeIndices(shapes[0]) + VertexIndices(shapes[1..])
  }

  /** Total number of corners over all shapes. */
  function CornerCount(shapes: seq<Shape>): nat
    decreases |shapes|
  {
    if shapes == [] then 0 else |shapes[0].indices| + CornerCount(shapes[1..])
  }

  /** Loading more shapes appends their indices after the earlier ones. */
  lemma {:induction false} VertexIndicesAppend(a: seq<Shape>, b: seq<Shape>)
    ensures VertexIndices(a + b) == VertexIndices(a) + VertexIndices(b)
    decreases |a|
  {
    if a == [] {
      assert a + b == b;
    } else {
      assert (a + b)[1..] == a[1..] + b;
      VertexIndicesAppend(a[1..], b);
    }
  }

  /** The index list holds one entry per corner of every shape. */
  lemma {:induction false} VertexIndicesLength(shapes: seq<Shape>)
    ensures |VertexIndices(shapes)| == CornerCount(shapes)
    decreases |shapes|
  {
    if shapes != [] {
      VertexIndicesLength(shapes[1..]);
    }
  }

  /**
   * Shape order is kept: shape k's indices sit right after those of the
   * shapes before it.
   */
  lemma {:induction false} VertexIndicesAt(shapes: seq<Shape>, k: nat)
    requires k < |shapes|
    ensures VertexIndices(shapes) == VertexIndices(shapes[..k]) + ShapeIndices(shapes[k]) + VertexIndices(shapes[k + 1..])
  {
    var a, b, c := shapes[..k], [shapes[k]], shapes[k + 1..];
    assert shapes == a + b + c;
    VertexIndicesAppend(a + b, c);
    VertexIndicesAppend(a, b);
    assert b[1..] == [];
    assert VertexIndices(b) == ShapeIndices(shapes[k]);
  }

  /**
   * A flat list grouped into consecutive triples, as `reshape(-1, 3)` or the
   * `range(0, len, 3)` loop does; None when the length is not a multiple of
   * 3 (reshape raises ValueError, the loop IndexError).
   */
  function Triples(flat: seq<real>): (r: Option<seq<Vec3>>)
    ensures r.Some? <==> |flat| % 3 == 0
    ensures r.Some? ==> |r.value| * 3 == |flat|
    ensures r.Some? ==> forall k :: 0 <= k < |r.value| ==>
      r.value[k] == Vec3(flat[3 * k], flat[3 * k + 1], flat[3 * k + 2])
    decreases |flat|
  {
    if flat == [] then Some([])
    else if |flat| < 3 then None
    else match Triples(flat[3..])
      case None => None
      case Some(rest) => Some([Vec3(flat[0], flat[1], flat[2])] + rest)
  }

  /** A flat list grouped into consecutive pairs (`reshape(-1, 2)`). */
  function Pairs(flat: seq<real>): (r: Option<seq<Vec2>>)
    ensures r.Some? <==> |flat| % 2 == 0
    ensures r.Some? ==> |r.value| * 2 == |flat|
    ensures r.Some? ==> forall k :: 0 <= k < |r.value| ==>
      r.value[k] == Vec2(flat[2 * k], flat[2 * k + 1])
    decreases |flat|
  {
    if flat == [] then Some([])
    else if |flat| < 2 then None
    else match Pairs(flat[2..])
      case None => None
      case Some(rest) => Some([Vec2(flat[0], flat[1])] + rest)
  }

  /** The inverse of grouping: the components of each vec3 in turn. */
  function FlattenTriples(vs: seq<Vec3>): (flat: seq<real>)
    decreases |vs|
  {
    if vs == [] then [] else [vs[0].x, vs[0].y, vs[0].z] + FlattenTriples(vs[1..])
  }

  function FlattenPairs(vs: seq<Vec2>): (flat: seq<real>)
    decreases |vs|
  {
    if vs == [] then [] else [vs[0].x, vs[0].y] + FlattenPairs(vs[1..])
  }

  /** Grouping loses nothing: flattening the triples gives back the list, and grouping a flattening gives back the vectors. */
  lemma {:induction false} TriplesRoundTrip(vs: seq<Vec3>)
    ensures Triples(FlattenTriples(vs)) == Some(vs)
    decreases |vs|
  {
    if vs != [] {
      var rest := FlattenTriples(vs[1..]);
      var flat := [vs[0].x, vs[0].y, vs[0].z] + rest;
      assert FlattenTriples(vs) == flat;
      TriplesRoundTrip(vs[1..]);
      assert flat[3..] == rest;
      assert Triples(flat) == Some([Vec3(flat[0], flat[1], flat[2])] + vs[1..]);
      assert vs == [vs[0]] + vs[1..];
    }
  }

  lemma {:induction false} TriplesFlatten(flat: seq<real>)
    requires |flat| % 3 == 0
    ensures FlattenTriples(Triples(flat).value) == flat
    decreases |flat|
  {
    if flat != [] {
      var vs := Triples(flat).value;
      TriplesFlatten(flat[3..]);
      assert vs[1..] == Triples(flat[3..]).value;
      assert flat == [flat[0], flat[1], flat[2]] + flat[3..];
    }
  }

  lemma {:induction false} PairsRoundTrip(vs: seq<Vec2>)
    ensures Pairs(FlattenPairs(vs)) == Some(vs)
    decreases |vs|
  {
    if vs != [] {
      var rest := FlattenPairs(vs[1..]);
      var flat := [vs[0].x, vs[0].y] + rest;
      assert FlattenPairs(vs) == flat;
      PairsRoundTrip(vs[1..]);
      assert flat[2..] == rest;
      assert Pairs(flat) == Some([Vec2(flat[0], flat[1])] + vs[1..]);
      assert vs == [vs[0]] + vs[1..];
    }
  }

  lemma {:induction false} PairsFlatten(flat: seq<real>)
    requires |flat| % 2 == 0
    ensures FlattenPairs(Pairs(flat).value) == flat
    decreases |flat|
  {
    if flat != [] {
      var vs := Pairs(flat).value;
      PairsFlatten(flat[2..]);
      assert vs[1..] == Pairs(flat[2..]).value;
      assert flat == [flat[0], flat[1]] + flat[2..];
    }
  }
}
