/** The built-in geometry tables (pipeline/Builtins.cpp): the textured
    cube drawn for a missing mesh and the screen-aligned quad. */
module Builtins {

  /** Floats per vertex: position x, y, z then texcoord s, t. */
  const FloatsPerVertex: nat := 5

  /** Bytes per float and per vertex. */
  const FloatSize: nat := 4
  const VertexStride: nat := FloatsPerVertex * FloatSize

  /** `builtin_missing_data`, face by face: four vertices per face. */
  const CubeFront: seq<real> := [
    -1.0, -1.0, -1.0, 0.0, 0.0,
    1.0, -1.0, -1.0, 0.0, 1.0,
    1.0, -1.0, 1.0, 1.0, 1.0,
    -1.0, -1.0, 1.0, 1.0, 0.0
  ]
  const CubeBack: seq<real> := [
    1.0, 1.0, -1.0, 0.0, 0.0,
    -1.0, 1.0, -1.0, 0.0, 1.0,
    -1.0, 1.0, 1.0, 1.0, 1.0,
    1.0, 1.0, 1.0, 1.0, 0.0
  ]
  const CubeTop: seq<real> := [
    -1.0, -1.0, 1.0, 0.0, 0.0,
    1.0, -1.0, 1.0, 0.0, 1.0,
    1.0, 1.0, 1.0, 1.0, 1.0,
    -1.0, 1.0, 1.0, 1.0, 0.0
  ]
  const CubeBottom: seq<real> := [
    1.0, -1.0, -1.0, 0.0, 0.0,
    -1.0, -1.0, -1.0, 0.0, 1.0,
    -1.0, 1.0, -1.0, 1.0, 1.0,
    1.0, 1.0, -1.0, 1.0, 0.0
  ]
  const CubeLeft: seq<real> := [
    -1.0, 1.0, -1.0, 0.0, 0.0,
    -1.0, -1.0, -1.0, 0.0, 1.0,
    -1.0, -1.0, 1.0, 1.0, 1.0,
    -1.0, 1.0, 1.0, 1.0, 0.0
  ]
  const CubeRight: seq<real> := [
    1.0, -1.0, -1.0, 0.0, 0.0,
    1.0, 1.0, -1.0, 0.0, 1.0,
    1.0, 1.0, 1.0, 1.0, 1.0,
    1.0, -1.0, 1.0, 1.0, 0.0
  ]

  /** `builtin_missing_data`: the six faces in table order. */
  const MissingData: seq<real> := CubeFront + CubeBack + CubeTop + CubeBottom + CubeLeft + CubeRight

  /** `builtin_missing_indices`: two triangles per face. */
  const MissingIndices: seq<int> := [
    0, 1, 2,
    0, 2, 3,
    4, 5, 6,
    4, 6, 7,
    8, 9, 10,
    8, 10, 11,
    12, 13, 14,
    12, 14, 15,
    16, 17, 18,
    16, 18, 19,
    20, 21, 22,
    20, 22, 23
  ]

  /** `builtin_missing_idx_count`. */
  const MissingIdxCount: int := 36

  /** `builtin_quad_data`: two triangles covering the screen. */
  const QuadData: seq<real> := [
    -1.0, -1.0, 0.0, 0.0, 1.0,
    -1.0, 1.0, 0.0, 0.0, 0.0,
    1.0, 1.0, 0.0, 1.0, 0.0,

    -1.0, -1.0, 0.0, 0.0, 1.0,
    1.0, 1.0, 0.0, 1.0, 0.0,
    1.0, -1.0, 0.0, 1.0, 1.0
  ]

  /** Component `c` (0..4) of vertex `v` of a vertex table. */
  function Component(data: seq<real>, v: nat, c: nat): real
    requires c < FloatsPerVertex && v * FloatsPerVertex + c < |data|
  {
    data[v * FloatsPerVertex + c]
  }

  /** The number of whole vertices a table holds, and the table has no
      partial vertex at its end. */
  function VertexCount(data: seq<real>): (n: nat)
    requires |data| % FloatsPerVertex == 0
    ensures n * FloatsPerVertex == |data|
  {
    |data| / FloatsPerVertex
  }

  /** The cube table: 24 vertices, 480 bytes at stride 20, which is what
      `loadBuiltinData` uploads for `__missing__`. */
  lemma MissingDataSize()
    ensures |MissingData| % FloatsPerVertex == 0
    ensures VertexCount(MissingData) == 24
    ensures |MissingData| * FloatSize == 480 && VertexStride == 20
  {
  }

  /** The quad table: 6 vertices, 120 bytes at stride 20, which is what
      `loadBuiltinData` uploads for `__quad__`. */
  lemma QuadDataSize()
    ensures |QuadData| % FloatsPerVertex == 0
    ensures VertexCount(QuadData) == 6
    ensures |QuadData| * FloatSize == 120
  {
  }

  /** The corner pattern of one face: the triangles (0, 1, 2), (0, 2, 3). */
  const FaceCorners: seq<int> := [0, 1, 2, 0, 2, 3]

  /** The index table has `builtin_missing_idx_count` entries, and face f
      is drawn as the triangles (4f, 4f+1, 4f+2) and (4f, 4f+2, 4f+3). */
  lemma MissingIndexLayout()
    ensures |MissingIndices| == MissingIdxCount == 36
    ensures forall i :: 0 <= i < |MissingIndices| ==>
      MissingIndices[i] == 4 * (i / 6) + FaceCorners[i % 6]
  {
    forall i | 0 <= i < 36
      ensures MissingIndices[i] == 4 * (i / 6) + FaceCorners[i % 6]
    {
      var f, c := i / 6, i % 6;
      assert i == 6 * f + c;
      FaceIndices(f, c);
    }
  }

  /** Index c of face f's six is `4f` plus the corner pattern's entry c. */
  lemma FaceIndices(f: nat, c: nat)
    requires f < 6 && c < 6
    ensures |MissingIndices| == 36 && MissingIndices[6 * f + c] == 4 * f + FaceCorners[c]
  {
    if f == 0 {} else if f == 1 {} else if f == 2 {} else if f == 3 {} else if f == 4 {} else {}
  }

  /** Every index names one of the 24 cube vertices, and fits the
      `unsigned short` index type `loadBuiltinData` declares. */
  lemma MissingIndicesInRange()
    ensures forall i :: 0 <= i < |MissingIndices| ==>
      0 <= MissingIndices[i] < VertexCount(MissingData) && MissingIndices[i] < 0x1_0000
  {
    MissingDataSize();
    MissingIndexLayout();
  }

  /** The plane of each face in the table's order: front y = -1, back
      y = 1, top z = 1, bottom z = -1, left x = -1, right x = 1, as
      (axis, side). */
  const FacePlanes: seq<(nat, real)> := [(1, -1.0), (1, 1.0), (2, 1.0), (2, -1.0), (0, -1.0), (0, 1.0)]

  /** The six planes are six distinct faces of the cube [-1, 1]^3. */
  lemma FacePlanesDistinct()
    ensures |FacePlanes| == 6
    ensures forall f :: 0 <= f < 6 ==> FacePlanes[f].0 < 3 && (FacePlanes[f].1 == 1.0 || FacePlanes[f].1 == -1.0)
    ensures forall f, g :: 0 <= f < g < 6 ==> FacePlanes[f] != FacePlanes[g]
  {
  }

  /** The faces of the cube table, in table order. */
  const CubeFaceTables: seq<seq<real>> := [CubeFront, CubeBack, CubeTop, CubeBottom, CubeLeft, CubeRight]

  predicate PlusMinusOne(x: real) { x == 1.0 || x == -1.0 }

  predicate ZeroOrOne(x: real) { x == 0.0 || x == 1.0 }

  /** Vertex `k` of table `t` has ±1 position coordinates, texcoords 0 or
      1, and lies on `plane` (an axis and a side). */
  predicate VertexShape(t: seq<real>, k: nat, plane: (nat, real))
    requires plane.0 < 3 && k * FloatsPerVertex + FloatsPerVertex <= |t|
  {
    PlusMinusOne(Component(t, k, 0)) &&
    PlusMinusOne(Component(t, k, 1)) &&
    PlusMinusOne(Component(t, k, 2)) &&
    ZeroOrOne(Component(t, k, 3)) &&
    ZeroOrOne(Component(t, k, 4)) &&
    Component(t, k, plane.0) == plane.1
  }

  /** The four vertices of face f satisfy `VertexShape` for its plane. */
  lemma FaceTableShape(f: nat, k: nat)
    requires f < 6 && k < 4
    ensures |CubeFaceTables[f]| == 20 && FacePlanes[f].0 < 3
    ensures VertexShape(CubeFaceTables[f], k, FacePlanes[f])
  {
    if f == 0 {
      if k == 0 {} else if k == 1 {} else if k == 2 {} else {}
    } else if f == 1 {
      if k == 0 {} else if k == 1 {} else if k == 2 {} else {}
    } else if f == 2 {
      if k == 0 {} else if k == 1 {} else if k == 2 {} else {}
    } else if f == 3 {
      if k == 0 {} else if k == 1 {} else if k == 2 {} else {}
    } else if f == 4 {
      if k == 0 {} else if k == 1 {} else if k == 2 {} else {}
    } else {
      if k == 0 {} else if k == 1 {} else if k == 2 {} else {}
    }
  }

  /** Face f occupies floats 20f .. 20f + 20 of the cube table. */
  lemma FaceSlice(f: nat)
    requires f < 6
    ensures |MissingData| == 120
    ensures MissingData[20 * f .. 20 * f + 20] == CubeFaceTables[f]
  {
    if f == 0 {} else if f == 1 {} else if f == 2 {} else if f == 3 {} else if f == 4 {} else {}
  }

  /** Each group of four cube vertices shares one constant ±1 position
      coordinate, so it lies on one face of the cube; every position
      coordinate is ±1 and every texcoord 0 or 1. */
  lemma CubeFaces()
    ensures |MissingData| == 120
    ensures forall v :: 0 <= v < 24 ==> FacePlanes[v / 4].0 < 3 && VertexShape(MissingData, v, FacePlanes[v / 4])
  {
    FaceSlice(0);
    forall v | 0 <= v < 24
      ensures FacePlanes[v / 4].0 < 3 && VertexShape(MissingData, v, FacePlanes[v / 4])
    {
      var f, k := v / 4, v % 4;
      assert v == 4 * f + k;
      CubeVertex(f, k);
    }
  }

  /** A vertex keeps its shape when its face is placed at floats 20f ..
      20f + 20 of a larger table, where it becomes vertex 4f + k. */
  lemma ShapeInSlice(t: seq<real>, f: nat, k: nat, plane: (nat, real))
    requires k < 4 && 20 * f + 20 <= |t| && plane.0 < 3
    requires VertexShape(t[20 * f .. 20 * f + 20], k, plane)
    ensures VertexShape(t, 4 * f + k, plane)
  {
    var face := t[20 * f .. 20 * f + 20];
    assert (4 * f + k) * FloatsPerVertex == 20 * f + k * FloatsPerVertex;
    assert forall c :: 0 <= c < FloatsPerVertex ==> Component(t, 4 * f + k, c) == Component(face, k, c);
  }

  /** Vertex 4f + k of the cube table is vertex k of face f. */
  lemma CubeVertex(f: nat, k: nat)
    requires f < 6 && k < 4
    ensures |MissingData| == 120 && FacePlanes[f].0 < 3
    ensures VertexShape(MissingData, 4 * f + k, FacePlanes[f])
  {
    FaceSlice(f);
    FaceTableShape(f, k);
    ShapeInSlice(MissingData, f, k, FacePlanes[f]);
  }

  /** The quad lies in the z = 0 plane, its corners are (±1, ±1) and its
      texcoords are 0 or 1. */
  lemma QuadShape()
    ensures forall v :: 0 <= v < 6 ==>
      Component(QuadData, v, 2) == 0.0 &&
      PlusMinusOne(Component(QuadData, v, 0)) && PlusMinusOne(Component(QuadData, v, 1)) &&
      ZeroOrOne(Component(QuadData, v, 3)) && ZeroOrOne(Component(QuadData, v, 4))
  {
    forall v | 0 <= v < 6
      ensures Component(QuadData, v, 2) == 0.0
    {
      if v == 0 {} else if v == 1 {} else if v == 2 {} else if v == 3 {} else if v == 4 {} else {}
    }
  }
}
