/** A chunk of voxels and its per-face mesher (`ChunkMesh2`).
    A chunk owns a cube of `uint8_t` voxels (0 = empty). `GenerateMesh`
    visits every voxel in x, y, z order and, for a solid voxel, emits one
    quad (6 vertices) towards every neighbour that `IsVoid`; the quads go to
    three flat buffers (positions, normals, voxel ids). Vertex coordinates
    are integer-valued in the source and are `int` here. */
module ChunkMesh {
  import opened Rendering

  /** A voxel as stored: a `uint8_t`. */
  type U8 = x: int | 0 <= x < 256

  /** An integer point or direction. */
  datatype Coord = Coord(x: int, y: int, z: int)

  /** The six faces, in the order `generateMesh` tests them. */
  datatype Face = Top | Bottom | Left | Right | Front | Back

  /** The voxel a face of voxel (a, b, c) looks at. */
  function Neighbour(f: Face, a: int, b: int, c: int): Coord {
    match f
    case Top => Coord(a, b + 1, c)
    case Bottom => Coord(a, b - 1, c)
    case Left => Coord(a - 1, b, c)
    case Right => Coord(a + 1, b, c)
    case Front => Coord(a, b, c - 1)
    case Back => Coord(a, b, c + 1)
  }

  /** The normal written for each face. The four x and y faces point towards
      the neighbour they test; the two z faces carry the opposite direction. */
  function Normal(f: Face): (r: Coord)
    ensures f != Front && f != Back ==> r == Neighbour(f, 0, 0, 0)
    ensures f == Front || f == Back ==> r == Coord(0, 0, -Neighbour(f, 0, 0, 0).z)
  {
    match f
    case Top => Coord(0, 1, 0)
    case Bottom => Coord(0, -1, 0)
    case Left => Coord(-1, 0, 0)
    case Right => Coord(1, 0, 0)
    case Front => Coord(0, 0, 1)
    case Back => Coord(0, 0, -1)
  }

  /** `q` lies on the plane of face `f` of the unit cube at `p`. */
  predicate OnFacePlane(f: Face, p: Coord, q: Coord) {
    match f
    case Top => q.y == p.y + 1
    case Bottom => q.y == p.y
    case Left => q.x == p.x
    case Right => q.x == p.x + 1
    case Front => q.z == p.z
    case Back => q.z == p.z + 1
  }

  /** `q` is a corner of the unit cube at `p`. */
  predicate CubeCorner(p: Coord, q: Coord) {
    (q.x == p.x || q.x == p.x + 1) && (q.y == p.y || q.y == p.y + 1) && (q.z == p.z || q.z == p.z + 1)
  }

  /** The six vertices (two triangles) of one quad, in the order written. */
  datatype QuadVertices = QuadVertices(v0: Coord, v1: Coord, v2: Coord, v3: Coord, v4: Coord, v5: Coord)
  {
    function At(i: nat): Coord
      requires i < 6
    {
      match i
      case 0 => v0
      case 1 => v1
      case 2 => v2
      case 3 => v3
      case 4 => v4
      case _ => v5
    }
  }

  /** The vertices written for face `f` of the voxel whose world position is
      (x, y, z): two triangles, each with three distinct vertices, every one
      a corner of the voxel's unit cube on that face's plane, and between
      them all four corners of the face. */
  function Corners(f: Face, x: int, y: int, z: int): (r: QuadVertices)
    ensures forall i :: 0 <= i < 6 ==>
      CubeCorner(Coord(x, y, z), r.At(i)) && OnFacePlane(f, Coord(x, y, z), r.At(i))
    ensures r.v0 != r.v1 && r.v1 != r.v2 && r.v0 != r.v2
    ensures r.v3 != r.v4 && r.v4 != r.v5 && r.v3 != r.v5
    ensures |{r.v0, r.v1, r.v2, r.v3, r.v4, r.v5}| == 4
  {
    match f
    case Top =>
      QuadVertices(Coord(x, y + 1, z), Coord(x + 1, y + 1, z), Coord(x + 1, y + 1, z + 1),
                   Coord(x, y + 1, z), Coord(x, y + 1, z + 1), Coord(x + 1, y + 1, z + 1))
    case Bottom =>
      QuadVertices(Coord(x, y, z), Coord(x + 1, y, z), Coord(x + 1, y, z + 1),
                   Coord(x, y, z), Coord(x, y, z + 1), Coord(x + 1, y, z + 1))
    case Left =>
      QuadVertices(Coord(x, y, z), Coord(x, y + 1, z), Coord(x, y, z + 1),
                   Coord(x, y + 1, z), Coord(x, y + 1, z + 1), Coord(x, y, z + 1))
    case Right =>
      QuadVertices(Coord(x + 1, y, z), Coord(x + 1, y + 1, z), Coord(x + 1, y, z + 1),
                   Coord(x + 1, y + 1, z), Coord(x + 1, y + 1, z + 1), Coord(x + 1, y, z + 1))
    case Front =>
      QuadVertices(Coord(x, y + 1, z), Coord(x, y, z), Coord(x + 1, y, z),
                   Coord(x, y + 1, z), Coord(x + 1, y + 1, z), Coord(x + 1, y, z))
    case Back =>
      QuadVertices(Coord(x, y, z + 1), Coord(x, y + 1, z + 1), Coord(x + 1, y, z + 1),
                   Coord(x + 1, y, z + 1), Coord(x + 1, y + 1, z + 1), Coord(x, y + 1, z + 1))
  }

  /** The three flat vertex buffers `generateMesh` fills. */
  datatype Mesh = Mesh(positions: seq<int>, normals: seq<int>, voxelIds: seq<int>)
  {
    function Append(m: Mesh): Mesh {
      Mesh(positions + m.positions, normals + m.normals, voxelIds + m.voxelIds)
    }
  }

  const EmptyMesh := Mesh([], [], [])

  /** What one quad adds to the buffers, for a voxel of value `voxel` whose
      world position is (x, y, z): the six corners, six copies of the face's
      normal and six copies of the voxel value. */
  function FaceMesh(f: Face, x: int, y: int, z: int, voxel: int): (m: Mesh)
    ensures |m.positions| == 18 && |m.normals| == 18 && |m.voxelIds| == 6
  {
    Mesh(Flatten(Corners(f, x, y, z)), Repeat6(Normal(f)), [voxel, voxel, voxel, voxel, voxel, voxel])
  }

  /** The coordinates of six vertices, vertex after vertex. */
  function Flatten(cs: QuadVertices): seq<int> {
    [cs.v0.x, cs.v0.y, cs.v0.z, cs.v1.x, cs.v1.y, cs.v1.z, cs.v2.x, cs.v2.y, cs.v2.z,
     cs.v3.x, cs.v3.y, cs.v3.z, cs.v4.x, cs.v4.y, cs.v4.z, cs.v5.x, cs.v5.y, cs.v5.z]
  }

  /** The coordinates of `n`, once per vertex of a quad. */
  function Repeat6(n: Coord): seq<int> {
    [n.x, n.y, n.z, n.x, n.y, n.z, n.x, n.y, n.z, n.x, n.y, n.z, n.x, n.y, n.z, n.x, n.y, n.z]
  }

  /** The voxel values of a chunk as a value, indexed [x][y][z]. */
  type Grid = seq<seq<seq<int>>>

  predicate InGrid(g: Grid, x: int, y: int, z: int) {
    0 <= x < |g| && 0 <= y < |g[x]| && 0 <= z < |g[x][y]|
  }

  /** Cell (x, y, z) of `g` is empty: it lies outside the chunk or holds 0. */
  predicate VoidIn(g: Grid, x: int, y: int, z: int) {
    !InGrid(g, x, y, z) || g[x][y][z] == 0
  }

  predicate InChunk(voxels: array3<U8>, x: int, y: int, z: int) {
    0 <= x < voxels.Length0 && 0 <= y < voxels.Length1 && 0 <= z < voxels.Length2
  }

  /** The values the voxel array holds, as a `Grid`. */
  ghost function Snapshot(voxels: array3<U8>): (g: Grid)
    reads voxels
    ensures |g| == voxels.Length0
    ensures forall x :: 0 <= x < |g| ==> |g[x]| == voxels.Length1
    ensures forall x, y :: 0 <= x < |g| && 0 <= y < |g[x]| ==> |g[x][y]| == voxels.Length2
    ensures forall x, y, z :: InChunk(voxels, x, y, z) ==> g[x][y][z] == voxels[x, y, z]
  {
    seq(voxels.Length0, x requires 0 <= x < voxels.Length0 reads voxels =>
      seq(voxels.Length1, y requires 0 <= y < voxels.Length1 reads voxels =>
        seq(voxels.Length2, z requires 0 <= z < voxels.Length2 reads voxels => voxels[x, y, z])))
  }

  /** `isVoid`: a cell is empty when one of its coordinates lies outside
      [0, CHUNKSIZE) or the cell holds 0. Out-of-range coordinates are never
      used as indices, and cells of neighbouring chunks are never consulted. */
  predicate IsVoid(x: int, y: int, z: int, voxels: array3<U8>): (r: bool)
    reads voxels
    ensures r <==> !InChunk(voxels, x, y, z) || voxels[x, y, z] == 0
  {
    if InChunk(voxels, x, y, z) then
      if voxels[x, y, z] != 0 then false else true
    else
      true
  }

  /** One emitted quad: the local voxel coordinates, the face and the voxel's
      value (its id in the third buffer). */
  datatype Quad = Quad(a: int, b: int, c: int, face: Face, voxel: int)

  /** The quad of face `f` of voxel (a, b, c) if its neighbour is void. */
  function FaceIf(g: Grid, a: int, b: int, c: int, f: Face): seq<Quad>
    requires InGrid(g, a, b, c)
  {
    var n := Neighbour(f, a, b, c);
    if VoidIn(g, n.x, n.y, n.z) then [Quad(a, b, c, f, g[a][b][c])] else []
  }

  /** The i-th face `generateMesh` tests: top, bottom, left, right,
      front (c - 1), back (c + 1). */
  function FaceAt(i: nat): Face
    requires i < 6
  {
    match i
    case 0 => Top
    case 1 => Bottom
    case 2 => Left
    case 3 => Right
    case 4 => Front
    case _ => Back
  }

  /** The quads of the first k faces of voxel (a, b, c), in test order. */
  function FacesUpTo(g: Grid, a: int, b: int, c: int, k: nat): seq<Quad>
    requires InGrid(g, a, b, c) && k <= 6
  {
    if k == 0 then [] else FacesUpTo(g, a, b, c, k - 1) + FaceIf(g, a, b, c, FaceAt(k - 1))
  }

  /** The quads emitted for voxel (a, b, c): none for an empty voxel,
      otherwise one per void neighbour, in face order. */
  function VoxelFaces(g: Grid, a: int, b: int, c: int): seq<Quad>
    requires InGrid(g, a, b, c)
  {
    if g[a][b][c] == 0 then [] else FacesUpTo(g, a, b, c, 6)
  }

  /** The quads of voxels (a, b, 0) .. (a, b, k - 1). */
  function RowFaces(g: Grid, a: int, b: int, k: nat): seq<Quad>
    requires 0 <= a < |g| && 0 <= b < |g[a]| && k <= |g[a][b]|
  {
    if k == 0 then [] else RowFaces(g, a, b, k - 1) + VoxelFaces(g, a, b, k - 1)
  }

  /** The quads of the rows (a, 0, _) .. (a, k - 1, _). */
  function SliceFaces(g: Grid, a: int, k: nat): seq<Quad>
    requires 0 <= a < |g| && k <= |g[a]|
  {
    if k == 0 then [] else SliceFaces(g, a, k - 1) + RowFaces(g, a, k - 1, |g[a][k - 1]|)
  }

  /** The quads of the slices 0 .. k - 1, in visiting order. */
  function GridFaces(g: Grid, k: nat): seq<Quad>
    requires k <= |g|
  {
    if k == 0 then [] else GridFaces(g, k - 1) + SliceFaces(g, k - 1, |g[k - 1]|)
  }

  /** Every quad `generateMesh` emits for the grid, in emission order. */
  function EmittedFaces(g: Grid): seq<Quad> {
    GridFaces(g, |g|)
  }

  /** What quad `q` adds to the buffers when the chunk's voxel (0, 0, 0) sits
      at world position `origin`. */
  function QuadMesh(q: Quad, origin: Coord): Mesh {
    FaceMesh(q.face, q.a + origin.x, q.b + origin.y, q.c + origin.z, q.voxel)
  }

  function Piece(origin: Coord): Quad -> Mesh {
    q => QuadMesh(q, origin)
  }

  /** The buffers made of `piece(q)` for every quad of `qs`, in order. */
  function Concat(qs: seq<Quad>, piece: Quad -> Mesh): Mesh {
    if qs == [] then EmptyMesh
    else Concat(qs[..|qs| - 1], piece).Append(piece(qs[|qs| - 1]))
  }

  /** The buffers for the quads `qs`, shifted by `origin` into world space. */
  function MeshOf(qs: seq<Quad>, origin: Coord): Mesh {
    Concat(qs, Piece(origin))
  }

  /** `pushVertex(cont, x, y, z)`: the three coordinates go after what the
      buffer already holds, which is kept. */
  function PushVertex(cont: seq<int>, x: int, y: int, z: int): (r: seq<int>)
    ensures |r| == |cont| + 3 && r[..|cont|] == cont
    ensures r[|cont|..] == [x, y, z]
  {
    cont + [x, y, z]
  }

  /** `pushNormals`: the normal (x, y, z) once per vertex of a quad. */
  function PushNormals(ns: seq<int>, x: int, y: int, z: int): (r: seq<int>)
    ensures |r| == |ns| + 18 && r[..|ns|] == ns
    ensures forall i :: 0 <= i < 6 ==> r[|ns| + 3 * i..|ns| + 3 * i + 3] == [x, y, z]
  {
    var t := [x, y, z];
    var r1 := PushVertex(ns, x, y, z);
    var r2 := PushVertex(r1, x, y, z);
    var r3 := PushVertex(r2, x, y, z);
    var r4 := PushVertex(r3, x, y, z);
    var r5 := PushVertex(r4, x, y, z);
    var r := PushVertex(r5, x, y, z);
    assert r == ns + t + t + t + t + t + t;
    SixCopies(ns, t);
    r
  }

  /** Six copies of a triple after `ns`, read back triple by triple. */
  lemma SixCopies(ns: seq<int>, t: seq<int>)
    requires |t| == 3
    ensures var r := ns + t + t + t + t + t + t;
      forall i :: 0 <= i < 6 ==> r[|ns| + 3 * i..|ns| + 3 * i + 3] == t
  {
    var r := ns + t + t + t + t + t + t;
    forall i | 0 <= i < 6
      ensures r[|ns| + 3 * i..|ns| + 3 * i + 3] == t
    {
      assert r[|ns| + 3 * i] == t[0] && r[|ns| + 3 * i + 1] == t[1] && r[|ns| + 3 * i + 2] == t[2];
    }
  }

  /** `pushVoxelId`: the voxel value once per vertex of a quad. */
  function PushVoxelId(vs: seq<int>, x: int): (r: seq<int>)
    ensures |r| == |vs| + 6 && r[..|vs|] == vs
    ensures forall i :: |vs| <= i < |r| ==> r[i] == x
  {
    vs + [x] + [x] + [x] + [x] + [x] + [x]
  }

  /** One face block of `generateMesh`: the voxel id, the six vertices of
      face `f` and its normal are appended to the three buffers. */
  function PushFace(m: Mesh, f: Face, x: int, y: int, z: int, voxel: int): (r: Mesh)
    ensures r == m.Append(FaceMesh(f, x, y, z, voxel))
  {
    var cs := Corners(f, x, y, z);
    var n := Normal(f);
    var ids := PushVoxelId(m.voxelIds, voxel);
    var ps := PushVertex(PushVertex(PushVertex(PushVertex(PushVertex(PushVertex(m.positions,
                cs.v0.x, cs.v0.y, cs.v0.z), cs.v1.x, cs.v1.y, cs.v1.z), cs.v2.x, cs.v2.y, cs.v2.z),
                cs.v3.x, cs.v3.y, cs.v3.z), cs.v4.x, cs.v4.y, cs.v4.z), cs.v5.x, cs.v5.y, cs.v5.z);
    var ns := PushNormals(m.normals, n.x, n.y, n.z);
    PushedIds(m.voxelIds, voxel);
    PushedCorners(m.positions, cs);
    PushedNormals(m.normals, n);
    Mesh(ps, ns, ids)
  }

  lemma PushedIds(vs: seq<int>, x: int)
    ensures PushVoxelId(vs, x) == vs + [x, x, x, x, x, x]
  {
    var r := PushVoxelId(vs, x);
    assert r[..|vs|] == vs;
  }

  lemma PushedCorners(p: seq<int>, cs: QuadVertices)
    ensures PushVertex(PushVertex(PushVertex(PushVertex(PushVertex(PushVertex(p,
              cs.v0.x, cs.v0.y, cs.v0.z), cs.v1.x, cs.v1.y, cs.v1.z), cs.v2.x, cs.v2.y, cs.v2.z),
              cs.v3.x, cs.v3.y, cs.v3.z), cs.v4.x, cs.v4.y, cs.v4.z), cs.v5.x, cs.v5.y, cs.v5.z) ==
            p + [cs.v0.x, cs.v0.y, cs.v0.z, cs.v1.x, cs.v1.y, cs.v1.z, cs.v2.x, cs.v2.y, cs.v2.z,
                 cs.v3.x, cs.v3.y, cs.v3.z, cs.v4.x, cs.v4.y, cs.v4.z, cs.v5.x, cs.v5.y, cs.v5.z]
  {
    assert p + [cs.v0.x, cs.v0.y, cs.v0.z] + [cs.v1.x, cs.v1.y, cs.v1.z] + [cs.v2.x, cs.v2.y, cs.v2.z] +
           [cs.v3.x, cs.v3.y, cs.v3.z] + [cs.v4.x, cs.v4.y, cs.v4.z] + [cs.v5.x, cs.v5.y, cs.v5.z] ==
           p + [cs.v0.x, cs.v0.y, cs.v0.z, cs.v1.x, cs.v1.y, cs.v1.z, cs.v2.x, cs.v2.y, cs.v2.z,
                cs.v3.x, cs.v3.y, cs.v3.z, cs.v4.x, cs.v4.y, cs.v4.z, cs.v5.x, cs.v5.y, cs.v5.z];
  }

  lemma PushedNormals(ns: seq<int>, n: Coord)
    ensures PushNormals(ns, n.x, n.y, n.z) ==
            ns + [n.x, n.y, n.z, n.x, n.y, n.z, n.x, n.y, n.z, n.x, n.y, n.z, n.x, n.y, n.z, n.x, n.y, n.z]
  {
    var r := PushNormals(ns, n.x, n.y, n.z);
    assert r[..|ns|] == ns;
  }

  /** A face block with its test: face `f` of voxel (a, b, c) is pushed when
      the neighbour it looks at `IsVoid`; the buffers grow by the mesh of
      that face's quad list. */
  method PushFaceIfVoid(m: Mesh, voxels: array3<U8>, ghost g: Grid, f: Face, a: int, b: int, c: int, origin: Coord)
    returns (r: Mesh)
    requires g == Snapshot(voxels) && InChunk(voxels, a, b, c)
    ensures r == m.Append(MeshOf(FaceIf(g, a, b, c, f), origin))
  {
    var n := Neighbour(f, a, b, c);
    MeshOfFaceIf(g, a, b, c, f, origin);
    AppendEmpty(m);
    r := m;
    if IsVoid(n.x, n.y, n.z, voxels) {
      r := PushFace(m, f, a + origin.x, b + origin.y, c + origin.z, voxels[a, b, c]);
    }
  }

  /** The body of `generateMesh`'s innermost loop for voxel (a, b, c): an
      empty voxel adds nothing; otherwise the six faces are tested in the
      order top, bottom, left, right, front (c - 1), back (c + 1). */
  method MeshVoxel(m: Mesh, voxels: array3<U8>, ghost g: Grid, a: int, b: int, c: int, origin: Coord)
    returns (r: Mesh)
    requires g == Snapshot(voxels) && InChunk(voxels, a, b, c)
    ensures r == m.Append(MeshOf(VoxelFaces(g, a, b, c), origin))
  {
    AppendEmpty(m);
    r := m;
    if voxels[a, b, c] == 0 {
      return;
    }
    r := PushFaceIfVoid(r, voxels, g, Top, a, b, c, origin);
    assert FacesUpTo(g, a, b, c, 1) == [] + FaceIf(g, a, b, c, Top) == FaceIf(g, a, b, c, Top);
    r := PushFaceIfVoid(r, voxels, g, Bottom, a, b, c, origin);
    AppendStep(m, FacesUpTo(g, a, b, c, 1), FaceIf(g, a, b, c, Bottom), origin);
    r := PushFaceIfVoid(r, voxels, g, Left, a, b, c, origin);
    AppendStep(m, FacesUpTo(g, a, b, c, 2), FaceIf(g, a, b, c, Left), origin);
    r := PushFaceIfVoid(r, voxels, g, Right, a, b, c, origin);
    AppendStep(m, FacesUpTo(g, a, b, c, 3), FaceIf(g, a, b, c, Right), origin);
    r := PushFaceIfVoid(r, voxels, g, Front, a, b, c, origin);
    AppendStep(m, FacesUpTo(g, a, b, c, 4), FaceIf(g, a, b, c, Front), origin);
    r := PushFaceIfVoid(r, voxels, g, Back, a, b, c, origin);
    AppendStep(m, FacesUpTo(g, a, b, c, 5), FaceIf(g, a, b, c, Back), origin);
  }

  /** The innermost loop of `generateMesh` (over z) for the row (a, b, _). */
  method MeshRow(m: Mesh, voxels: array3<U8>, ghost g: Grid, a: int, b: int, origin: Coord) returns (r: Mesh)
    requires g == Snapshot(voxels) && 0 <= a < voxels.Length0 && 0 <= b < voxels.Length1
    ensures r == m.Append(MeshOf(RowFaces(g, a, b, |g[a][b]|), origin))
  {
    AppendEmpty(m);
    r := m;
    for c := 0 to voxels.Length2
      invariant r == m.Append(MeshOf(RowFaces(g, a, b, c), origin))
    {
      r := MeshVoxel(r, voxels, g, a, b, c, origin);
      AppendStep(m, RowFaces(g, a, b, c), VoxelFaces(g, a, b, c), origin);
    }
  }

  /** The middle loop of `generateMesh` (over y) for the slice (a, _, _). */
  method MeshSlice(m: Mesh, voxels: array3<U8>, ghost g: Grid, a: int, origin: Coord) returns (r: Mesh)
    requires g == Snapshot(voxels) && 0 <= a < voxels.Length0
    ensures r == m.Append(MeshOf(SliceFaces(g, a, |g[a]|), origin))
  {
    AppendEmpty(m);
    r := m;
    for b := 0 to voxels.Length1
      invariant r == m.Append(MeshOf(SliceFaces(g, a, b), origin))
    {
      r := MeshRow(r, voxels, g, a, b, origin);
      AppendStep(m, SliceFaces(g, a, b), RowFaces(g, a, b, |g[a][b]|), origin);
    }
  }

  /** The outer loop of `generateMesh` (over x), starting from empty buffers. */
  method MeshGrid(voxels: array3<U8>, ghost g: Grid, origin: Coord) returns (r: Mesh)
    requires g == Snapshot(voxels)
    ensures r == EmptyMesh.Append(MeshOf(EmittedFaces(g), origin))
  {
    AppendEmpty(EmptyMesh);
    r := EmptyMesh;
    for a := 0 to voxels.Length0
      invariant r == EmptyMesh.Append(MeshOf(GridFaces(g, a), origin))
    {
      r := MeshSlice(r, voxels, g, a, origin);
      AppendStep(EmptyMesh, GridFaces(g, a), SliceFaces(g, a, |g[a]|), origin);
    }
  }

  class ChunkMesh2 {
    /** CHUNKSIZE: the edge length of the voxel cube. */
    const size: nat
    /** The voxel grid; `GetVoxels` hands out this same array. */
    const voxels: array3<U8>
    const vao: MultipleBufferVAO
    var id: int
    var startPosition: Coord
    var meshUpdate: bool

    ghost predicate Valid()
      reads this, vao
    {
      voxels.Length0 == size && voxels.Length1 == size && voxels.Length2 == size &&
      startPosition.y == 0 && vao.Valid()
    }

    /** World-space offset of the chunk's voxel (0, 0, 0): the start position
        scaled by CHUNKSIZE. */
    function Origin(): (o: Coord)
      reads this
      requires startPosition.y == 0
      ensures o.x == startPosition.x * size && o.y == 0 && o.z == startPosition.z * size
    {
      Coord(startPosition.x * size, startPosition.y * size, startPosition.z * size)
    }

    /** The buffers `generateMesh` builds for the current grid. */
    ghost function CurrentMesh(): Mesh
      reads this, voxels
      requires startPosition.y == 0
    {
      MeshOf(EmittedFaces(Snapshot(voxels)), Origin())
    }

    /** The grid starts all zero (`voxels{}`), the id 0, the y of the start
        position is forced to 0 and `meshUpdate` is true. The shader program
        and the texture load of the constructor are not modelled. */
    constructor (startPos: Coord, chunkSize: nat)
      ensures Valid() && fresh(voxels) && fresh(vao)
      ensures size == chunkSize && id == 0 && meshUpdate
      ensures startPosition == Coord(startPos.x, 0, startPos.z)
      ensures forall x, y, z :: InChunk(voxels, x, y, z) ==> voxels[x, y, z] == 0
      ensures vao.vbos == [] && vao.contents == [] && vao.verticesN == 0
    {
      size := chunkSize;
      voxels := new U8[chunkSize, chunkSize, chunkSize]((x, y, z) => 0);
      vao := new MultipleBufferVAO();
      id := 0;
      startPosition := Coord(startPos.x, 0, startPos.z);
      meshUpdate := true;
    }

    /** The grid itself (a reference in the source): writes through it are
        what the next `GenerateMesh` reads. */
    function GetVoxels(): (r: array3<U8>)
      reads this
      ensures r == voxels
    {
      voxels
    }

    method SetId(v: int)
      modifies this`id
      ensures id == v
    {
      id := v;
    }

    function GetStartPosition(): (r: Coord)
      reads this, vao
      requires Valid()
      ensures r == startPosition && r.y == 0
    {
      startPosition
    }

    /** Fills the grid with x + y + z + 1, truncated to a `uint8_t`. */
    method GenerateChunk()
      requires Valid()
      modifies voxels
      ensures Valid()
      ensures forall x, y, z :: InChunk(voxels, x, y, z) ==> voxels[x, y, z] == (x + y + z + 1) % 256
    {
      for x := 0 to size
        invariant forall i, j, k :: 0 <= i < x && 0 <= j < size && 0 <= k < size ==>
          voxels[i, j, k] == (i + j + k + 1) % 256
      {
        for y := 0 to size
          invariant forall i, j, k :: 0 <= i < x && 0 <= j < size && 0 <= k < size ==>
            voxels[i, j, k] == (i + j + k + 1) % 256
          invariant forall j, k :: 0 <= j < y && 0 <= k < size ==>
            voxels[x, j, k] == (x + j + k + 1) % 256
        {
          for z := 0 to size
            invariant forall i, j, k :: 0 <= i < x && 0 <= j < size && 0 <= k < size ==>
              voxels[i, j, k] == (i + j + k + 1) % 256
            invariant forall j, k :: 0 <= j < y && 0 <= k < size ==>
              voxels[x, j, k] == (x + j + k + 1) % 256
            invariant forall k :: 0 <= k < z ==> voxels[x, y, k] == (x + y + k + 1) % 256
          {
            voxels[x, y, z] := (x + y + z + 1) % 256;
          }
        }
      }
    }

    /** The loops of `generateMesh`: the buffers end up holding the mesh of
        every emitted quad, in visiting order. */
    method BuildMesh() returns (positions: seq<int>, normals: seq<int>, voxelIds: seq<int>)
      requires Valid()
      ensures Mesh(positions, normals, voxelIds) == CurrentMesh()
    {
      var m := MeshGrid(voxels, Snapshot(voxels), Origin());
      EmptyAppend(MeshOf(EmittedFaces(Snapshot(voxels)), Origin()));
      positions, normals, voxelIds := m.positions, m.normals, m.voxelIds;
    }

    /** The upload at the end of `generateMesh`: the three buffers become
        attributes 0 (positions, 3 per vertex), 1 (normals, 3 per vertex)
        and 2 (voxel ids, 1 per vertex) of the chunk's vertex array, and the
        vertex count is the number of positions over 3. */
    method Upload(positions: seq<int>, normals: seq<int>, voxelIds: seq<int>)
      requires vao.Valid()
      modifies vao
      ensures vao.Valid()
      ensures vao.contents == old(vao.contents) + [positions, normals, voxelIds]
      ensures vao.layouts == old(vao.layouts)[0 := Layout(3, Float, false)][1 := Layout(3, Float, false)][2 := Layout(1, Float, false)]
      ensures vao.verticesN == |positions| / 3
      ensures |vao.vbos| == |old(vao.vbos)| + 3 && vao.vbos[..|old(vao.vbos)|] == old(vao.vbos)
      ensures vao.vao == old(vao.vao) && vao.vboDataOffset == old(vao.vboDataOffset) && vao.firstWrite == old(vao.firstWrite)
    {
      var v := vao.Use();
      v := v.AddVertexAttribute(positions, 3, 0, false, Float);
      v := v.AddVertexAttribute(normals, 3, 1, false, Float);
      v := v.AddVertexAttribute(voxelIds, 1, 2, false, Float);
      vao.verticesN := |positions| / 3;
    }

    /** `generateMesh`: the mesh of every emitted quad is uploaded and the
        vertex count is 6 per emitted quad. */
    method GenerateMesh()
      requires Valid()
      modifies vao
      ensures Valid()
      ensures vao.contents == old(vao.contents) + [CurrentMesh().positions, CurrentMesh().normals, CurrentMesh().voxelIds]
      ensures vao.verticesN == |CurrentMesh().positions| / 3 == 6 * |EmittedFaces(Snapshot(voxels))|
      ensures vao.layouts == old(vao.layouts)[0 := Layout(3, Float, false)][1 := Layout(3, Float, false)][2 := Layout(1, Float, false)]
      ensures |vao.vbos| == |old(vao.vbos)| + 3 && vao.vbos[..|old(vao.vbos)|] == old(vao.vbos)
      ensures vao.vao == old(vao.vao) && vao.vboDataOffset == old(vao.vboDataOffset) && vao.firstWrite == old(vao.firstWrite)
    {
      var positions, normals, voxelIds := BuildMesh();
      MeshOfLength(positions, normals, voxelIds, EmittedFaces(Snapshot(voxels)), Origin());
      Upload(positions, normals, voxelIds);
    }
  }

  /** Every quad puts 6 vertices of 3 coordinates, 6 normals and 6 ids into
      the buffers. */
  lemma {:induction false} MeshOfLength(positions: seq<int>, normals: seq<int>, voxelIds: seq<int>,
                                        qs: seq<Quad>, origin: Coord)
    requires MeshOf(qs, origin) == Mesh(positions, normals, voxelIds)
    ensures |positions| == 18 * |qs| && |normals| == 18 * |qs| && |voxelIds| == 6 * |qs|
    decreases |qs|
  {
    if qs != [] {
      var init := qs[..|qs| - 1];
      var m := MeshOf(init, origin);
      MeshOfLength(m.positions, m.normals, m.voxelIds, init, origin);
    }
  }

  /** Appending one quad appends its piece. */
  lemma ConcatSnoc(qs: seq<Quad>, q: Quad, piece: Quad -> Mesh)
    ensures Concat(qs + [q], piece) == Concat(qs, piece).Append(piece(q))
  {
    assert (qs + [q])[..|qs|] == qs;
  }

  /** The buffers of a concatenation are the concatenated buffers. */
  lemma {:induction false} ConcatAppend(qs: seq<Quad>, rs: seq<Quad>, piece: Quad -> Mesh)
    ensures Concat(qs + rs, piece) == Concat(qs, piece).Append(Concat(rs, piece))
    decreases |rs|
  {
    if rs == [] {
      assert qs + rs == qs;
      AppendEmpty(Concat(qs, piece));
    } else {
      var init := rs[..|rs| - 1];
      var q := rs[|rs| - 1];
      assert rs == init + [q];
      assert qs + rs == (qs + init) + [q];
      ConcatAppend(qs, init, piece);
      ConcatSnoc(qs + init, q, piece);
      ConcatSnoc(init, q, piece);
      AppendAssoc(Concat(qs, piece), Concat(init, piece), piece(q));
    }
  }

  /** Appending the mesh of `qs` and then that of `rs` appends the mesh of
      `qs + rs`. */
  lemma AppendStep(start: Mesh, qs: seq<Quad>, rs: seq<Quad>, origin: Coord)
    ensures start.Append(MeshOf(qs, origin)).Append(MeshOf(rs, origin)) == start.Append(MeshOf(qs + rs, origin))
  {
    ConcatAppend(qs, rs, Piece(origin));
    AppendAssoc(start, MeshOf(qs, origin), MeshOf(rs, origin));
  }

  lemma AppendAssoc(m1: Mesh, m2: Mesh, m3: Mesh)
    ensures m1.Append(m2).Append(m3) == m1.Append(m2.Append(m3))
  {
    assert m1.positions + m2.positions + m3.positions == m1.positions + (m2.positions + m3.positions);
    assert m1.normals + m2.normals + m3.normals == m1.normals + (m2.normals + m3.normals);
    assert m1.voxelIds + m2.voxelIds + m3.voxelIds == m1.voxelIds + (m2.voxelIds + m3.voxelIds);
  }

  lemma AppendEmpty(m: Mesh)
    ensures m.Append(EmptyMesh) == m
  {
    assert m.positions + [] == m.positions;
    assert m.normals + [] == m.normals;
    assert m.voxelIds + [] == m.voxelIds;
  }

  lemma EmptyAppend(m: Mesh)
    ensures EmptyMesh.Append(m) == m
  {
    assert [] + m.positions == m.positions;
    assert [] + m.normals == m.normals;
    assert [] + m.voxelIds == m.voxelIds;
  }

  /** The buffers of one face test: the face's mesh if it is emitted,
      nothing otherwise. */
  lemma MeshOfFaceIf(g: Grid, a: int, b: int, c: int, f: Face, origin: Coord)
    requires InGrid(g, a, b, c)
    ensures MeshOf(FaceIf(g, a, b, c, f), origin) ==
      var n := Neighbour(f, a, b, c);
      if VoidIn(g, n.x, n.y, n.z) then FaceMesh(f, a + origin.x, b + origin.y, c + origin.z, g[a][b][c])
      else EmptyMesh
  {
    var fs := FaceIf(g, a, b, c, f);
    if fs != [] {
      ConcatSnoc([], fs[0], Piece(origin));
      assert [] + [fs[0]] == fs;
      EmptyAppend(QuadMesh(fs[0], origin));
    }
  }
}

