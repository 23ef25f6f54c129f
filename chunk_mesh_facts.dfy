/** What the mesher's output means: which quads are emitted, what each quad
    writes into the three buffers, and how many quads a full or an empty
    chunk yields. */
module ChunkMeshFacts {
  import opened ChunkMesh

  /** Quad `q` is one `generateMesh` emits: its voxel lies in the chunk and
      is solid, `q` carries that voxel's value, and the neighbour its face
      looks at is void. */
  ghost predicate Emits(g: Grid, q: Quad) {
    InGrid(g, q.a, q.b, q.c) && g[q.a][q.b][q.c] != 0 && q.voxel == g[q.a][q.b][q.c] &&
    var n := Neighbour(q.face, q.a, q.b, q.c);
    VoidIn(g, n.x, n.y, n.z)
  }

  /** The position of face f in the order `generateMesh` tests the faces. */
  function FaceIndex(f: Face): (i: nat)
    ensures i < 6 && FaceAt(i) == f
    ensures forall j :: 0 <= j < 6 && FaceAt(j) == f ==> j == i
  {
    match f
    case Top => 0
    case Bottom => 1
    case Left => 2
    case Right => 3
    case Front => 4
    case Back => 5
  }

  /** The first k face tests of voxel (a, b, c) emit exactly the quads of
      that voxel whose face comes among the first k and looks at a void
      neighbour. */
  lemma {:induction false} FacesUpToMembers(g: Grid, a: int, b: int, c: int, k: nat, q: Quad)
    requires InGrid(g, a, b, c) && k <= 6
    ensures q in FacesUpTo(g, a, b, c, k) <==>
      q.a == a && q.b == b && q.c == c && q.voxel == g[a][b][c] && FaceIndex(q.face) < k &&
      var n := Neighbour(q.face, a, b, c);
      VoidIn(g, n.x, n.y, n.z)
    decreases k
  {
    if k > 0 {
      FacesUpToMembers(g, a, b, c, k - 1, q);
      assert q in FacesUpTo(g, a, b, c, k) <==>
        q in FacesUpTo(g, a, b, c, k - 1) || q in FaceIf(g, a, b, c, FaceAt(k - 1));
    }
  }

  /** The quads of one voxel are exactly the emitted quads at that voxel. */
  lemma VoxelFacesMembers(g: Grid, a: int, b: int, c: int, q: Quad)
    requires InGrid(g, a, b, c)
    ensures q in VoxelFaces(g, a, b, c) <==> Emits(g, q) && q.a == a && q.b == b && q.c == c
  {
    FacesUpToMembers(g, a, b, c, 6, q);
  }

  /** The quads of a voxel carry that voxel's coordinates. */
  lemma VoxelFacesAt(g: Grid, a: int, b: int, c: int, q: Quad)
    requires InGrid(g, a, b, c)
    ensures q in VoxelFaces(g, a, b, c) ==> q.a == a && q.b == b && q.c == c
  {
    FacesUpToMembers(g, a, b, c, 6, q);
  }

  /** Every quad of row (a, b) up to k comes from one of its voxels. */
  lemma {:induction false} RowFacesSound(g: Grid, a: int, b: int, k: nat, q: Quad)
    requires 0 <= a < |g| && 0 <= b < |g[a]| && k <= |g[a][b]|
    requires q in RowFaces(g, a, b, k)
    ensures q.a == a && q.b == b && 0 <= q.c < k && q in VoxelFaces(g, a, b, q.c)
    decreases k
  {
    if q in RowFaces(g, a, b, k - 1) {
      RowFacesSound(g, a, b, k - 1, q);
    } else {
      VoxelFacesAt(g, a, b, k - 1, q);
    }
  }

  /** Every quad of a voxel (a, b, c) with c < k is in row (a, b) up to k. */
  lemma {:induction false} RowFacesComplete(g: Grid, a: int, b: int, k: nat, q: Quad)
    requires 0 <= a < |g| && 0 <= b < |g[a]| && k <= |g[a][b]|
    requires 0 <= q.c < k && q in VoxelFaces(g, a, b, q.c)
    ensures q in RowFaces(g, a, b, k)
    decreases k
  {
    if q.c < k - 1 {
      RowFacesComplete(g, a, b, k - 1, q);
    }
  }

  lemma {:induction false} SliceFacesSound(g: Grid, a: int, k: nat, q: Quad)
    requires 0 <= a < |g| && k <= |g[a]|
    requires q in SliceFaces(g, a, k)
    ensures q.a == a && 0 <= q.b < k && 0 <= q.c < |g[a][q.b]| && q in VoxelFaces(g, a, q.b, q.c)
    decreases k
  {
    if q in SliceFaces(g, a, k - 1) {
      SliceFacesSound(g, a, k - 1, q);
    } else {
      RowFacesSound(g, a, k - 1, |g[a][k - 1]|, q);
    }
  }

  lemma {:induction false} SliceFacesComplete(g: Grid, a: int, k: nat, q: Quad)
    requires 0 <= a < |g| && k <= |g[a]|
    requires 0 <= q.b < k && 0 <= q.c < |g[a][q.b]| && q in VoxelFaces(g, a, q.b, q.c)
    ensures q in SliceFaces(g, a, k)
    decreases k
  {
    if q.b < k - 1 {
      SliceFacesComplete(g, a, k - 1, q);
    } else {
      RowFacesComplete(g, a, k - 1, |g[a][k - 1]|, q);
    }
  }

  lemma {:induction false} GridFacesSound(g: Grid, k: nat, q: Quad)
    requires k <= |g|
    requires q in GridFaces(g, k)
    ensures InGrid(g, q.a, q.b, q.c) && q.a < k && q in VoxelFaces(g, q.a, q.b, q.c)
    decreases k
  {
    if q in GridFaces(g, k - 1) {
      GridFacesSound(g, k - 1, q);
    } else {
      SliceFacesSound(g, k - 1, |g[k - 1]|, q);
    }
  }

  lemma {:induction false} GridFacesComplete(g: Grid, k: nat, q: Quad)
    requires k <= |g|
    requires InGrid(g, q.a, q.b, q.c) && q.a < k && q in VoxelFaces(g, q.a, q.b, q.c)
    ensures q in GridFaces(g, k)
    decreases k
  {
    if q.a < k - 1 {
      GridFacesComplete(g, k - 1, q);
    } else {
      SliceFacesComplete(g, k - 1, |g[k - 1]|, q);
    }
  }

  /** Soundness and completeness of the mesher: a quad is emitted exactly
      when its voxel is solid and the neighbour its face looks at is void. */
  lemma EmittedFacesMembers(g: Grid, q: Quad)
    ensures q in EmittedFaces(g) <==> Emits(g, q)
  {
    if q in EmittedFaces(g) {
      GridFacesSound(g, |g|, q);
    }
    if InGrid(g, q.a, q.b, q.c) {
      VoxelFacesMembers(g, q.a, q.b, q.c, q);
      if Emits(g, q) {
        GridFacesComplete(g, |g|, q);
      }
    }
  }

  /** Quad `i` of `qs` owns positions and normals 18i .. 18i + 17 and voxel
      ids 6i .. 6i + 5 of the buffers. */
  lemma {:induction false} MeshOfAt(qs: seq<Quad>, origin: Coord, i: nat)
    requires i < |qs|
    ensures var m := MeshOf(qs, origin);
      var p := QuadMesh(qs[i], origin);
      |m.positions| == 18 * |qs| && |m.normals| == 18 * |qs| && |m.voxelIds| == 6 * |qs| &&
      (forall k :: 0 <= k < 18 ==> m.positions[18 * i + k] == p.positions[k]) &&
      (forall k :: 0 <= k < 18 ==> m.normals[18 * i + k] == p.normals[k]) &&
      (forall k :: 0 <= k < 6 ==> m.voxelIds[6 * i + k] == p.voxelIds[k])
    decreases |qs|
  {
    var m := MeshOf(qs, origin);
    var init := qs[..|qs| - 1];
    var before := MeshOf(init, origin);
    assert m == before.Append(QuadMesh(qs[|qs| - 1], origin));
    MeshOfLength(m.positions, m.normals, m.voxelIds, qs, origin);
    MeshOfLength(before.positions, before.normals, before.voxelIds, init, origin);
    if i < |qs| - 1 {
      MeshOfAt(init, origin, i);
      assert init[i] == qs[i];
    }
  }

  /** Vertex j of a flattened quad occupies entries 3j .. 3j + 2. */
  lemma FlattenAt(cs: QuadVertices, j: nat)
    requires j < 6
    ensures |Flatten(cs)| == 18
    ensures Coord(Flatten(cs)[3 * j], Flatten(cs)[3 * j + 1], Flatten(cs)[3 * j + 2]) == cs.At(j)
  {
    match j
    case 0 =>
    case 1 =>
    case 2 =>
    case 3 =>
    case 4 =>
    case _ =>
  }

  /** Every vertex of a quad gets the same normal. */
  lemma Repeat6At(n: Coord, j: nat)
    requires j < 6
    ensures |Repeat6(n)| == 18
    ensures Coord(Repeat6(n)[3 * j], Repeat6(n)[3 * j + 1], Repeat6(n)[3 * j + 2]) == n
  {
    match j
    case 0 =>
    case 1 =>
    case 2 =>
    case 3 =>
    case 4 =>
    case _ =>
  }

  /** Vertex j of the i-th emitted quad of grid `g` meshed at `o`: the quad
      is one the mesher must emit, the vertex is a corner of the voxel's
      world-space cube on the face's plane, the normal is the face's and the
      id is the voxel's value. */
  lemma EmittedVertex(g: Grid, o: Coord, i: nat, j: nat)
    requires i < |EmittedFaces(g)| && j < 6
    ensures var qs := EmittedFaces(g);
      var m := MeshOf(qs, o);
      |m.positions| == 18 * |qs| && |m.normals| == 18 * |qs| && |m.voxelIds| == 6 * |qs| &&
      var q := qs[i];
      var cube := Coord(q.a + o.x, q.b + o.y, q.c + o.z);
      var p := Coord(m.positions[18 * i + 3 * j], m.positions[18 * i + 3 * j + 1], m.positions[18 * i + 3 * j + 2]);
      Emits(g, q) &&
      CubeCorner(cube, p) && OnFacePlane(q.face, cube, p) &&
      Coord(m.normals[18 * i + 3 * j], m.normals[18 * i + 3 * j + 1], m.normals[18 * i + 3 * j + 2]) == Normal(q.face) &&
      m.voxelIds[6 * i + j] == q.voxel
  {
    var qs := EmittedFaces(g);
    EmittedFacesMembers(g, qs[i]);
    MeshOfVertexAt(qs, o, i, j);
    QuadMeshAt(qs[i], o, j);
  }

  /** Inside the piece of quad `q` meshed at `o`: vertex j is a corner of
      the voxel's world-space cube lying on the face's plane, its normal is
      the face's and its id is the voxel's value. */
  lemma QuadMeshAt(q: Quad, o: Coord, j: nat)
    requires j < 6
    ensures var piece := QuadMesh(q, o);
      var cube := Coord(q.a + o.x, q.b + o.y, q.c + o.z);
      var p := Coord(piece.positions[3 * j], piece.positions[3 * j + 1], piece.positions[3 * j + 2]);
      CubeCorner(cube, p) && OnFacePlane(q.face, cube, p) &&
      Coord(piece.normals[3 * j], piece.normals[3 * j + 1], piece.normals[3 * j + 2]) == Normal(q.face) &&
      piece.voxelIds[j] == q.voxel
  {
    var x, y, z := q.a + o.x, q.b + o.y, q.c + o.z;
    assert QuadMesh(q, o) == Mesh(Flatten(Corners(q.face, x, y, z)), Repeat6(Normal(q.face)), [q.voxel, q.voxel, q.voxel, q.voxel, q.voxel, q.voxel]);
    QuadCornerAt(q, o, j);
    Repeat6At(Normal(q.face), j);
  }

  /** Vertex j of the piece of quad `q` meshed at `o` is a corner of the
      voxel's world-space cube lying on the face's plane. */
  lemma QuadCornerAt(q: Quad, o: Coord, j: nat)
    requires j < 6
    ensures var piece := QuadMesh(q, o);
      var cube := Coord(q.a + o.x, q.b + o.y, q.c + o.z);
      var p := Coord(piece.positions[3 * j], piece.positions[3 * j + 1], piece.positions[3 * j + 2]);
      CubeCorner(cube, p) && OnFacePlane(q.face, cube, p)
  {
    var x, y, z := q.a + o.x, q.b + o.y, q.c + o.z;
    var cs := Corners(q.face, x, y, z);
    assert QuadMesh(q, o).positions == Flatten(cs);
    FlattenAt(cs, j);
    assert CubeCorner(Coord(x, y, z), cs.At(j)) && OnFacePlane(q.face, Coord(x, y, z), cs.At(j));
  }

  /** Vertex j of quad i of the buffers is vertex j of that quad's piece. */
  lemma MeshOfVertexAt(qs: seq<Quad>, o: Coord, i: nat, j: nat)
    requires i < |qs| && j < 6
    ensures var m := MeshOf(qs, o);
      var p := QuadMesh(qs[i], o);
      |m.positions| == 18 * |qs| && |m.normals| == 18 * |qs| && |m.voxelIds| == 6 * |qs| &&
      m.positions[18 * i + 3 * j] == p.positions[3 * j] &&
      m.positions[18 * i + 3 * j + 1] == p.positions[3 * j + 1] &&
      m.positions[18 * i + 3 * j + 2] == p.positions[3 * j + 2] &&
      m.normals[18 * i + 3 * j] == p.normals[3 * j] &&
      m.normals[18 * i + 3 * j + 1] == p.normals[3 * j + 1] &&
      m.normals[18 * i + 3 * j + 2] == p.normals[3 * j + 2] &&
      m.voxelIds[6 * i + j] == p.voxelIds[j]
  {
    MeshOfAt(qs, o, i);
    var s := 3 * j;
    var base := 18 * i;
    assert base + s + 1 == base + (s + 1) && base + s + 2 == base + (s + 2);
  }

  /** `EmittedVertex` for the chunk's own buffers: the id is the value the
      voxel array holds at the quad's voxel. */
  lemma CurrentMeshVertex(chunk: ChunkMesh2, i: nat, j: nat)
    requires chunk.startPosition.y == 0
    requires i < |EmittedFaces(Snapshot(chunk.voxels))| && j < 6
    ensures var qs := EmittedFaces(Snapshot(chunk.voxels));
      var m := chunk.CurrentMesh();
      |m.positions| == 18 * |qs| && |m.normals| == 18 * |qs| && |m.voxelIds| == 6 * |qs| &&
      var q := qs[i];
      var o := chunk.Origin();
      var cube := Coord(q.a + o.x, q.b, q.c + o.z);
      var p := Coord(m.positions[18 * i + 3 * j], m.positions[18 * i + 3 * j + 1], m.positions[18 * i + 3 * j + 2]);
      Emits(Snapshot(chunk.voxels), q) &&
      CubeCorner(cube, p) && OnFacePlane(q.face, cube, p) &&
      Coord(m.normals[18 * i + 3 * j], m.normals[18 * i + 3 * j + 1], m.normals[18 * i + 3 * j + 2]) == Normal(q.face) &&
      m.voxelIds[6 * i + j] == chunk.voxels[q.a, q.b, q.c]
  {
    var g := Snapshot(chunk.voxels);
    EmittedVertex(g, chunk.Origin(), i, j);
    var q := EmittedFaces(g)[i];
    assert InChunk(chunk.voxels, q.a, q.b, q.c);
  }

  /** `g` is an n-cube. */
  ghost predicate Cube(g: Grid, n: nat) {
    |g| == n && (forall x :: 0 <= x < n ==> |g[x]| == n) &&
    (forall x, y :: 0 <= x < n && 0 <= y < |g[x]| ==> |g[x][y]| == n)
  }

  /** Every cell of the chunk is 0. */
  ghost predicate AllZero(g: Grid) {
    forall x, y, z :: InGrid(g, x, y, z) ==> g[x][y][z] == 0
  }

  /** Every cell of the chunk is solid. */
  ghost predicate AllSolid(g: Grid) {
    forall x, y, z :: InGrid(g, x, y, z) ==> g[x][y][z] != 0
  }

  /** An all-zero chunk emits nothing, so its buffers are empty and it has
      0 vertices. */
  lemma ZeroGridEmpty(g: Grid, origin: Coord)
    requires AllZero(g)
    ensures EmittedFaces(g) == []
    ensures MeshOf(EmittedFaces(g), origin) == EmptyMesh
  {
    var qs := EmittedFaces(g);
    if qs != [] {
      EmittedFacesMembers(g, qs[0]);
      assert false;
    }
  }

  /** The voxel array of a new chunk (all 0) meshes to nothing. */
  lemma NewChunkEmpty(voxels: array3<U8>)
    requires forall x, y, z :: InChunk(voxels, x, y, z) ==> voxels[x, y, z] == 0
    ensures EmittedFaces(Snapshot(voxels)) == []
  {
    ZeroGridEmpty(Snapshot(voxels), Coord(0, 0, 0));
  }

  /** Where `generateChunk` has written (x + y + z + 1) mod 256 into every
      cell of a cube of edge at most 85, every cell is solid: the largest
      value is 3 * 84 + 1 = 253, so nothing wraps to 0. */
  lemma GeneratedIsSolid(voxels: array3<U8>)
    requires voxels.Length0 == voxels.Length1 == voxels.Length2 <= 85
    requires forall x, y, z :: InChunk(voxels, x, y, z) ==> voxels[x, y, z] == (x + y + z + 1) % 256
    ensures Cube(Snapshot(voxels), voxels.Length0) && AllSolid(Snapshot(voxels))
  {
  }

  /** With edge 86 the same fill wraps: cell (85, 85, 85) holds 256 mod 256 = 0. */
  lemma GeneratedWrapsAt86(voxels: array3<U8>)
    requires voxels.Length0 == voxels.Length1 == voxels.Length2 == 86
    requires forall x, y, z :: InChunk(voxels, x, y, z) ==> voxels[x, y, z] == (x + y + z + 1) % 256
    ensures !AllSolid(Snapshot(voxels))
  {
    assert InChunk(voxels, 85, 85, 85);
    assert Snapshot(voxels)[85][85][85] == 0;
  }

  /** How many of the two faces of an axis a coordinate v touches in an
      n-cube: 1 for v == 0, 1 for v == n - 1 (2 when n == 1). */
  function Edge(v: int, n: int): (r: nat)
    ensures r <= 2
  {
    (if v == 0 then 1 else 0) + (if v == n - 1 then 1 else 0)
  }

  /** Edge(0, n) + .. + Edge(k - 1, n). */
  function EdgeSum(k: nat, n: int): nat {
    if k == 0 then 0 else EdgeSum(k - 1, n) + Edge(k - 1, n)
  }

  /** Along one axis of an n-cube, exactly two boundary faces are touched. */
  lemma {:induction false} EdgeSumPrefix(k: nat, n: nat)
    requires 1 <= n && k <= n
    ensures EdgeSum(k, n) == (if k >= 1 then 1 else 0) + (if k == n then 1 else 0)
    decreases k
  {
    if k > 0 {
      EdgeSumPrefix(k - 1, n);
    }
  }

  /** 1 when face f of voxel (a, b, c) looks at a void cell, else 0. */
  function FaceCount(g: Grid, a: int, b: int, c: int, f: Face): nat
    requires InGrid(g, a, b, c)
  {
    var m := Neighbour(f, a, b, c);
    if VoidIn(g, m.x, m.y, m.z) then 1 else 0
  }

  /** How many of the first k faces of voxel (a, b, c), in test order,
      look at a void cell. */
  function VisibleUpTo(g: Grid, a: int, b: int, c: int, k: nat): nat
    requires InGrid(g, a, b, c) && k <= 6
  {
    if k == 0 then 0 else VisibleUpTo(g, a, b, c, k - 1) + FaceCount(g, a, b, c, FaceAt(k - 1))
  }

  /** How many faces of voxel (a, b, c) are visible: none for an empty
      voxel, one per void neighbour otherwise. */
  function VoxelCount(g: Grid, a: int, b: int, c: int): nat
    requires InGrid(g, a, b, c)
  {
    if g[a][b][c] == 0 then 0 else VisibleUpTo(g, a, b, c, 6)
  }

  /** Visible faces of voxels (a, b, 0) .. (a, b, k - 1). */
  function RowCount(g: Grid, a: int, b: int, k: nat): nat
    requires 0 <= a < |g| && 0 <= b < |g[a]| && k <= |g[a][b]|
  {
    if k == 0 then 0 else RowCount(g, a, b, k - 1) + VoxelCount(g, a, b, k - 1)
  }

  /** Visible faces of rows (a, 0) .. (a, k - 1). */
  function SliceCount(g: Grid, a: int, k: nat): nat
    requires 0 <= a < |g| && k <= |g[a]|
  {
    if k == 0 then 0 else SliceCount(g, a, k - 1) + RowCount(g, a, k - 1, |g[a][k - 1]|)
  }

  /** Visible faces of slices 0 .. k - 1. */
  function GridCount(g: Grid, k: nat): nat
    requires k <= |g|
  {
    if k == 0 then 0 else GridCount(g, k - 1) + SliceCount(g, k - 1, |g[k - 1]|)
  }

  /** Each face test emits one quad exactly when the face is visible. */
  lemma {:induction false} FacesUpToCount(g: Grid, a: int, b: int, c: int, k: nat)
    requires InGrid(g, a, b, c) && k <= 6
    ensures |FacesUpTo(g, a, b, c, k)| == VisibleUpTo(g, a, b, c, k)
    decreases k
  {
    if k > 0 {
      FacesUpToCount(g, a, b, c, k - 1);
      assert FacesUpTo(g, a, b, c, k) == FacesUpTo(g, a, b, c, k - 1) + FaceIf(g, a, b, c, FaceAt(k - 1));
    }
  }

  lemma VoxelFacesCount(g: Grid, a: int, b: int, c: int)
    requires InGrid(g, a, b, c)
    ensures |VoxelFaces(g, a, b, c)| == VoxelCount(g, a, b, c)
  {
    FacesUpToCount(g, a, b, c, 6);
  }

  lemma {:induction false} RowFacesCount(g: Grid, a: int, b: int, k: nat)
    requires 0 <= a < |g| && 0 <= b < |g[a]| && k <= |g[a][b]|
    ensures |RowFaces(g, a, b, k)| == RowCount(g, a, b, k)
    decreases k
  {
    if k > 0 {
      RowFacesCount(g, a, b, k - 1);
      VoxelFacesCount(g, a, b, k - 1);
      assert RowFaces(g, a, b, k) == RowFaces(g, a, b, k - 1) + VoxelFaces(g, a, b, k - 1);
    }
  }

  lemma {:induction false} SliceFacesCount(g: Grid, a: int, k: nat)
    requires 0 <= a < |g| && k <= |g[a]|
    ensures |SliceFaces(g, a, k)| == SliceCount(g, a, k)
    decreases k
  {
    if k > 0 {
      SliceFacesCount(g, a, k - 1);
      RowFacesCount(g, a, k - 1, |g[a][k - 1]|);
      assert SliceFaces(g, a, k) == SliceFaces(g, a, k - 1) + RowFaces(g, a, k - 1, |g[a][k - 1]|);
    }
  }

  lemma {:induction false} GridFacesCount(g: Grid, k: nat)
    requires k <= |g|
    ensures |GridFaces(g, k)| == GridCount(g, k)
    decreases k
  {
    if k > 0 {
      GridFacesCount(g, k - 1);
      SliceFacesCount(g, k - 1, |g[k - 1]|);
      assert GridFaces(g, k) == GridFaces(g, k - 1) + SliceFaces(g, k - 1, |g[k - 1]|);
    }
  }

  /** The mesher emits one quad per visible face of the chunk. */
  lemma EmittedFacesCount(g: Grid)
    ensures |EmittedFaces(g)| == GridCount(g, |g|)
  {
    GridFacesCount(g, |g|);
  }

  /** In a solid cube a face is visible exactly when it looks out of the cube. */
  lemma SolidFaceCount(g: Grid, n: nat, a: int, b: int, c: int, f: Face)
    requires Cube(g, n) && AllSolid(g) && InGrid(g, a, b, c)
    ensures FaceCount(g, a, b, c, f) == var m := Neighbour(f, a, b, c); if InGrid(g, m.x, m.y, m.z) then 0 else 1
  {
  }

  /** In a solid cube, a voxel shows one face per boundary it touches. */
  lemma SolidVoxelCount(g: Grid, n: nat, a: int, b: int, c: int)
    requires Cube(g, n) && AllSolid(g) && InGrid(g, a, b, c)
    ensures VoxelCount(g, a, b, c) == Edge(a, n) + Edge(b, n) + Edge(c, n)
  {
    SolidFaceCount(g, n, a, b, c, Top);
    SolidFaceCount(g, n, a, b, c, Bottom);
    SolidFaceCount(g, n, a, b, c, Left);
    SolidFaceCount(g, n, a, b, c, Right);
    SolidFaceCount(g, n, a, b, c, Front);
    SolidFaceCount(g, n, a, b, c, Back);
    assert VisibleUpTo(g, a, b, c, 1) == FaceCount(g, a, b, c, Top);
    assert VisibleUpTo(g, a, b, c, 2) == VisibleUpTo(g, a, b, c, 1) + FaceCount(g, a, b, c, Bottom);
    assert VisibleUpTo(g, a, b, c, 3) == VisibleUpTo(g, a, b, c, 2) + FaceCount(g, a, b, c, Left);
    assert VisibleUpTo(g, a, b, c, 4) == VisibleUpTo(g, a, b, c, 3) + FaceCount(g, a, b, c, Right);
    assert VisibleUpTo(g, a, b, c, 5) == VisibleUpTo(g, a, b, c, 4) + FaceCount(g, a, b, c, Front);
    assert VisibleUpTo(g, a, b, c, 6) == VisibleUpTo(g, a, b, c, 5) + FaceCount(g, a, b, c, Back);
  }

  /** Faces shown by voxels z = 0 .. k - 1 of a row of a solid n-cube whose
      x and y coordinates touch e boundaries together. */
  function CubeRow(e: int, k: nat, n: int): int {
    if k == 0 then 0 else CubeRow(e, k - 1, n) + e + Edge(k - 1, n)
  }

  /** Faces shown by rows y = 0 .. k - 1 of a slice of a solid n-cube whose
      x coordinate touches ea boundaries. */
  function CubeSlice(ea: int, k: nat, n: nat): int {
    if k == 0 then 0 else CubeSlice(ea, k - 1, n) + CubeRow(ea + Edge(k - 1, n), n, n)
  }

  /** Faces shown by slices x = 0 .. k - 1 of a solid n-cube. */
  function CubeGrid(k: nat, n: nat): int {
    if k == 0 then 0 else CubeGrid(k - 1, n) + CubeSlice(Edge(k - 1, n), n, n)
  }

  lemma MulPred(k: int, x: int)
    ensures k * x == (k - 1) * x + x
  {
  }

  lemma Distrib(x: int, y: int, z: int)
    ensures x * (y + z) == x * y + x * z
  {
  }

  lemma MulAssoc(x: int, y: int, z: int)
    ensures x * (y * z) == (x * y) * z
  {
  }

  lemma {:induction false} CubeRowClosed(e: int, k: nat, n: int)
    ensures CubeRow(e, k, n) == k * e + EdgeSum(k, n)
    decreases k
  {
    if k > 0 {
      CubeRowClosed(e, k - 1, n);
      MulPred(k, e);
    }
  }

  lemma {:induction false} CubeSliceClosed(ea: int, k: nat, n: nat)
    requires 1 <= n
    ensures CubeSlice(ea, k, n) == k * (n * ea + 2) + n * EdgeSum(k, n)
    decreases k
  {
    if k > 0 {
      var e := Edge(k - 1, n);
      CubeSliceClosed(ea, k - 1, n);
      CubeRowClosed(ea + e, n, n);
      EdgeSumPrefix(n, n);
      Distrib(n, ea, e);
      MulPred(k, n * ea + 2);
      Distrib(n, EdgeSum(k - 1, n), e);
    }
  }

  lemma {:induction false} CubeGridClosed(k: nat, n: nat)
    requires 1 <= n
    ensures CubeGrid(k, n) == (4 * n) * k + (n * n) * EdgeSum(k, n)
    decreases k
  {
    if k > 0 {
      var e := Edge(k - 1, n);
      CubeGridClosed(k - 1, n);
      CubeSliceClosed(e, n, n);
      EdgeSumPrefix(n, n);
      Distrib(n, n * e, 2);
      MulAssoc(n, n, e);
      MulPred(k, 4 * n);
      Distrib(n * n, EdgeSum(k - 1, n), e);
    }
  }

  /** The surface of an n-cube has 6 n^2 unit faces. */
  lemma CubeSurface(n: nat)
    ensures CubeGrid(n, n) == 6 * n * n
  {
    if n > 0 {
      CubeGridClosed(n, n);
      EdgeSumPrefix(n, n);
      MulAssoc(4, n, n);
      MulAssoc(6, n, n);
    }
  }

  lemma {:induction false} SolidRowCount(g: Grid, n: nat, a: int, b: int, k: nat)
    requires Cube(g, n) && AllSolid(g)
    requires 0 <= a < n && 0 <= b < n && k <= n
    ensures RowCount(g, a, b, k) == CubeRow(Edge(a, n) + Edge(b, n), k, n)
    decreases k
  {
    if k > 0 {
      SolidRowCount(g, n, a, b, k - 1);
      SolidVoxelCount(g, n, a, b, k - 1);
    }
  }

  lemma {:induction false} SolidSliceCount(g: Grid, n: nat, a: int, k: nat)
    requires Cube(g, n) && AllSolid(g)
    requires 0 <= a < n && k <= n
    ensures SliceCount(g, a, k) == CubeSlice(Edge(a, n), k, n)
    decreases k
  {
    if k > 0 {
      SolidSliceCount(g, n, a, k - 1);
      SolidRowCount(g, n, a, k - 1, n);
    }
  }

  lemma {:induction false} SolidGridCount(g: Grid, n: nat, k: nat)
    requires Cube(g, n) && AllSolid(g) && k <= n
    ensures GridCount(g, k) == CubeGrid(k, n)
    decreases k
  {
    if k > 0 {
      SolidGridCount(g, n, k - 1);
      SolidSliceCount(g, n, k - 1, n);
    }
  }

  /** A solid n-cube emits exactly its 6 n^2 boundary faces. */
  lemma SolidCubeFaces(g: Grid, n: nat)
    requires Cube(g, n) && AllSolid(g)
    ensures |EmittedFaces(g)| == 6 * n * n
  {
    EmittedFacesCount(g);
    SolidGridCount(g, n, n);
    CubeSurface(n);
  }

  /** The chunk `generateChunk` fills, with an edge of at most 85, meshes to
      6 n^2 quads, that is 36 n^2 vertices. */
  lemma GeneratedChunkVertices(voxels: array3<U8>)
    requires voxels.Length0 == voxels.Length1 == voxels.Length2 <= 85
    requires forall x, y, z :: InChunk(voxels, x, y, z) ==> voxels[x, y, z] == (x + y + z + 1) % 256
    ensures 6 * |EmittedFaces(Snapshot(voxels))| == 36 * voxels.Length0 * voxels.Length0
  {
    var n := voxels.Length0;
    GeneratedIsSolid(voxels);
    SolidCubeFaces(Snapshot(voxels), n);
    MulAssoc(6, 6 * n, n);
  }
}
