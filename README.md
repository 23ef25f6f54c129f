# voxel-engine core, modelled in Dafny

This project models the core of a small OpenGL voxel engine and proves
properties of it. The engine stores each chunk of the world as a cube of
`uint8_t` voxels, where 0 means empty. Each chunk is turned into a mesh by
a per-face mesher: for every solid voxel and each of its six faces that
looks at an empty cell, the mesher appends one quad of six vertices to
three flat buffers (positions, normals, voxel ids). Around the mesher sit
several smaller parts, all modelled here:

- view-frustum culling of points and eight-cornered boxes;
- the renderer, which asks each attached object whether it is in the
  frustum and draws the ones that are;
- the fixed-size grids of `Types.hpp`;
- the texture loader's bookkeeping (a cap of 16 textures, the format
  chosen from the file name, one texture unit per loaded texture);
- the first-person camera's clamping, movement and reset rules;
- the debug `operator<<` that prints a float vector three elements per
  numbered line.

One module per source file:

- `ChunkMesh`: `ChunkMesh2.cpp` and `ChunkMesh2.hpp`.
- `ChunkMeshFacts`: what the mesher's output means.
- `Frustum`: `Frustum.cpp` and `Frustum.hpp`.
- `Rendering`: `Rendering.cpp` and `Rendering.hpp`.
- `Types`: `Types.hpp`.
- `TextureLoader`: `TextureLoader.h`.
- `Camera`: `Camera.cpp` and `Camera.hpp`.
- `Printing`: `Printing.cpp`.
- `Glm`: the vector and matrix values these share.

Code that changes state is modelled as classes and methods with loop
invariants, proved against specification functions:

- the chunk, its voxel array and its mesh loops;
- the frustum's plane array and its scans;
- the renderer and the vertex-array object;
- the texture loader and the OpenGL texture state it drives;
- the camera;
- the printer's loop.

The vertex coordinates the mesher writes are integer-valued floats, and
are `int` here. Frustum and camera arithmetic is over `real`.

## Model

| member | source | states |
|---|---|---|
| ChunkMesh.IsVoid | src/engine/ChunkMesh2.cpp:71-78 | a cell is void exactly when some coordinate lies outside the chunk or the cell holds 0; any coordinate is accepted |
| ChunkMesh.Normal | src/engine/ChunkMesh2.cpp:153-258 | the x and y faces carry the unit normal towards the neighbour they test; the c-1 and c+1 faces carry the opposite z direction, as written |
| ChunkMesh.FaceMesh | src/engine/ChunkMesh2.cpp:137-153 | one quad adds 18 position entries, 18 normal entries and 6 voxel ids |
| ChunkMesh.PushVertex | src/engine/ChunkMesh2.cpp:80-85 | the buffer grows by three, keeps what it held, and ends with x, y, z |
| ChunkMesh.PushNormals | src/engine/ChunkMesh2.cpp:98-105 | appends 18 entries, keeps the old ones, and every vertex gets the same (x, y, z) |
| ChunkMesh.PushVoxelId | src/engine/ChunkMesh2.cpp:107-114 | appends six copies of the id and keeps the old entries |
| ChunkMesh.PushedIds | src/engine/ChunkMesh2.cpp:107-114 | the ids pushed are exactly six copies of the voxel value |
| ChunkMesh.PushedCorners | src/engine/ChunkMesh2.cpp:80-96 | six `pushVertex` calls append the six corners' coordinates in order |
| ChunkMesh.PushedNormals | src/engine/ChunkMesh2.cpp:98-105 | `pushNormals` appends the normal once per vertex |
| ChunkMesh.PushFace | src/engine/ChunkMesh2.cpp:137-153 | one face test's pushes append that face's quad to the three buffers |
| ChunkMesh.PushFaceIfVoid | src/engine/ChunkMesh2.cpp:136-155 | a face is appended exactly when its neighbour is void |
| ChunkMesh.MeshVoxel | src/engine/ChunkMesh2.cpp:132-262 | a zero voxel adds nothing; a solid one adds its void-facing quads in the order top, bottom, left, right, c-1, c+1 |
| ChunkMesh.MeshRow | src/engine/ChunkMesh2.cpp:124-262 | the innermost loop appends the quads of every voxel of a row, in order |
| ChunkMesh.MeshSlice | src/engine/ChunkMesh2.cpp:123-262 | the middle loop appends the rows of a slice, in order |
| ChunkMesh.MeshGrid | src/engine/ChunkMesh2.cpp:122-262 | the three loops build exactly the mesh of the emitted faces, in x, y, z order |
| ChunkMesh.Snapshot | include/ChunkMesh2.hpp:22 | the voxel array read as a value of the same shape and contents |
| ChunkMesh.ChunkMesh2.constructor | src/engine/ChunkMesh2.cpp:39-58 | the start position keeps x and z with y forced to 0; id 0; `meshUpdate` true; every voxel 0; an empty vertex-array object |
| ChunkMesh.ChunkMesh2.Origin | src/engine/ChunkMesh2.cpp:128-130 | world offsets are startPosition.x times the chunk size, 0, and startPosition.z times the chunk size |
| ChunkMesh.ChunkMesh2.GetVoxels | include/ChunkMesh2.hpp:50-52 | hands out the chunk's own voxel array, the one the mesher reads |
| ChunkMesh.ChunkMesh2.SetId | include/ChunkMesh2.hpp:54-56 | sets `id` and changes nothing else |
| ChunkMesh.ChunkMesh2.GetStartPosition | include/ChunkMesh2.hpp:58-60 | returns the stored start position, whose y is 0 |
| ChunkMesh.ChunkMesh2.GenerateChunk | src/engine/ChunkMesh2.cpp:60-69 | every cell (x, y, z) holds (x + y + z + 1) mod 256 |
| ChunkMesh.ChunkMesh2.BuildMesh | src/engine/ChunkMesh2.cpp:116-262 | the three buffers are the mesh of the emitted faces placed at the chunk's world offset |
| ChunkMesh.ChunkMesh2.Upload | src/engine/ChunkMesh2.cpp:264-270 | uploads positions, normals and ids to slots 0, 1 and 2 with sizes 3, 3 and 1; `verticesN` is the position count over 3; the array name, write offset and first-write flag are kept |
| ChunkMesh.ChunkMesh2.GenerateMesh | src/engine/ChunkMesh2.cpp:116-271 | the uploaded buffers are the chunk's mesh, laid out in slots 0, 1 and 2 with sizes 3, 3 and 1, and `verticesN` is 6 times the number of emitted faces; the array name, write offset and first-write flag are kept |
| ChunkMesh.MeshOfLength | src/engine/ChunkMesh2.cpp:98-114 | n quads give 18n positions, 18n normals and 6n ids, so there are 3 times as many normal entries as ids |
| ChunkMesh.ConcatAppend | src/engine/ChunkMesh2.cpp:122-262 | meshing two runs of quads one after the other is meshing their concatenation |
| ChunkMesh.AppendStep | src/engine/ChunkMesh2.cpp:122-262 | appending the meshes of two runs of quads appends the mesh of both runs |
| ChunkMesh.AppendAssoc | src/engine/ChunkMesh2.cpp:80-114 | appends to the three buffers can be grouped either way |
| ChunkMesh.AppendEmpty | src/engine/ChunkMesh2.cpp:80-114 | appending nothing leaves the buffers as they are |
| ChunkMesh.EmptyAppend | src/engine/ChunkMesh2.cpp:118-121 | appending to the empty buffers gives the appended mesh |
| ChunkMesh.MeshOfFaceIf | src/engine/ChunkMesh2.cpp:136-155 | a face test adds that face's quad when the neighbour is void and nothing otherwise |
| ChunkMesh.Corners | src/engine/ChunkMesh2.cpp:139-249 | the six vertices written for a face are corners of the voxel's unit cube lying on that face's plane (y + 1 for the top face); each of the two triangles has three distinct vertices, and the six take four distinct values, so together they cover the face's four corners |
| ChunkMeshFacts.FaceIndex | src/engine/ChunkMesh2.cpp:136-241 | the six face tests are numbered one-to-one in their fixed order |
| ChunkMeshFacts.FacesUpToMembers | src/engine/ChunkMesh2.cpp:136-262 | the first k face tests of a voxel emit exactly its quads among the first k faces that look at a void neighbour |
| ChunkMeshFacts.VoxelFacesMembers | src/engine/ChunkMesh2.cpp:132-262 | a voxel emits a quad exactly when the voxel is solid, the quad carries its value and the face's neighbour is void |
| ChunkMeshFacts.VoxelFacesAt | src/engine/ChunkMesh2.cpp:132-262 | every quad a voxel emits belongs to that voxel |
| ChunkMeshFacts.RowFacesSound | src/engine/ChunkMesh2.cpp:124-262 | every quad of a row comes from one of its voxels |
| ChunkMeshFacts.RowFacesComplete | src/engine/ChunkMesh2.cpp:124-262 | every quad a voxel of the row emits is in the row's output |
| ChunkMeshFacts.SliceFacesSound | src/engine/ChunkMesh2.cpp:123-262 | every quad of a slice comes from one of its voxels |
| ChunkMeshFacts.SliceFacesComplete | src/engine/ChunkMesh2.cpp:123-262 | every quad a voxel of the slice emits is in the slice's output |
| ChunkMeshFacts.GridFacesSound | src/engine/ChunkMesh2.cpp:122-262 | every quad of the first k slices comes from a voxel of the chunk |
| ChunkMeshFacts.GridFacesComplete | src/engine/ChunkMesh2.cpp:122-262 | every quad a voxel of the first k slices emits is in the output |
| ChunkMeshFacts.EmittedFacesMembers | src/engine/ChunkMesh2.cpp:122-262 | the mesher emits a quad exactly when it belongs to a solid voxel, carries its value and faces a void neighbour |
| ChunkMeshFacts.MeshOfAt | src/engine/ChunkMesh2.cpp:80-114 | quad i occupies positions and normals 18i .. 18i + 17 and ids 6i .. 6i + 5 |
| ChunkMeshFacts.FlattenAt | src/engine/ChunkMesh2.cpp:80-96 | vertex j of a quad occupies entries 3j .. 3j + 2 |
| ChunkMeshFacts.Repeat6At | src/engine/ChunkMesh2.cpp:98-105 | every vertex of a quad gets the face's normal |
| ChunkMeshFacts.QuadCornerAt | src/engine/ChunkMesh2.cpp:137-153 | in one quad, vertex j lies at a corner of the voxel's world cube on the face's plane |
| ChunkMeshFacts.QuadMeshAt | src/engine/ChunkMesh2.cpp:137-153 | in one quad, every vertex is a corner of the voxel's world cube on the face's plane, with the face's normal and the voxel's value |
| ChunkMeshFacts.MeshOfVertexAt | src/engine/ChunkMesh2.cpp:80-114 | vertex j of quad i in the buffers is vertex j of that quad |
| ChunkMeshFacts.EmittedVertex | src/engine/ChunkMesh2.cpp:122-262 | every vertex in the buffers belongs to a quad the mesher must emit, lies on that face of the voxel's cube, and carries the face's normal and the voxel's value |
| ChunkMeshFacts.CurrentMeshVertex | src/engine/ChunkMesh2.cpp:116-262 | the same for a chunk's own buffers at its world offset; the id is the value the voxel array holds |
| ChunkMeshFacts.ZeroGridEmpty | src/engine/ChunkMesh2.cpp:132-133 | an all-zero grid emits no face and an empty mesh |
| ChunkMeshFacts.NewChunkEmpty | src/engine/ChunkMesh2.cpp:39-58 | a freshly built chunk (all voxels 0) emits no face |
| ChunkMeshFacts.GeneratedIsSolid | src/engine/ChunkMesh2.cpp:60-69 | up to size 85, every generated voxel is solid |
| ChunkMeshFacts.GeneratedWrapsAt86 | src/engine/ChunkMesh2.cpp:64 | at size 86 the `uint8_t` store wraps to 0 at the far corner, so some voxel is empty |
| ChunkMeshFacts.Edge | src/engine/ChunkMesh2.cpp:71-78 | a coordinate at either end of an axis has one out-of-chunk neighbour there, so at most two along the axis |
| ChunkMeshFacts.EdgeSumPrefix | src/engine/ChunkMesh2.cpp:71-78 | along one axis, the first k cells have one boundary face at the start and one at the end once k reaches the size |
| ChunkMeshFacts.FacesUpToCount | src/engine/ChunkMesh2.cpp:136-262 | the first k face tests emit one quad per void-facing face |
| ChunkMeshFacts.VoxelFacesCount | src/engine/ChunkMesh2.cpp:132-262 | a voxel emits as many quads as it has void-facing faces |
| ChunkMeshFacts.RowFacesCount | src/engine/ChunkMesh2.cpp:124-262 | a row emits the sum of its voxels' face counts |
| ChunkMeshFacts.SliceFacesCount | src/engine/ChunkMesh2.cpp:123-262 | a slice emits the sum of its rows' counts |
| ChunkMeshFacts.GridFacesCount | src/engine/ChunkMesh2.cpp:122-262 | the first k slices emit the sum of their counts |
| ChunkMeshFacts.EmittedFacesCount | src/engine/ChunkMesh2.cpp:122-262 | the number of emitted quads is the chunk's face count |
| ChunkMeshFacts.SolidFaceCount | src/engine/ChunkMesh2.cpp:71-78 | in a solid cube, a face is emitted exactly when its neighbour lies outside the chunk |
| ChunkMeshFacts.SolidVoxelCount | src/engine/ChunkMesh2.cpp:71-78 | in a solid cube, a voxel emits one face per coordinate at each chunk boundary |
| ChunkMeshFacts.CubeRowClosed | src/engine/ChunkMesh2.cpp:124 | closed form of the face count of a row of a solid cube |
| ChunkMeshFacts.CubeSliceClosed | src/engine/ChunkMesh2.cpp:123 | closed form of the face count of a slice of a solid cube |
| ChunkMeshFacts.CubeGridClosed | src/engine/ChunkMesh2.cpp:122 | closed form of the face count of the first k slices of a solid cube |
| ChunkMeshFacts.CubeSurface | src/engine/ChunkMesh2.cpp:122-124 | a solid n-cube has 6 n^2 boundary faces |
| ChunkMeshFacts.SolidRowCount | src/engine/ChunkMesh2.cpp:124-262 | a row of a solid cube emits its closed-form count |
| ChunkMeshFacts.SolidSliceCount | src/engine/ChunkMesh2.cpp:123-262 | a slice of a solid cube emits its closed-form count |
| ChunkMeshFacts.SolidGridCount | src/engine/ChunkMesh2.cpp:122-262 | the first k slices of a solid cube emit their closed-form count |
| ChunkMeshFacts.SolidCubeFaces | src/engine/ChunkMesh2.cpp:122-262 | a solid n-cube emits exactly 6 n^2 faces |
| ChunkMeshFacts.GeneratedChunkVertices | src/engine/ChunkMesh2.cpp:60-270 | after `generateChunk` (size N up to 85), the mesh has 36 N^2 vertices |
| Frustum.Plane.SignDistance | include/Frustum.hpp:21-23 | a px + b py + c pz + d for the plane (a, b, c, d) |
| Frustum.Plane.Distance | include/Frustum.hpp:25-27 | the absolute signed distance: never negative, equal to plus or minus `signDistance`, and 0 exactly when `signDistance` is 0 |
| Frustum.FaceIndex | include/Frustum.hpp:35-43 | the six faces are numbered below Count = 6 |
| Frustum.FaceIndexBijective | include/Frustum.hpp:35-43 | Left .. Far and 0 .. 5 correspond one-to-one |
| Frustum.RawPlanes | src/engine/Frustum.cpp:10-20 | face f's plane is W + X, W - X, W + Y, W - Y, W + Z or W - Z of the matrix rows, in enumerator order |
| Frustum.InOutSum | src/engine/Frustum.cpp:33-41 | the `in` and `out` counters sum to the number of corners seen |
| Frustum.InCountExtremes | src/engine/Frustum.cpp:36-44 | `in` is 0 exactly when no corner is inside, and 8 exactly when all are |
| Frustum.StraddledNoReject | src/engine/Frustum.cpp:45-46 | once a plane is straddled, no later plane can reject the box |
| Frustum.PassedPlane | src/engine/Frustum.cpp:32-47 | a plane holding every corner passes the verdict to the later planes |
| Frustum.BoxInFromRejects | src/engine/Frustum.cpp:32-49 | from plane i on, the scan answers false exactly when some plane has no corner inside and every plane before it holds all corners |
| Frustum.BoxInRejects | src/engine/Frustum.cpp:31-50 | `boxIn` is false exactly when a plane rejects the box before any plane is straddled |
| Frustum.AllCornersInside | src/engine/Frustum.cpp:49 | a box with all corners inside all planes is kept |
| Frustum.CornersPointIn | src/engine/Frustum.cpp:23-50 | `pointIn` for all eight corners implies `boxIn` |
| Frustum.StraddlingLeftKept | src/engine/Frustum.cpp:45-46 | a box straddling the left plane is kept whatever the later planes say |
| Frustum.OutsideOnePlane | src/engine/Frustum.cpp:43-44 | a box wholly outside a plane, with all corners inside the earlier planes, is culled |
| Frustum.SignDistanceAlongNormal | include/Frustum.hpp:21-23 | moving a point t along the normal (a, b, c) adds t (a^2 + b^2 + c^2) to `signDistance`: the normal points to the positive side |
| Frustum.SignDistanceScaled | include/Frustum.hpp:21-23 | scaling a plane by k scales `signDistance` by k |
| Frustum.InsideScaled | include/Frustum.hpp:21-23 | a positive scale keeps every point on its side of the plane |
| Frustum.ScaledPlanes | src/engine/Frustum.cpp:15-20 | scaling plane by plane keeps the number of planes |
| Frustum.InCountScaled | src/engine/Frustum.cpp:36-41 | a positive scale changes neither counter |
| Frustum.BoxInFromScaled | src/engine/Frustum.cpp:32-49 | positive scales do not change the box scan from any plane on |
| Frustum.ClassificationScaleInvariant | src/engine/Frustum.cpp:15-49 | positive scales of the planes change neither `pointIn` nor `boxIn` |
| Frustum.VisibleKept | src/engine/Frustum.cpp:31-50 | `boxIn` as written keeps every box the full scan keeps |
| Frustum.VisibleCulls | src/engine/Frustum.cpp:43-44 | the full scan culls a box wholly outside any one plane, and keeps a box with all corners inside all planes |
| Frustum.StraddleBeyondFar | src/engine/Frustum.cpp:45-46 | for every far distance d, a box straddling x = 0 and lying beyond the far plane is kept by `boxIn` and culled by the full scan |
| Frustum.Frustum.constructor | src/engine/Frustum.cpp:3-5 | the planes are those `update` sets from the matrix |
| Frustum.Frustum.Update | src/engine/Frustum.cpp:7-21 | plane f is the raw plane of face f times some positive factor |
| Frustum.Frustum.PointIn | src/engine/Frustum.cpp:23-29 | true exactly when the point has `signDistance` >= 0 for all six planes |
| Frustum.Frustum.BoxIn | src/engine/Frustum.cpp:31-50 | the answer of the in-order scan with its early false and early true |
| Frustum.Frustum.BoxInCorrected | src/engine/Frustum.cpp:31-50 | true exactly when no plane has all eight corners outside |
| Frustum.NormalisingFactor | src/engine/Frustum.cpp:15-20 | the factor `normalize` multiplies a plane by is positive |
| Frustum.UpdatedClassification | src/engine/Frustum.cpp:7-49 | after `update`, `pointIn` and `boxIn` agree with the same tests on the raw planes |
| Rendering.MultipleBufferVAO.constructor | include/Rendering.hpp:50-56 | a fresh vertex array with no buffers and `verticesN` 0 |
| Rendering.MultipleBufferVAO.Use | include/Rendering.hpp:64-67 | returns the same object |
| Rendering.MultipleBufferVAO.AddVertexAttribute | src/engine/Rendering.cpp:46-104 | appends exactly one buffer, under a positive name none of the earlier buffers has, holding the data; records the slot's layout, keeps earlier buffers and returns the same object |
| Rendering.MultipleBufferVAO.AddVertexAttributeFrom | src/engine/Rendering.cpp:107-136 | the same for the first `attribDataCount` entries of a raw array, again under a fresh positive buffer name |
| Rendering.Filter | src/engine/Rendering.cpp:149-154 | the passing objects in their original order, by definition; each one passed the test |
| Rendering.FilterKeepsPassing | src/engine/Rendering.cpp:149-154 | every attached object that passes the test is drawn |
| Rendering.FilterAppend | src/engine/Rendering.cpp:149-154 | drawing after attaching more objects draws the old ones' selection, then the new ones' |
| Rendering.FilterAllPass | src/engine/Rendering.cpp:149-154 | everything is drawn exactly when every object passes |
| Rendering.Renderer.constructor | include/Rendering.hpp:111-125 | a renderer starts with no objects |
| Rendering.Renderer.AttatchObject | src/engine/Rendering.cpp:138-141 | appends the object after the earlier ones and returns the renderer |
| Rendering.Renderer.Render | src/engine/Rendering.cpp:143-157 | every object is queried once, in order; exactly the passing ones are drawn, in order; `renderedObjects` counts them and lies between 0 and `totalObjects`; the list is unchanged |
| Types.Array2D.constructor | include/Types.hpp:7-19 | an X by Y grid |
| Types.Array2D.At | include/Types.hpp:14-16 | reads cell [x][y] |
| Types.Array2D.Set | include/Types.hpp:14-16 | writing through `at` changes that cell alone |
| Types.Array3D.constructor | include/Types.hpp:21-33 | an X by Y by Z grid |
| Types.Array3D.At | include/Types.hpp:28-30 | reads cell [x][y][z] |
| Types.Array3D.Set | include/Types.hpp:28-30 | writing through `at` changes that cell alone |
| TextureLoader.EndsWith | include/TextureLoader.h:109-113 | true exactly when `str` is some string followed by `suffix` |
| TextureLoader.EndsWithLength | include/TextureLoader.h:109-113 | false when `str` is shorter than `suffix`; always true for the empty suffix |
| TextureLoader.EndsWithAppended | include/TextureLoader.h:109-113 | any string with the suffix appended ends with it |
| TextureLoader.ChooseFormat | include/TextureLoader.h:61-64 | RGBA exactly when the path ends with ".png" |
| TextureLoader.UpperCasePngIsRgb | include/TextureLoader.h:61-64 | the test is case-sensitive: "IMAGE.PNG" loads as RGB |
| TextureLoader.GlTextures.constructor | include/TextureLoader.h:58-59 | no texture names, unit GL_TEXTURE0 active, nothing bound |
| TextureLoader.GlTextures.GenTexture | include/TextureLoader.h:58 | returns a new non-zero name and adds it to the names in use |
| TextureLoader.GlTextures.BindTexture | include/TextureLoader.h:59 | binds the texture to the active unit and changes nothing else |
| TextureLoader.UpperBound | include/TextureLoader.h:58 | every name in use lies below the bound, so a fresh one exists |
| TextureLoader.TextureLoader.constructor | include/TextureLoader.h:48-84 | a loader starts with no textures |
| TextureLoader.TextureLoader.LoadTexture | include/TextureLoader.h:48-84 | with 16 textures, nothing changes; otherwise exactly one new name is appended whether or not decoding succeeded, bound to the active unit, and given the chosen format and default parameters only when decoding succeeded; never more than 16 |
| TextureLoader.TextureLoader.SetTexParameterI | include/TextureLoader.h:89-93 | binds the last texture and sets one parameter of it |
| TextureLoader.TextureLoader.EnableTextures | include/TextureLoader.h:95-101 | texture i is bound to unit GL_TEXTURE0 + i; other units keep their bindings; the last unit used is left active |
| TextureLoader.TextureLoader.BindLast | include/TextureLoader.h:104-106 | binds the last texture to the active unit |
| TextureLoader.DefaultParameters | include/TextureLoader.h:66-75 | only the new texture's parameters change |
| Camera.Clamp | src/engine/Camera.cpp:55-69 | the result lies in [lo, hi], equals v exactly when v does, and is the nearer bound otherwise |
| Camera.ClampIdempotent | src/engine/Camera.cpp:55-69 | clamping twice is clamping once |
| Camera.DefaultsInRange | include/Camera.hpp:11-16 | default zoom 45 lies within [1, 60], and default pitch 0 within [-89, 89] |
| Camera.ForwardBackwards | src/engine/Camera.cpp:28-42 | a move forward then back by the same amount, or right then left, returns to the start |
| Camera.FPSCamera.constructor | src/engine/Camera.cpp:3-26 | position and world up start at the defaults whatever the arguments; yaw and pitch are the arguments; speed, sensitivity and zoom are the defaults; fov and aspect ratio are the arguments; walking mode; the projection is `perspective(fov, ar, 0.1, 100)`; front, right, up and view are what `update` computes |
| Camera.FPSCamera.Update | src/engine/Camera.cpp:82-97 | front is the normalised direction of yaw and pitch, right is normalise(front x worldUp), up is normalise(front x right), and the view looks from the position towards position + front with that up |
| Camera.FPSCamera.MoveCamera | src/engine/Camera.cpp:28-48 | the position moves by plus or minus front or right times speed times dt; when not free its y is 0; the other state fields keep their values, and front, right, up and view are recomputed by `update` from the new position |
| Camera.FPSCamera.HandleMouseMovement | src/engine/Camera.cpp:50-63 | yaw grows by x times the sensitivity, unclamped; pitch grows by y times the sensitivity, clamped to [-89, 89] only when asked; front, right, up and view are recomputed by `update` from the new angles |
| Camera.FPSCamera.HandleMouseScroll | src/engine/Camera.cpp:65-71 | zoom becomes old zoom minus the offset, clamped to [1, 60] |
| Camera.FPSCamera.ResetCamera | src/engine/Camera.cpp:73-80 | position, front, up, yaw, pitch and zoom return to the defaults; nothing else changes |
| Camera.FPSCamera.SetMovementSpeed | include/Camera.hpp:70-72 | sets the speed and changes nothing else |
| Camera.FPSCamera.ToggleFreeCamera | include/Camera.hpp:74-76 | negates the mode, so two toggles restore it |
| Camera.FPSCamera.IncrementMovementSpeed | include/Camera.hpp:78-80 | adds the offset to the speed |
| Printing.NatToString | src/helpers/Printing.cpp:13-14 | a line number prints as a non-empty run of decimal digits |
| Printing.NumLines | src/helpers/Printing.cpp:12-15 | ceil(n / 3) lines: 3 per line suffice, one fewer line would not |
| Printing.VectorText | src/helpers/Printing.cpp:4-21 | the text the loop writes, built element by element |
| Printing.VectorLines | src/helpers/Printing.cpp:4-21 | the same text built line by line: "[ ", then line k as newline, k, space and elements 3k - 3 .. 3k - 1, then "]" |
| Printing.WrittenTake | src/helpers/Printing.cpp:10-18 | writing element k adds a line header exactly when k is a multiple of 3, then the element and one space |
| Printing.HeaderAt | src/helpers/Printing.cpp:12-15 | the header before element k carries the next line number |
| Printing.WriteVector | src/helpers/Printing.cpp:4-21 | the loop writes exactly the element-by-element text |
| Printing.WrittenIsLines | src/helpers/Printing.cpp:10-19 | element-by-element and line-by-line texts agree |
| Printing.VectorTextLines | src/helpers/Printing.cpp:4-21 | the vector's text is "[ ", the numbered lines 1, 2, 3, ..., then "]" |
| Printing.Brackets | src/helpers/Printing.cpp:4-21 | the text starts with "[ " and ends with "]"; an empty vector prints "[ ]" |
| Printing.CountDigits | src/helpers/Printing.cpp:13-14 | a line number contains no newline |
| Printing.ElementsNoNewline | src/helpers/Printing.cpp:17 | elements whose text has no newline write none |
| Printing.LineNewline | src/helpers/Printing.cpp:12-17 | each numbered line holds exactly one newline |
| Printing.LinesNewlines | src/helpers/Printing.cpp:10-18 | k lines hold k newlines |
| Printing.VectorNewlines | src/helpers/Printing.cpp:4-21 | with newline-free elements, the text has exactly ceil(n / 3) newlines, one per numbered line |
| Printing.Vec3Text | src/helpers/Printing.cpp:23-26 | the text is 11 characters longer than the three coordinates' texts together, starts with "X: " and the x text, and ends with the z text |
| Printing.LabelledReadBack | src/helpers/Printing.cpp:23-26 | three space-free words after the labels "X: ", " Y: " and " Z: " can be read back from the text they make |
| Printing.Vec3TextReadBack | src/helpers/Printing.cpp:23-26 | the text is "X: " x " Y: " y " Z: " z, read back: when coordinates print without spaces, equal texts mean equal coordinate texts |

## Left out

- OpenGL and stb_image calls are not modelled; they belong to a foreign backend. What is modelled is the state they leave behind that the code relies on: buffer names and contents, attribute layouts, texture names, bindings, images and parameters. Names from `glGen*` are chosen without determinism. A buffer name is stated to be positive and different from the buffers the same vertex-array object already holds; a vertex-array name is stated to be positive, and a texture name to be positive and not generated before. Whether `stbi_load` succeeds is a parameter.
- The floating-point geometry of `FPSCamera::update` and the constructor (the trigonometric direction of yaw and pitch, `glm::normalize`, `glm::cross`, `glm::lookAt`, `glm::perspective`) is not computed. The camera is given these functions as its `Geometry` value, and the model states which of their results front, right, up, view and projection hold. It does not state their values.
- Camera.FPSCamera.ResetCamera: `resetCamera` does not call `update`, so right and view keep their old values; the model follows the code.
- `getPVMatrix` returns a reference to a temporary (include/Camera.hpp:66-68), so `Frustum::update` takes the projection-view matrix directly.
- Frustum.Frustum.Update: `glm::normalize` is a division by the plane's length, modelled only as some positive factor. A zero-length plane, whose normalisation divides by zero, is not modelled.
- Floating point is modelled as `real` in the frustum and the camera, and as `int` for the integer-valued mesh coordinates. Rounding and NaN are not modelled.
- Printing.WriteVector: how a float is formatted is the parameter `show`, and `std::endl` is "\n". The 32-bit `int` counters `i` and `lineno` are unbounded here; they would only overflow beyond 2^31 elements.
- Texture coordinates are built by `generateMesh` but never uploaded, so they are not modelled.
- `ChunkMesh2::render` and the shader are not modelled (uniforms and draw calls). The same goes for the "container.jpg" texture the constructor loads.
- The camera getters are plain field reads and carry no contract.
- `Plane::operator=` is modelled as the array element assignment in Frustum.Frustum.Update. The assignment replaces the stored vector with the right-hand side.
- `generateMesh(ctx)` and `inFrustum` are declared in include/ChunkMesh2.hpp:35,39 but never defined. The defined `generateMesh()` is what is modelled.
- `isVoid` treats every cell outside the chunk as empty, and no neighbouring chunk is consulted; the model follows the code. `meshUpdate` is set to true and never read, so only its initial value is stated.
- The renderer's `inFrustum` callback is a pure function parameter of Renderer.Render, and drawing an object is recorded as the list of objects drawn.
- Camera.FPSCamera.constructor: `up` is recomputed by `update`, so only `worldUp` is stated to be the default; `up` is left to `update`.
- Camera.FPSCamera.constructor and Camera.FPSCamera.HandleMouseMovement: the C++ default arguments are not modelled, so every argument is explicit. The callers rely on them: src/game/Application.cpp:70 builds the camera with the default position, up, yaw 90 and pitch 0, and src/game/Application.cpp:29 moves it with `constraintPitch` true. Calls with those values give the same behaviour.
- ChunkMesh.ChunkMesh2.constructor: the start position is restricted to whole x and z, which is how the world builder creates chunks (src/game/Game.cpp:60). A fractional start position, and the float rounding of the vertex coordinates it would give, are not modelled.
- CHUNKSIZE comes from Config.hpp, which is not part of this model. The chunk size is a constructor parameter, and the lemmas hold for every size (up to 85 where the `uint8_t` wrap matters).
- ShaderCreation, Application, Game, LightSource and the test prototype under test/ are not modelled: GL wrappers, windowing, the main loop and a superseded prototype.
- In include/Types.hpp:21-30, the parameter names of `Array3D::at` shadow the template parameters. The grids are modelled as evidently intended: `at` designates one cell of the X by Y by Z array.
- TextureLoader.TextureLoader.SetTexParameterI and TextureLoader.TextureLoader.BindLast require a non-empty texture list, because `textures.back()` on an empty vector is undefined behaviour.
- `Plane::distance` uses unqualified `abs`; the real-valued absolute value is modelled.

## Findings

| source | as written | input that shows it | evidently intended | confidence | as-written member | corrected member |
|---|---|---|---|---|---|---|
| src/engine/Frustum.cpp:45-46 | `boxIn` returns true at the first plane with corners on both sides, without looking at the later planes | left plane x = 0, far plane at depth d, the other four planes accepting everything; a box with x in {-1, 1}, y in {0, 1}, z in {d + 1, d + 2} straddles the left plane and lies wholly beyond the far plane, yet is kept | a box is culled whenever some plane has all eight corners outside. Culling may be conservative on purpose, so this concerns that one stated promise of `boxIn` rather than a certain defect | medium (the source comment marks the intersection case as provisional), not executed | Frustum.StraddleBeyondFar | Frustum.Frustum.BoxInCorrected |
