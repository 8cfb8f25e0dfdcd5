# ModelDrawer: model-update handshake, texture selection and frame grid

This project models the sequential logic of `ModelDrawer` in the SLAM_CARV modeler, with the OpenGL and pangolin calls removed. It covers three parts:

- **The model-update handshake.** Two flags, `mbModelUpdateRequested` and `mbModelUpdateDone`, and two mesh slots, `mModel` (current) and `mUpdatedModel` (staging). The consumer (the renderer) takes one `UpdateModel` step at the start of each of `DrawModel`, `DrawModelPoints` and `DrawTriangles` (src/Modeler/ModelDrawer.cc:48, 274, 287). How often those run per frame is up to the viewer, which is not part of this model. The `Handshake.Run` lemmas cover any number and order of calls. The producer (the surface-inference thread) polls `UpdateRequested`, then publishes with `SetUpdatedModel` followed by `MarkUpdateDone`.
- **Per-triangle texture selection.** This is the first loop of `DrawModel`. For every triangle, every frame of the batch is kept, in batch order, when two things hold:
  - the triangle's normal `(P2 - P0) × (P1 - P0)` has a strictly positive dot product with the frame's orientation;
  - all three vertices project into that frame with a two-element texture coordinate.

  Each kept frame is recorded with its six uv scalars.
- **The grid layout of `DrawFrame`.** Frame `i` of `n` sits in a two-column grid of 512 x 512 cells at `((i % 2) * 512, (i / 2) * 512)`, and the grid has `(n + 1) / 2` rows.

Files and modules:

- `geometry.dfy` (`Geometry`): 3-vectors over `real`, with the difference, cross product, dot product and scaling, and a lemma that scaling by a positive factor keeps the sign of a dot product.
- `meshes.dfy` (`Meshes`): `Triangle`, `Mesh` (the `(points, tris)` pair of each slot), the empty mesh, and the "indices in bounds" predicates.
- `handshake.dfy` (`Handshake`): the handshake as a pure state machine. It has the state value, the three calls, `Apply`/`Run` over call sequences, the phases Idle / Waiting / ReadyToSwap, and the lemmas about reachable states and about what each slot can hold.
- `model_drawer.dfy` (`Drawer`): class `ModelDrawer` with the four fields, updated in place. Each state-changing method states its exact new state and ties it to the matching `Handshake` transition. It also holds `DrawModel`, `DrawModelPoints` and `DrawTriangles` without graphics, and a client round of the handshake.
- `texture_selection.dfy` (`TextureSelection`): the selection as specification functions. It also has the nested-loop method `SelectTextures` proved equal to them, and the lemmas on ordering, membership, uv length, degenerate triangles and empty batches.
- `frame_grid.dfy` (`FrameGrid`): the rows and cells of `DrawFrame`, the `DrawFrame` layout loop, and the bounds and injectivity lemmas.

Inputs the code gets from outside are parameters:

- `TextureFrame::GetOrientation` becomes a `Vec3` per frame.
- `TextureFrame::GetTexCoordinate` becomes a total function `TexCoordOracle` of the frame index, the world point and the image size. It returns a sequence whose length is checked against 2, as the source does.
- The image of a frame enters only through its size.

Behaviour of the code worth noting:

- `UpdateRequested` returns the raw requested flag. It is therefore also true in the ReadyToSwap phase, not only while the producer should build (`Drawer.ModelDrawer.UpdateRequested`).
- `SetUpdatedModel` and `MarkUpdateDone` have no phase guard. Called outside the Waiting phase they still do their writes: the staging slot is overwritten, or the done flag is set.
- `DrawModel` with an empty frame batch returns before `UpdateModel`. No per-triangle lists are produced and the handshake is untouched. The model returns `None` there.
- The normal of the triangle (0,0,0), (1,0,0), (0,1,0) as the code computes it, `(P2 - P0) × (P1 - P0)`, is (0, 0, -1). So a frame oriented along (0, 0, 1) is rejected, and a frame along (0, 0, -1) is kept (`UnitTriangleFacingPlusZ`, `UnitTriangleFacingMinusZ`).
- Degenerate triangles need no separate guard. The source divides a zero cross product by its zero norm, which gives NaN under IEEE arithmetic, and `NaN > 0` is false. The model tests the unnormalised cross product, whose dot product with anything is then 0, and `0 > 0` is false too. Either way the triangle gets an empty list (`DegenerateHasNoTextures`). This agreement is a modelling argument, since floating point is not modelled.

## Model

| member | source | states |
|---|---|---|
| `Handshake.Init` | src/Modeler/ModelDrawer.cc:16-19 | The constructed state is not requested, is done, has both slots empty, and satisfies the invariant `requested || done`. |
| `Handshake.PhaseOf` | include/Modeler/ModelDrawer.h:54-55 | Under the invariant, the two flags determine exactly one of Idle (not requested), Waiting (requested, not done) and ReadyToSwap (requested and done). |
| `Handshake.ApplyPhase` | src/Modeler/ModelDrawer.cc:411-445 | Every call keeps the invariant. UpdateModel moves Idle to Waiting, keeps Waiting, and moves ReadyToSwap to Idle. MarkUpdateDone moves Waiting to ReadyToSwap and keeps the other phases. SetUpdatedModel keeps the phase. |
| `Handshake.RunPreservesInv` | src/Modeler/ModelDrawer.cc:411-445 | Every sequence of UpdateModel / SetUpdatedModel / MarkUpdateDone calls preserves `requested \|\| done`. |
| `Handshake.NeitherRequestedNorDoneUnreachable` | src/Modeler/ModelDrawer.cc:411-445 | From the constructed state, no call sequence reaches requested == false with done == false. |
| `Handshake.WaitingUpdatesAreNoops` | src/Modeler/ModelDrawer.cc:413-414 | In the Waiting phase, any number of UpdateModel calls leaves the whole state unchanged, so at most one request is outstanding. |
| `Handshake.RequestKeepsMeshes` | src/Modeler/ModelDrawer.cc:422-423 | UpdateModel from not-requested sets requested, clears done and leaves both slots unchanged. |
| `Handshake.PublishThenReconcile` | src/Modeler/ModelDrawer.cc:411-445 | From Waiting, SetUpdatedModel(p, t), then MarkUpdateDone, then UpdateModel makes current == staging == (p, t), with requested cleared and done set. |
| `Handshake.SlotsHoldWholeMeshes` | src/Modeler/ModelDrawer.cc:416-430 | After any call sequence, the current slot holds one of the two initial slot values or a mesh published whole by one SetUpdatedModel call. The staging slot holds its initial value or a published mesh. Points and triangles of different publications are never combined. |
| `Handshake.CurrentIsEmptyOrPublished` | src/Modeler/ModelDrawer.cc:411-440 | From the constructed state, the current mesh is the empty mesh or one of the published meshes. |
| `Handshake.RunKeepsWellFormed` | src/Modeler/ModelDrawer.cc:426-430 | When every published mesh has in-bounds triangle indices, both slots keep having them after any call sequence. |
| `Drawer.ModelDrawer.constructor` | src/Modeler/ModelDrawer.cc:16-19 | The new drawer is not requested, is done, has empty current and staging meshes, and satisfies the invariant. |
| `Drawer.ModelDrawer.UpdateModel` | src/Modeler/ModelDrawer.cc:411-424 | Waiting: nothing changes. Ready: current := staging and requested cleared, done stays set. Not requested: requested set and done cleared, slots unchanged. The invariant holds after every call, and the new state is the Handshake transition. |
| `Drawer.ModelDrawer.SetUpdatedModel` | src/Modeler/ModelDrawer.cc:426-430 | The staging slot becomes (points, tris). Flags and the current slot are unchanged. |
| `Drawer.ModelDrawer.MarkUpdateDone` | src/Modeler/ModelDrawer.cc:442-445 | Done becomes true. Requested and both slots are unchanged. |
| `Drawer.ModelDrawer.UpdateRequested` | src/Modeler/ModelDrawer.cc:447-450 | Returns the raw requested flag, changes nothing. Under the invariant it is true exactly in the Waiting and ReadyToSwap phases. |
| `Drawer.ModelDrawer.UpdateDone` | src/Modeler/ModelDrawer.cc:452-455 | Returns the done flag, changes nothing. Under the invariant it is false exactly in the Waiting phase. |
| `Drawer.ModelDrawer.GetPoints` | src/Modeler/ModelDrawer.cc:432-435 | Returns the points of the current slot, not of the staging slot. |
| `Drawer.ModelDrawer.GetTris` | src/Modeler/ModelDrawer.cc:437-440 | Returns the triangles of the current slot, not of the staging slot. |
| `Drawer.ModelDrawer.DrawModel` | src/Modeler/ModelDrawer.cc:20-96 | Empty frame batch: returns early, the state is unchanged, and nothing is required of either slot. Otherwise: the mesh current after one UpdateModel step must index its own points; the handshake takes that step, and the result is the per-triangle texture lists of the resulting current mesh. |
| `Drawer.ModelDrawer.DrawModelPoints` | src/Modeler/ModelDrawer.cc:272-283 | Takes one UpdateModel step, then yields every point of the then-current mesh, in order. |
| `Drawer.ModelDrawer.DrawTriangles` | src/Modeler/ModelDrawer.cc:285-336 | Takes one UpdateModel step, then yields one face per triangle of the then-current mesh, in order: its normal `(P2 - P0) × (P1 - P0)` and its three vertices. The mesh current after the step must index its own points. |
| `Drawer.HandshakeRound` | src/Modeler/ModelDrawer.cc:411-455 | On a fresh drawer: UpdateModel, then the producer's poll sees the request, then SetUpdatedModel(p, t), MarkUpdateDone and UpdateModel. After that GetPoints == p and GetTris == t. |
| `TextureSelection.SelectTextures` | src/Modeler/ModelDrawer.cc:54-96 | The nested loop returns one list per triangle, in triangle order. Each list equals that triangle's specified assignment list. |
| `TextureSelection.TriangleTexturesShape` | src/Modeler/ModelDrawer.cc:55-95 | The specified result has exactly one entry per triangle, and entry i is the list of triangle i. |
| `TextureSelection.TexturesUpToShape` | src/Modeler/ModelDrawer.cc:56-95 | After n triangles, n lists have been built, list i being triangle i's. |
| `TextureSelection.VisibleUpToOrdered` | src/Modeler/ModelDrawer.cc:69-91 | In the list built from the first n frames: indices are below n and strictly increasing. Every entry names a frame the triangle faces and projects into, with that frame's uv vector. |
| `TextureSelection.VisibleUpToMembership` | src/Modeler/ModelDrawer.cc:69-94 | Frame f is in the list built from the first n frames iff f < n and the frame is kept (facing and all three projections of size 2). |
| `TextureSelection.VisibleTexturesSpec` | src/Modeler/ModelDrawer.cc:64-95 | Frame indices strictly increase and are below the batch size, so each frame appears at most once. Frame f is listed iff dot(normal, orientation_f) > 0 and all three projections have size 2. Each entry's uv is uv0 ++ uv1 ++ uv2 and has length 6. |
| `TextureSelection.BackFacingNeverListed` | src/Modeler/ModelDrawer.cc:76-78 | A frame with a non-positive dot product never appears in the triangle's list, whatever its projections return. |
| `TextureSelection.DegenerateHasNoTextures` | src/Modeler/ModelDrawer.cc:64-67 | A triangle with a zero cross product gets an empty list. |
| `TextureSelection.EmptyBatchGivesEmptyLists` | src/Modeler/ModelDrawer.cc:69-95 | With no frames, every triangle's list is empty. |
| `TextureSelection.UnitTriangleFacingMinusZ` | src/Modeler/ModelDrawer.cc:64-91 | The unit triangle with one frame along (0,0,-1), whose projections all succeed, lists exactly that frame with its three projections. |
| `TextureSelection.UnitTriangleFacingPlusZ` | src/Modeler/ModelDrawer.cc:64-78 | The unit triangle with one frame along (0,0,1) has an empty list (its dot product is -1). |
| `TextureSelection.NormalisedFacing` | src/Modeler/ModelDrawer.cc:66-78 | For any positive norm k, the source's test on the normal divided by k agrees with `Facing` on the unnormalised normal. |
| `FrameGrid.Rows` | src/Modeler/ModelDrawer.cc:373-374 | rows is ceil(n / 2): 2 * rows >= n and 2 * rows < n + 2. |
| `FrameGrid.CellOf` | src/Modeler/ModelDrawer.cc:389-390 | xPos is 0 or 512 and yPos is a multiple of 512. |
| `FrameGrid.IndexOfCellOf` | src/Modeler/ModelDrawer.cc:389-390 | The cell origin determines the frame index: row-major numbering inverts the placement. |
| `FrameGrid.CellsDistinct` | src/Modeler/ModelDrawer.cc:389-390 | Distinct frame indices get distinct (xPos, yPos). |
| `FrameGrid.CellInsideGrid` | src/Modeler/ModelDrawer.cc:373-390 | For i < n: xPos + 512 <= 2 * 512 and yPos + 512 <= rows * 512. |
| `FrameGrid.DrawFrame` | src/Modeler/ModelDrawer.cc:367-402 | The layout loop yields rows == Rows(n) and one cell per frame in batch order. Every cell is in column 0 or 512 and inside the rows, and cells are pairwise distinct. |

## Left out

- Graphics: texture generation and upload, blend and enable state, and the second draw loop of `DrawModel` (src/Modeler/ModelDrawer.cc:24-47, 50-52, 98-138). Also the OpenGL calls of `DrawModelPoints` and `DrawTriangles` after their handshake step (matrix, lighting, material and normalisation of the normal), and the texture and viewport calls of `DrawFrame`. These are GPU I/O. The model keeps only what that code reads: the six uv scalars per entry, which `VisibleTexturesSpec` shows are there to be indexed 0..5.
- The viewport fractions of `DrawFrame` (src/Modeler/ModelDrawer.cc:393-395): float UI layout. Only the integer cell arithmetic is modelled.
- Cross-thread visibility: the flags are read and written by two threads without a lock or atomic. The model treats each method call as one atomic sequential step. It says nothing about data races or memory ordering.
- Aliasing through `GetPoints` / `GetTris`: in C++ they return non-const references to the current slot, so a caller could mutate it in place. The model returns the values.
- `TextureFrame::GetOrientation` and `GetTexCoordinate` are not part of this model. They are inputs: an orientation per frame and a pure projection oracle.
- Floating point: coordinates, normals and dot products are exact reals. Normalisation by `norm()` is replaced by the unnormalised cross product (justified in sign by `NormalisedFacing`), and NaN is not modelled.
- Triangle indices are `dlovi::Matrix` doubles used unchecked as indices. Here they are natural numbers, and `DrawModel` (for a non-empty batch) and `DrawTriangles` require the mesh current after their handshake step to index its own points.
- `int` overflow of `numKFs`, `rows * 512` and the frame index is not modelled: integers are unbounded.
- `SaveModelToObj` (file I/O), `DrawLines` (a wrapper over `Modeler`), `SetModeler` (a pointer store), and the commented-out ranking policy and old `DrawFrame` (dead code).
- The `bRGB` flag changes only the pixel format of texture uploads, so it is not a parameter.
