# WinG3D rendering and physics core, in Dafny

This project models two systems of the WinG3D engine. Both run on a flecs
entity-component world.

- **The Direct3D 12 rendering system** (`DirX12RendererLogic`).
  - Its `Init` chain: shader variables, then graphics resources, then draw calls.
  - The per-frame-slot transform and material
    structured buffers, their descriptor heap, and the vertex and index buffer views.
  - The post-update `completeDraw` step. It clears the targets when both target
    handles are available, copies the CPU-side transforms into the current
    slot's transform buffer, binds that slot's buffers, and then issues one
    indexed, instanced draw per mesh of every level instance.
  - `Activate` and `Shutdown` on the three systems the renderer registers.
- **The physics system's broad-phase collision cache** (`PhysicsLogic`).
  - Once per tick, a singleton step gathers one shape per entity matching the
    `<Collidable, Position, Orientation>` query into a reusable list.
  - The step walks every unordered pair of that list once, then clears the list.
  - `Activate` and `Shutdown` act on the three named physics systems.

Modules, one file each:

- `LevelData` (`level.dfy`): the flattened level (instances, models, meshes,
  transforms, materials) and the well-formedness the draw loop relies on.
- `DrawSubmission` (`draw_submission.dfy`): the reference specification of one
  frame's command list. It gives the draw sequence in instance-then-mesh order,
  its encoding as root-constant and draw commands, and the prologue. It also
  holds the lemmas about counts, order, bounds, clears and slot binding.
- `FrameResources` (`frame_resources.dfy`): the buffer overwrite used for the
  per-frame copy, the vector resize, material attribute packing, the
  descriptor-heap layout, and the vertex and index view sizes.
- `Renderer` (`renderer.dfy`): the renderer's scheduler systems and the class
  `DirX12RendererLogic`, whose methods update its fields as the C++ methods do.
  The draw loop and the initialisation loops are `while` loops, each proved
  against the functions of `DrawSubmission` and `FrameResources`.
- `Physics` (`physics.dfy`): the world as the physics system sees it, the
  query, the pair sequence and its properties, and the class `PhysicsLogic`.

`Init` is written as an early-return chain
(`Source/Systems/DirX12RendererLogic.cpp`:34-41), but `SetupShaderVars`,
`SetupGraphics` and `SetupDrawcalls` each return `true` unconditionally (:83,
:90, :172), so `Renderer.DirX12RendererLogic.Init` always returns `true`.
`Ready()` is the state a successful `Init` leaves, and `CompleteDraw` requires
it. `Init` establishes `Ready()` only when the transform list starts empty. A
second `Init` on the same object would double the CPU-side transform list, and
the per-frame copy would then no longer fit in the slot buffers.

## Model

| member | source | states |
|---|---|---|
| LevelData.ModelOf | Source/Systems/DirX12RendererLogic.cpp:156-158 | the model an instance names exists, and its mesh range lies inside the level's mesh list |
| DrawSubmission.DrawsUpToLength | Source/Systems/DirX12RendererLogic.cpp:154-158 | the first `n` instances produce exactly as many draws as their models have meshes |
| DrawSubmission.FrameDrawCount | Source/Systems/DirX12RendererLogic.cpp:154-167 | one frame issues exactly one draw per mesh of every instance's model; a level with no instances issues none |
| DrawSubmission.MeshCountMonotone | Source/Systems/DirX12RendererLogic.cpp:154-158 | the draws of instance `i` end no later than the draws of the first `n > i` instances |
| DrawSubmission.DrawPosition | Source/Systems/DirX12RendererLogic.cpp:154-165 | the draw of instance `i`, mesh `meshStart + k`, sits at index `MeshCountUpTo(i) + k` and carries that mesh's index count, the instance's transform count, `indexStart + indexOffset`, `vertexStart` and start instance 0 |
| DrawSubmission.DrawOrigin | Source/Systems/DirX12RendererLogic.cpp:154-165 | conversely, every draw of the frame comes from exactly one (instance, mesh) pair of the loop |
| DrawSubmission.DrawOrder | Source/Systems/DirX12RendererLogic.cpp:154-158 | draws follow instance order first, then ascending mesh order within an instance |
| DrawSubmission.FrameDrawsInBounds | Source/Systems/DirX12RendererLogic.cpp:156-165 | on a well-formed level every draw's material index is a valid mesh index |
| DrawSubmission.TwoMeshScenario | Source/Systems/DirX12RendererLogic.cpp:154-165 | one instance of a two-mesh model with three transforms yields exactly two draws, for the two meshes in order, each instanced three times from the instance's first transform |
| DrawSubmission.EncodedAt | Source/Systems/DirX12RendererLogic.cpp:160-165 | draw `k` is encoded as mesh constants `(materialIndex, transformStart)` at position `2k`, followed by its draw call at `2k+1` |
| DrawSubmission.EncodedKinds | Source/Systems/DirX12RendererLogic.cpp:160-165 | the draw loop records only mesh-constant and draw commands, never a clear or a buffer binding |
| DrawSubmission.FrameDrawCallCount | Source/Systems/DirX12RendererLogic.cpp:135-167 | the number of draw calls in a frame's command list equals the total mesh count, whether or not the targets were cleared |
| DrawSubmission.ClearsOnlyWithHandles | Source/Systems/DirX12RendererLogic.cpp:138-145 | the render-target and depth-stencil clears are recorded if and only if both target handles were obtained |
| DrawSubmission.BindsOnlyItsSlot | Source/Systems/DirX12RendererLogic.cpp:146-152 | a frame binds the transform and material buffers of the current slot, and no other slot's |
| DrawSubmission.FrameCommandsAt | Source/Systems/DirX12RendererLogic.cpp:135-165 | draw `k` of the frame is recorded right after the prologue's `2k` commands: first its mesh constants (mesh index, instance transform start), then its draw call with the draw's arguments |
| DrawSubmission.ConstantsPrecedeDraws | Source/Systems/DirX12RendererLogic.cpp:160-164 | every draw call in the frame is immediately preceded by a two-value mesh-constants command for root parameter 1 |
| FrameResources.Overwrite | Source/Systems/DirX12RendererLogic.h:469-476 | the copy replaces as many leading elements as the data holds, keeps the rest, keeps the length, and equals the data when lengths match |
| FrameResources.Resize | Source/Systems/DirX12RendererLogic.h:367-368 | the resized vector has the requested length, keeps its prefix and pads with the default element |
| FrameResources.Attributes | Source/Systems/DirX12RendererLogic.h:326-332 | the packed material buffer holds one attribute record per material, in material order |
| FrameResources.HeapLayout | Source/Systems/DirX12RendererLogic.h:348-357 | the descriptor heap holds two descriptors per frame slot |
| FrameResources.HeapLayoutOnePerBuffer | Source/Systems/DirX12RendererLogic.h:291-346 | with the handle advanced by the descriptor increment (see Findings), every descriptor after initialisation is a view, no buffer has two views, and every slot's transform and material buffer has one |
| FrameResources.ViewOffsets | Source/Systems/DirX12RendererLogic.h:293-344 | the byte offsets of the views written through the heap handle: the first at the heap start, each next one `step` bytes after the previous |
| FrameResources.HandleAdvancedByIncrement | Source/Systems/DirX12RendererLogic.h:315-316 | advancing the heap handle by the descriptor increment gives each view its own descriptor inside the heap |
| FrameResources.AsWrittenHandleMisplacesViews | Source/Systems/DirX12RendererLogic.h:315-316 | advancing by the vector object's size instead overlaps two views or runs past the heap whenever that size differs from the increment |
| FrameResources.AsWrittenTwoSlots | Source/Systems/DirX12RendererLogic.h:315-316 | with a 24-byte vector and a 32-byte increment, the second view starts inside the first |
| FrameResources.ToUint | Source/Systems/DirX12RendererLogic.h:402 | byte sizes passed as `unsigned int` are reduced modulo 2^32: the result is below 2^32, differs from the size by a multiple of 2^32, and equals the size below 2^32 |
| FrameResources.VertexViewFor | Source/Systems/DirX12RendererLogic.h:395-423 | the vertex view's stride is the 36-byte vertex size and its size is 36 bytes per vertex while that fits in 32 bits |
| FrameResources.IndexViewFor | Source/Systems/DirX12RendererLogic.h:425-453 | the index view uses the 32-bit unsigned format and covers 4 bytes per index while that fits in 32 bits |
| FrameResources.ViewsCoverBuffers | Source/Systems/DirX12RendererLogic.h:395-453 | within 32 bits the vertex and index views cover exactly the level's vertices and indices |
| Renderer.Activation | Source/Systems/DirX12RendererLogic.cpp:44-62 | activation succeeds if and only if all three systems are alive; then all three run exactly when `run` holds; otherwise nothing changes |
| Renderer.ActivationIdempotent | Source/Systems/DirX12RendererLogic.cpp:44-62 | activating twice with the same flag equals activating once |
| Renderer.Destructed | Source/Systems/DirX12RendererLogic.cpp:64-70 | after shutdown no system is alive and any later activation fails |
| Renderer.DirX12RendererLogic.Init | Source/Systems/DirX12RendererLogic.cpp:10-42 | records the level and the swap chain's buffer count, then runs the three setup steps; returns true and leaves every slot's buffers filled, the heap laid out (with the handle advanced by the descriptor increment, see Findings), the views sized and the systems registered and enabled |
| Renderer.DirX12RendererLogic.SetupShaderVars | Source/Systems/DirX12RendererLogic.cpp:77-84 | appends the level transforms to the CPU-side list and returns true |
| Renderer.DirX12RendererLogic.SetupGraphics | Source/Systems/DirX12RendererLogic.cpp:86-91 | initialises the graphics resources and returns true |
| Renderer.DirX12RendererLogic.SetupDrawcalls | Source/Systems/DirX12RendererLogic.cpp:93-173 | registers the three systems, each alive and enabled, and returns true |
| Renderer.DirX12RendererLogic.InitializeSceneDataForGPU | Source/Systems/DirX12RendererLogic.h:455-467 | appends every level transform, in order, to the CPU-side transform list |
| Renderer.DirX12RendererLogic.InitializeGraphics | Source/Systems/DirX12RendererLogic.h:360-376 | sizes the slot vectors to the frame count, then fills the buffers and the heap (with the handle advanced by the descriptor increment, see Findings), and sets the vertex and index views |
| Renderer.DirX12RendererLogic.InitializeDescriptorHeap | Source/Systems/DirX12RendererLogic.h:348-358 | creates a heap of `2 * maxActiveFrames` descriptors |
| Renderer.DirX12RendererLogic.InitializeStructuredBuffersAndViews | Source/Systems/DirX12RendererLogic.h:291-346 | every slot's transform buffer holds the level transforms, every material buffer holds the packed attributes, and the heap equals `HeapLayout`, with the handle advanced by the descriptor increment (see Findings) |
| Renderer.DirX12RendererLogic.UpdateTransformsForGPU | Source/Systems/DirX12RendererLogic.h:469-476 | only the given slot's transform buffer changes, and it is overwritten with the CPU-side transforms |
| Renderer.DirX12RendererLogic.Activate | Source/Systems/DirX12RendererLogic.cpp:44-62 | the result and the new systems are those of `Activation` |
| Renderer.DirX12RendererLogic.Shutdown | Source/Systems/DirX12RendererLogic.cpp:64-70 | destroys the three systems and returns true |
| Renderer.DirX12RendererLogic.CompleteDraw | Source/Systems/DirX12RendererLogic.cpp:121-170 | appends exactly `FrameCommands` for the frame, refreshes the current slot's transform buffer and no other, keeps `Ready()`, and leaves the last mesh constants written |
| Renderer.DirX12RendererLogic.DrawLevel | Source/Systems/DirX12RendererLogic.cpp:154-167 | the nested loop records exactly the encoding of `FrameDraws` |
| Renderer.DirX12RendererLogic.DrawInstance | Source/Systems/DirX12RendererLogic.cpp:157-166 | the inner loop records exactly the encoding of the instance's draws |
| Physics.Query | Source/Systems/PhysicsLogic.cpp:14-28 | the query yields the positions of exactly the matching entities, each once, in iteration order |
| Physics.Row | Source/Systems/PhysicsLogic.cpp:32 | the inner loop for index `i` visits `n - i - 1` pairs |
| Physics.PairsUpToLength | Source/Systems/PhysicsLogic.cpp:30-36 | the first `m` outer rounds visit `m(2n - m - 1)/2` pairs |
| Physics.PairsCount | Source/Systems/PhysicsLogic.cpp:30-36 | the whole loop visits `n(n-1)/2` pairs |
| Physics.PairsUpToMembers | Source/Systems/PhysicsLogic.cpp:30-32 | the first `m` rounds visit exactly the pairs `(i, j)` with `i < m` and `i < j < n` |
| Physics.PairsMembers | Source/Systems/PhysicsLogic.cpp:30-32 | a pair is visited if and only if `i < j < n`: no self-pair, and never both orders of a pair |
| Physics.PairsUpToSorted | Source/Systems/PhysicsLogic.cpp:30-32 | the pairs of the first `m` rounds come in strict lexicographic order |
| Physics.PairsSortedAndDistinct | Source/Systems/PhysicsLogic.cpp:30-36 | every pair is visited once, in lexicographic order |
| Physics.Activated | Source/Systems/PhysicsLogic.cpp:43-56 | the three named systems exist afterwards with the requested enabled flag; every other name is unchanged |
| Physics.ActivatedIdempotent | Source/Systems/PhysicsLogic.cpp:43-56 | activating twice with the same flag equals activating once |
| Physics.PhysicsLogic.Init | Source/Systems/PhysicsLogic.cpp:4-41 | caches the query, makes sure the "Detect-Collisions" entity exists, registers the collision step, and returns true; other named entities keep their flags |
| Physics.PhysicsLogic.Gather | Source/Systems/PhysicsLogic.cpp:21-28 | appends one shape per entity the query yields |
| Physics.PhysicsLogic.VisitPairs | Source/Systems/PhysicsLogic.cpp:29-36 | the nested loop visits exactly `Pairs(n)` for a cache of `n` shapes, in loop order |
| Physics.PhysicsLogic.CollisionTick | Source/Systems/PhysicsLogic.cpp:18-39 | one tick visits every unordered pair of the gathered shapes once and leaves the cache empty |
| Physics.PhysicsLogic.Activate | Source/Systems/PhysicsLogic.cpp:43-56 | returns true and sets the named entities to `Activated` of the old ones; the entities are unchanged |
| Physics.PhysicsLogic.Shutdown | Source/Systems/PhysicsLogic.cpp:58-65 | releases the query, removes the three named systems, and returns true |

## Left out

- Device and driver calls are abstracted. A GPU buffer is the sequence of elements it holds, a descriptor is the view written into it, and the command list is the trace of commands recorded on it. Resource creation, mapping, `Release` and the pipeline state object are not modelled. The pipeline setup is one `SetupPipeline` command.
- Shader compilation, root signature creation and shader file I/O (`Source/Systems/DirX12RendererLogic.h`:217-289) are device calls and are left out.
- The renderer's logging is I/O and is left out.
- Level loading (`LoadLevel`) is file I/O; the loaded level is a parameter of `Init`. The swap chain's buffer count is the `bufferCount` parameter.
- The current back-buffer index is the `frame` parameter of `CompleteDraw`, and whether both target handles were obtained is its `targetsOk` parameter.
- Floating-point matrix work is left out: the view and projection matrices, the camera update from input (`Source/Utils/CameraMovement.h` is not part of this model), the scene constants' contents, and the per-entity matrix built by the `updateDraw` system (its result is never used). Transforms and material attributes are opaque type parameters.
- `startDraw` has an empty body. It is modelled only as a system handle.
- The "Rendering System" tag entity is not modelled. It only makes the pre- and post-update systems run once per tick.
- `SetBackgroundColor` only stores a pointer to a float colour, and the clear colour is not modelled.
- Renderer.DirX12RendererLogic.InitializeStructuredBuffersAndViews: writes the views at consecutive descriptor positions, the corrected behaviour described under Findings. It does not model the byte offsets of the code as written.
- FrameResources.HeapLayoutOnePerBuffer: holds for the corrected handle walk only; the code as written places the views at multiples of the vector object's size (see Findings), where two views can share a descriptor. `FrameResources.HeapLayout` and the heap stated by `Init`, `SetupGraphics`, `InitializeGraphics` and `InitializeStructuredBuffersAndViews` are likewise the corrected layout.
- FrameResources.HeapLayout: is the heap after the corrected handle walk (view `k` in descriptor `k`), not the byte placement of the code as written.
- The draw loop reads `levelModels[model]` and `levelMeshes[mesh]` without bounds checks (`Source/Systems/DirX12RendererLogic.cpp`:156-165). An out-of-range read is undefined behaviour there, so `LevelData.WellFormed` (every instance names an existing model whose mesh range lies inside the mesh list) is a precondition of `CompleteDraw`, `DrawLevel` and the draw lemmas rather than a modelled error path.
- Indices, counts and draw arguments are unbounded `nat`. The code's `int` loop counters and `UINT` draw arguments cannot overflow for a level that fits in memory. Byte sizes passed as `unsigned int` are truncated explicitly (`FrameResources.ToUint`).
- Physics: the SHAPE record carries no data and the pair test's body is empty, so a tick's observable effect is the sequence of index pairs visited. Concurrency between flecs systems and the scheduler's phase ordering are not modelled.
- Physics: `entity(name)` creates a missing entity, so `Activate` and `Shutdown` are map updates on the named entities. `Shutdown` is modelled as removing the name.
- Application start-up, the level logic's stages, prefabs, player data and the other systems are not part of this model.

## Findings

| source | as written | input that shows it | evidently intended | confidence | as-written member | corrected member |
|---|---|---|---|---|---|---|
| Source/Systems/DirX12RendererLogic.h:316 | the heap handle advances by `sizeof(lvlData.levelTransforms)` bytes (the size of a `std::vector` object), and line 344 likewise by `sizeof(lvlData.levelMaterials)` | one frame slot, a 24-byte vector object and a 32-byte descriptor increment: the material view is written 24 bytes into the transform view's descriptor | advance by the device's CBV/SRV/UAV descriptor increment, so that view `k` lands in descriptor `k` | medium (depends on the build's vector size and the device's increment; the draws bind both buffers as root views by GPU address at `Source/Systems/DirX12RendererLogic.cpp`:151-152, not through the heap, so the visible effect is probably nil), not executed | FrameResources.AsWrittenHandleMisplacesViews, FrameResources.AsWrittenTwoSlots | FrameResources.HandleAdvancedByIncrement |
