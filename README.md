# GameEngine render core, in Dafny

This project models the part of the GameEngine renderer that packs per-frame
data into slotted GPU buffers and issues fixed command sequences. It covers
three pieces.

- **The shape pipeline** (`ShapeRendering`, shape_pipeline.dfy). `encode`
  draws a batch of shape nodes with one instanced draw.
  - The shared quad vertices are uploaded lazily, once, guarded by
    `didSetBuffer`.
  - One `(model, color)` record per node is written into slot `bufferIndex`
    of the instance buffer, at `i * sizeof(ShapeUniforms)`.
  - The vertex, instance and uniform buffers are bound at indices 0, 1 and 2.
  - Six `uint16` indices are drawn once per node.
- **Renderable nodes** (`Renderables`, renderable.dfy). `decompose` composes
  a node's model matrix with its parent's. `updateSize` rewrites the node's
  vertex data in place.
- **The composition pass** (`Composition`, composition_pipeline.dfy). It
  holds a constant full-screen quad in a one-slot buffer. Its `encode` is a
  fixed sequence of six encoder calls inside one debug group.

The supporting modules are these:

- `LinearAlgebra`: simd vectors and column-major matrices over `real`.
- `Nodes`: colours, sizes, quads and shape nodes.
- `RingBuffers`: the renderer's `Buffer`, an arena of `instances` slots of
  `length` bytes. Memory is an array of cells; a cell is blank or "byte `k` of
  a copy of value `v`". `Written` describes a `memcpy` and `ReadBack` recovers
  a copied value.
- `Commands`: the Metal render command encoder, reduced to the ghost log of
  the commands it has received. Each encode method is specified by exactly
  what it appends to that log.

The instance buffer's slot is `1000 * MemoryLayout<Mat4>.size` = 64000
bytes. Each record is a `Mat4` plus a `Vec4`, so 80 bytes. A slot therefore
holds 800 records, not the 1000 the sizing suggests, and `encode` does not
check the batch size. The model follows the code. `ShapePipeline.Encode`
requires `|nodes| * 80 <= instanceBuffer.length`, and `InstanceCapacity`
states the 800 bound.

## Model

| member | source | states |
|---|---|---|
| LinearAlgebra.Mul3NotCommutative | src/private/Renderable.swift:92-94 | There are 3×3 matrices `a`, `b` with `a * b != b * a`, so the order of the rot/scale product matters. |
| RingBuffers.Written | GameEngine/Views/Renderer/Pipelines/ShapePipeline.swift:47 | A copy into the arena keeps the arena's length. |
| RingBuffers.WrittenAt | GameEngine/Views/Renderer/Pipelines/ShapePipeline.swift:54-57 | After copying `n` bytes of `p` to `offset`, bytes in `[offset, offset + n)` hold `p`'s bytes in order, and every other byte is unchanged. |
| RingBuffers.ReadBack | GameEngine/Views/Renderer/Pipelines/ShapePipeline.swift:54-57 | A value is read back only from an in-bounds, non-empty range whose bytes are exactly that value's bytes in order. |
| RingBuffers.ReadBackBytes | GameEngine/Views/Renderer/Pipelines/ShapePipeline.swift:54-57 | A range holding exactly `p`'s bytes in order reads back as `p`. |
| RingBuffers.ReadBackWritten | GameEngine/Views/Renderer/Pipelines/ShapePipeline.swift:54-57 | Round trip: a copied value reads back as itself from where it was copied. |
| RingBuffers.ReadBackDisjoint | GameEngine/Views/Renderer/Pipelines/ShapePipeline.swift:54-57 | A copy does not change what reads back from any range disjoint from it. |
| RingBuffers.MulMonotone | GameEngine/Views/Renderer/Pipelines/ShapePipeline.swift:57 | Byte offsets `i * size` grow with `i`. |
| RingBuffers.SlotInArena | GameEngine/Views/Renderer/Pipelines/ShapePipeline.swift:49 | Slot `s < instances` lies wholly inside the arena of `instances * length` bytes. |
| RingBuffers.SlotsDisjoint | GameEngine/Views/Renderer/Pipelines/ShapePipeline.swift:49 | The byte ranges of two different slots do not overlap. |
| RingBuffers.Buffer.constructor | GameEngine/Views/Renderer/Pipelines/ShapePipeline.swift:29 | A new buffer has `instances * length` bytes, all blank. |
| RingBuffers.Buffer.Update | GameEngine/Views/Renderer/Pipelines/ShapePipeline.swift:54-57 | `update` requires `offset + size <= length` and a valid slot. It copies `size` bytes of `data` to `slot * length + offset` and changes nothing else. |
| Commands.Draws | GameEngine/Views/Renderer/Pipelines/ShapePipeline.swift:66-71 | A command of the log is among its draws if and only if it is a draw. |
| Commands.VertexBindings | GameEngine/Views/Renderer/Pipelines/ShapePipeline.swift:50 | A command of the log is among its vertex bindings if and only if it is a vertex binding. |
| Commands.RenderCommandEncoder.constructor | src/private/CompositionPipeline.swift:51 | A new encoder has an empty log. |
| Commands.RenderCommandEncoder.PushDebugGroup | src/private/CompositionPipeline.swift:52 | Appends exactly one push of the named group. |
| Commands.RenderCommandEncoder.PopDebugGroup | src/private/CompositionPipeline.swift:64 | Appends exactly one pop. |
| Commands.RenderCommandEncoder.SetRenderPipelineState | GameEngine/Views/Renderer/Pipelines/ShapePipeline.swift:43 | Appends exactly one pipeline-state command. |
| Commands.RenderCommandEncoder.SetVertexBuffer | GameEngine/Views/Renderer/Pipelines/ShapePipeline.swift:50 | Appends exactly one vertex binding with the given buffer, offset and index. |
| Commands.RenderCommandEncoder.SetFragmentBytes | src/private/CompositionPipeline.swift:60 | Appends exactly one fragment constant with the given bytes, length and index. |
| Commands.RenderCommandEncoder.DrawIndexedPrimitives | GameEngine/Views/Renderer/Pipelines/ShapePipeline.swift:66-71 | Appends exactly one indexed draw with the given arguments. |
| Commands.RenderCommandEncoder.DrawPrimitives | src/private/CompositionPipeline.swift:62 | Appends exactly one non-indexed draw with the given arguments. |
| ShapeRendering.PackInstances | GameEngine/Views/Renderer/Pipelines/ShapePipeline.swift:52-58 | Writing the batch's records keeps the arena's length. |
| ShapeRendering.PackInstancesLayout | GameEngine/Views/Renderer/Pipelines/ShapePipeline.swift:52-58 | After the loop, byte `k` of record `i` (at `base + i * 80 + k`) is byte `k` of node `i`'s `(model, color.vec4)`, in input order. |
| ShapeRendering.PackInstancesFrame | GameEngine/Views/Renderer/Pipelines/ShapePipeline.swift:54-57 | The loop changes no byte outside `[base, base + count * 80)`. |
| ShapeRendering.PackInstancesOnlySlot | GameEngine/Views/Renderer/Pipelines/ShapePipeline.swift:56 | Only slot `bufferIndex` is touched: every byte of every other slot keeps its value. |
| ShapeRendering.PackInstancesReadBack | GameEngine/Views/Renderer/Pipelines/ShapePipeline.swift:52-58 | Record `i` reads back from `base + i * 80` as node `i`'s `(model, color.vec4)`. |
| ShapeRendering.InstanceCapacity | GameEngine/Views/Renderer/Pipelines/ShapePipeline.swift:29 | A batch of `count` records fits the 64000-byte slot if and only if `count <= 800`. |
| ShapeRendering.ShapeCommandsDrawOnce | GameEngine/Views/Renderer/Pipelines/ShapePipeline.swift:65-71 | An empty batch issues no command. A non-empty batch issues exactly one draw, as its last command: indexed triangles, 6 `uint16` indices from the index buffer's slot, `nodes.count` instances. |
| ShapeRendering.ShapeCommandsBindingLayout | GameEngine/Views/Renderer/Pipelines/ShapePipeline.swift:43-63 | The pipeline state is set first and before every binding and draw. The bindings are, in order, the vertex, instance and uniform buffers at indices 0, 1 and 2, each at `next(bufferIndex)`'s offset. |
| ShapeRendering.ShapePipeline.constructor | GameEngine/Views/Renderer/Pipelines/ShapePipeline.swift:20-30 | `didSetBuffer` starts false. The instance buffer is fresh, with slots of `1000 * sizeof(Mat4)` bytes. |
| ShapeRendering.ShapePipeline.WriteInstances | GameEngine/Views/Renderer/Pipelines/ShapePipeline.swift:52-58 | The `forEach` loop leaves the instance arena equal to `PackInstances` of the old arena at slot `bufferIndex`. |
| ShapeRendering.ShapePipeline.Encode | GameEngine/Views/Renderer/Pipelines/ShapePipeline.swift:34-72 | An empty batch changes nothing: no flag, buffer or log change. The vertex data are uploaded only on the first non-empty batch, from its first node's quad; `didSetBuffer` then stays true and at most one upload ever happens. The instance arena is `PackInstances` of the batch. The log gains exactly `ShapeCommands`. `lights` affects nothing. |
| Renderables.Decompose | src/private/Renderable.swift:91-108 | The rot/scale block is `parent.mat3 * model.mat3`, parent on the left. Translation x and y are the sums of the two translations, z is the node's own `z`, w is 1, and the first three columns have w = 0. |
| Renderables.DecomposeDepthIsOwn | src/private/Renderable.swift:96-100 | The result does not depend on either matrix's translation z. |
| Renderables.DecomposeOrderMatters | src/private/Renderable.swift:92-94 | Some parent and model matrices give a rot/scale block different from `model.mat3 * parent.mat3`. |
| Renderables.ColumnIsProduct | src/private/Renderable.swift:102-104 | An affine matrix maps a direction column through its 3×3 block. |
| Renderables.DecomposeColumnsAreProduct | src/private/Renderable.swift:102-104 | For affine inputs, the result's first three columns equal those of the full product `parentMatrix * modelMatrix`. |
| Renderables.DecomposeOfTranslationIsProduct | src/private/Renderable.swift:91-108 | When the parent only translates, `decompose` equals `parentMatrix * modelMatrix` with the depth replaced by the node's `z`. |
| Renderables.QuadFor | src/private/Renderable.swift:115-121 | The quad has the node's size, and is `.rect` if and only if there is no texture. |
| Renderables.NodeGeometry.constructor | src/private/Renderable.swift:42-54 | A node with the given size, texture, renderability and vertex buffer. |
| Renderables.NodeGeometry.UpdateSize | src/private/Renderable.swift:112-125 | A non-renderable node's vertex buffer is unchanged. Otherwise the quad's bytes overwrite the start of the same buffer in place, nothing else changes, and the quad reads back from offset 0. |
| Composition.QuadVerticesShape | src/private/CompositionPipeline.swift:32-40 | The quad has 6 vertices with every coordinate -1 or 1. All four corners appear. The two triangles share the diagonal from (1, -1) to (-1, 1). |
| Composition.QuadCoversClipSpace | src/private/CompositionPipeline.swift:32-40 | Every point of the square [-1, 1]² is a convex combination of the vertices of one of the two triangles. |
| Composition.CompositionCommandsBalanced | src/private/CompositionPipeline.swift:52-64 | The pass opens its debug group first and closes it last. The group is open at depth 1 throughout, and the pushes and pops balance. |
| Composition.CompositionCommandsBindings | src/private/CompositionPipeline.swift:54-60 | The pipeline state is set before every binding and draw. The only vertex binding is the quad's slot 0 at index 0. |
| Composition.CompositionCommandsFragmentConstant | src/private/CompositionPipeline.swift:59-60 | The pass passes `ambientColor.vec4`, 16 bytes, as fragment constant 0, and passes no other fragment constant. |
| Composition.CompositionCommandsDrawOnce | src/private/CompositionPipeline.swift:62 | The pass draws exactly once: non-indexed triangles, 6 vertices from vertex 0. |
| Composition.CompositionPipeline.constructor | src/private/CompositionPipeline.swift:21-29 | The quad buffer is fresh, has one slot of `stride(Vec2) * 6` bytes, and holds the quad. |
| Composition.CompositionPipeline.CreateQuad | src/private/CompositionPipeline.swift:31-47 | The buffer has 1 slot of 48 bytes, filled entirely with the quad's vertex data, which read back from offset 0. |
| Composition.CompositionPipeline.Encode | src/private/CompositionPipeline.swift:51-65 | The log gains exactly the six composition commands, and the quad buffer is unchanged. |

## Left out

- Metal device, pipeline-descriptor and pipeline-state creation, including the force-unwrapped `createPipelineState(...)!`: these are GPU API calls. A pipeline state is given to the constructors as an opaque identity.
- `setupBuffers` (src/private/Renderable.swift:84-89): a device buffer allocation. A node's vertex buffer is given to its constructor.
- The commented-out per-node `draw` in src/private/Renderable.swift: dead code.
- The internals of `Quad`, `UIColor.vec4` and `Buffer`, whose sources are not part of this model.
  - A quad's vertex data are taken as 4 vertices of 16 bytes (rect) or 32 bytes (sprite). The proofs rely only on these sizes being positive.
  - `UIColor.vec4` is taken as the colour's components in order.
  - `Buffer` is specified only by what its call sites rely on: `update` copies within a slot, and `next` returns the buffer and `slot * length`.
  - The number of slots `Buffer(device:length:)` allocates by default is not shown, so it is a constructor parameter.
  - Byte values are abstract: memory records which byte of which copied value each cell holds, not its bit pattern.
- `Vec4(vec3:)` is taken to give a direction column (w = 0). `DecomposeColumnsAreProduct` shows that this matches the full 4×4 product for affine matrices.
- Renderables.Decompose: the computation is over `real`, so IEEE float rounding is not modelled.
- Frames in flight and slot reuse: CPU/GPU synchronisation is concurrency, and its mechanism is not in the modelled code. `bufferIndex` is an argument.
- Renderables.NodeGeometry.UpdateSize: requires the new quad's vertex data to fit the existing vertex buffer. The `memcpy` does not check this bound. A node whose buffer was sized for a rect and that later gains a texture needs more bytes than its buffer holds. The model does not describe that overflow.
- ShapeRendering.ShapePipeline.Encode: `lights` is accepted as a parameter of any type and has no effect, as in the code. Light nodes themselves are not modelled.
- ShapeRendering.ShapePipeline.Encode: the vertex upload is modelled as writing slot `bufferIndex` of the vertex buffer, as the call site passes it. Which slots later frames bind depends on `Buffer` internals that are not part of this model.
- The encoder is reduced to its log: GPU execution of the commands, and the shaders, are not modelled. Shader program names are string constants and are left out.
- src/public/Scene.swift, src/public/GameView.swift and src/public/GESprite.swift: game-loop glue, UI lifecycle and initialisers. They are not part of this model.
