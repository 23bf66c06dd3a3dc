/**
 * The shape pipeline: draws a batch of shape nodes that share one quad with a
 * single instanced draw. Each call writes one `(model, color)` record per node
 * into the current slot of its instance buffer, binds the shared vertex,
 * instance and uniform buffers at vertex indices 0, 1 and 2, and draws the
 * quad's six indices once per node. The shared vertex data are uploaded
 * lazily, once, on the first call with a non-empty batch.
 */
module ShapeRendering {
  import opened Optional
  import opened LinearAlgebra
  import opened Nodes
  import opened RingBuffers
  import opened Commands

  /** The per-instance record: a model matrix and a colour. */
  datatype ShapeUniforms = ShapeUniforms(model: Mat4, color: Vec4)

  /** `MemoryLayout<ShapeUniforms>.size`: a float4x4 followed by a float4. */
  const ShapeUniformsSize: nat := Mat4Size + Vec4Size

  /** The instance buffer's slot length, `1000 * MemoryLayout<Mat4>.size`, fixed at construction. */
  const InstanceBufferLength: nat := 1000 * Mat4Size

  /** Indices of one quad: two triangles. */
  const QuadIndexCount: nat := 6

  /** The record written for `node`. */
  function Uniforms(node: ShapeNode): ShapeUniforms {
    ShapeUniforms(node.model, node.color.ToVec4())
  }

  /**
   * The slot bytes `cells` after the records of `nodes` were written one after
   * the other, node `i` at `base + i * ShapeUniformsSize`.
   */
  function PackInstances(cells: seq<Cell<ShapeUniforms>>, base: nat, nodes: seq<ShapeNode>): (r: seq<Cell<ShapeUniforms>>)
    requires base + |nodes| * ShapeUniformsSize <= |cells|
    ensures |r| == |cells|
    decreases |nodes|
  {
    if nodes == [] then cells
    else
      var n := |nodes| - 1;
      Written(PackInstances(cells, base, nodes[..n]), Uniforms(nodes[n]), base + n * ShapeUniformsSize, ShapeUniformsSize)
  }

  /** Record `i` occupies exactly `[base + i * s, base + (i + 1) * s)` and holds node `i`'s model and colour, in input order. */
  lemma {:induction false} PackInstancesLayout(cells: seq<Cell<ShapeUniforms>>, base: nat, nodes: seq<ShapeNode>, i: nat, k: nat)
    requires base + |nodes| * ShapeUniformsSize <= |cells|
    requires i < |nodes| && k < ShapeUniformsSize
    ensures PackInstances(cells, base, nodes)[base + i * ShapeUniformsSize + k] == Part(Uniforms(nodes[i]), k)
    decreases |nodes|
  {
    var n := |nodes| - 1;
    var prefix := PackInstances(cells, base, nodes[..n]);
    WrittenAt(prefix, Uniforms(nodes[n]), base + n * ShapeUniformsSize, ShapeUniformsSize);
    if i < n {
      MulMonotone(i + 1, n, ShapeUniformsSize);
      assert (i + 1) * ShapeUniformsSize == i * ShapeUniformsSize + ShapeUniformsSize;
      PackInstancesLayout(cells, base, nodes[..n], i, k);
    }
  }

  /** Bytes outside `[base, base + |nodes| * s)` are left as they were. */
  lemma {:induction false} PackInstancesFrame(cells: seq<Cell<ShapeUniforms>>, base: nat, nodes: seq<ShapeNode>, a: nat)
    requires base + |nodes| * ShapeUniformsSize <= |cells|
    requires a < |cells| && !(base <= a < base + |nodes| * ShapeUniformsSize)
    ensures PackInstances(cells, base, nodes)[a] == cells[a]
    decreases |nodes|
  {
    if nodes != [] {
      var n := |nodes| - 1;
      WrittenAt(PackInstances(cells, base, nodes[..n]), Uniforms(nodes[n]), base + n * ShapeUniformsSize, ShapeUniformsSize);
      PackInstancesFrame(cells, base, nodes[..n], a);
    }
  }

  /** Only slot `slot` is touched: every byte of the other slots keeps its value. */
  lemma PackInstancesOnlySlot(cells: seq<Cell<ShapeUniforms>>, slot: nat, length: nat, nodes: seq<ShapeNode>, a: nat)
    requires |nodes| * ShapeUniformsSize <= length && slot * length + length <= |cells|
    requires a < |cells| && !(slot * length <= a < slot * length + length)
    ensures PackInstances(cells, slot * length, nodes)[a] == cells[a]
  {
    PackInstancesFrame(cells, slot * length, nodes, a);
  }

  /** Each node's record reads back from its offset. */
  lemma PackInstancesReadBack(cells: seq<Cell<ShapeUniforms>>, base: nat, nodes: seq<ShapeNode>, i: nat)
    requires base + |nodes| * ShapeUniformsSize <= |cells|
    requires i < |nodes|
    ensures ReadBack(PackInstances(cells, base, nodes), base + i * ShapeUniformsSize, ShapeUniformsSize) == Some(Uniforms(nodes[i]))
  {
    var r := PackInstances(cells, base, nodes);
    var offset := base + i * ShapeUniformsSize;
    forall a | offset <= a < offset + ShapeUniformsSize
      ensures r[a] == Part(Uniforms(nodes[i]), a - offset)
    {
      PackInstancesLayout(cells, base, nodes, i, a - offset);
    }
    ReadBackBytes(r, Uniforms(nodes[i]), offset, ShapeUniformsSize);
  }

  /**
   * A slot of the instance buffer holds 800 records, not 1000: the slot is
   * sized for 1000 bare matrices, while each record also carries a colour.
   */
  lemma InstanceCapacity(count: nat)
    ensures count * ShapeUniformsSize <= InstanceBufferLength <==> count <= 800
  {
  }

  /** The commands one `encode` appends for a batch of `instanceCount` nodes in slot `slot`. */
  function ShapeCommands<I, U>(state: PipelineState, slot: nat, vertexBuffer: Buffer<Quad>,
                               instanceBuffer: Buffer<ShapeUniforms>, uniformBuffer: Buffer<U>,
                               indexBuffer: Buffer<I>, instanceCount: nat): seq<Command>
  {
    if instanceCount == 0 then []
    else
      [ SetRenderPipelineState(state),
        SetVertexBuffer(vertexBuffer, vertexBuffer.Next(slot).1, 0),
        SetVertexBuffer(instanceBuffer, instanceBuffer.Next(slot).1, 1),
        SetVertexBuffer(uniformBuffer, uniformBuffer.Next(slot).1, 2),
        DrawIndexedPrimitives(Triangle, QuadIndexCount, UInt16, indexBuffer, indexBuffer.Next(slot).1, instanceCount) ]
  }

  /**
   * An empty batch issues nothing; a non-empty one issues exactly one draw, last:
   * indexed triangles, six uint16 indices from the index buffer's slot, one
   * instance per node.
   */
  lemma ShapeCommandsDrawOnce<I, U>(state: PipelineState, slot: nat, vertexBuffer: Buffer<Quad>,
                                    instanceBuffer: Buffer<ShapeUniforms>, uniformBuffer: Buffer<U>,
                                    indexBuffer: Buffer<I>, instanceCount: nat)
    ensures var cmds := ShapeCommands(state, slot, vertexBuffer, instanceBuffer, uniformBuffer, indexBuffer, instanceCount);
            && (instanceCount == 0 ==> cmds == [])
            && (instanceCount > 0 ==>
                  && Draws(cmds) == [DrawIndexedPrimitives(Triangle, 6, UInt16, indexBuffer, slot * indexBuffer.length, instanceCount)]
                  && cmds[|cmds| - 1] == Draws(cmds)[0])
  {
    var cmds := ShapeCommands(state, slot, vertexBuffer, instanceBuffer, uniformBuffer, indexBuffer, instanceCount);
    if instanceCount > 0 {
      assert Draws(cmds[4..]) == [cmds[4]];
      assert Draws(cmds[3..]) == Draws(cmds[4..]);
      assert Draws(cmds[2..]) == Draws(cmds[3..]);
      assert Draws(cmds[1..]) == Draws(cmds[2..]);
    }
  }

  /**
   * The binding layout: the pipeline state comes first; then the vertex buffer
   * at index 0, the instance buffer at 1 and the uniform buffer at 2, each at the
   * offset `next` gives for the slot.
   */
  lemma ShapeCommandsBindingLayout<I, U>(state: PipelineState, slot: nat, vertexBuffer: Buffer<Quad>,
                                         instanceBuffer: Buffer<ShapeUniforms>, uniformBuffer: Buffer<U>,
                                         indexBuffer: Buffer<I>, instanceCount: nat)
    requires instanceCount > 0
    ensures var cmds := ShapeCommands(state, slot, vertexBuffer, instanceBuffer, uniformBuffer, indexBuffer, instanceCount);
            && cmds[0] == SetRenderPipelineState(state)
            && PipelineSetBeforeUse(cmds)
            && VertexBindings(cmds) == [SetVertexBuffer(vertexBuffer, slot * vertexBuffer.length, 0),
                                        SetVertexBuffer(instanceBuffer, slot * instanceBuffer.length, 1),
                                        SetVertexBuffer(uniformBuffer, slot * uniformBuffer.length, 2)]
  {
    var cmds := ShapeCommands(state, slot, vertexBuffer, instanceBuffer, uniformBuffer, indexBuffer, instanceCount);
    assert VertexBindings(cmds[4..]) == [];
    assert VertexBindings(cmds[3..]) == [cmds[3]];
    assert VertexBindings(cmds[2..]) == [cmds[2], cmds[3]];
    assert VertexBindings(cmds[1..]) == [cmds[1], cmds[2], cmds[3]];
  }

  class ShapePipeline {
    const pipelineState: PipelineState
    /** Whether the shared vertex data have been uploaded. */
    var didSetBuffer: bool
    const instanceBuffer: Buffer<ShapeUniforms>
    /** How many times the shared vertex data have been uploaded. */
    ghost var vertexUploads: nat

    ghost predicate Valid()
      reads this
    {
      && instanceBuffer.Valid()
      && instanceBuffer.length == InstanceBufferLength
      && vertexUploads == (if didSetBuffer then 1 else 0)
    }

    /**
     * `init`: the pipeline state is given (compiling it is not modelled); the
     * instance buffer has `frames` slots of `InstanceBufferLength` bytes.
     */
    constructor (pipelineState: PipelineState, frames: nat)
      ensures Valid() && fresh(instanceBuffer) && fresh(instanceBuffer.mem)
      ensures this.pipelineState == pipelineState && !didSetBuffer && vertexUploads == 0
      ensures instanceBuffer.instances == frames
    {
      this.pipelineState := pipelineState;
      didSetBuffer := false;
      instanceBuffer := new Buffer<ShapeUniforms>(InstanceBufferLength, frames);
      vertexUploads := 0;
    }

    /**
     * The `forEach` over `nodes.enumerated()` in `encode`: node `i`'s record is
     * copied into slot `bufferIndex` at byte `i * ShapeUniformsSize`.
     */
    method WriteInstances(bufferIndex: nat, nodes: seq<ShapeNode>)
      requires instanceBuffer.Valid() && bufferIndex < instanceBuffer.instances
      requires |nodes| * ShapeUniformsSize <= instanceBuffer.length
      modifies instanceBuffer.mem
      ensures bufferIndex * instanceBuffer.length + |nodes| * ShapeUniformsSize <= instanceBuffer.mem.Length
      ensures instanceBuffer.mem[..] == PackInstances(old(instanceBuffer.mem[..]), bufferIndex * instanceBuffer.length, nodes)
    {
      ghost var base := bufferIndex * instanceBuffer.length;
      ghost var before := instanceBuffer.mem[..];
      SlotInArena(bufferIndex, instanceBuffer.instances, instanceBuffer.length);
      var i := 0;
      while i < |nodes|
        invariant 0 <= i <= |nodes|
        invariant base + |nodes| * ShapeUniformsSize <= |before| == instanceBuffer.mem.Length
        invariant instanceBuffer.mem[..] == PackInstances(before, base, nodes[..i])
      {
        ghost var packed := PackInstances(before, base, nodes[..i]);
        instanceBuffer.Update(Uniforms(nodes[i]), ShapeUniformsSize, bufferIndex, ShapeUniformsSize * i);
        assert instanceBuffer.mem[..] == Written(packed, Uniforms(nodes[i]), base + i * ShapeUniformsSize, ShapeUniformsSize);
        assert nodes[..i + 1][..i] == nodes[..i];
        i := i + 1;
      }
      assert nodes[..|nodes|] == nodes;
    }

    /**
     * `encode`: draw `nodes` with one instanced draw, using slot `bufferIndex` of
     * every buffer. `lights` is accepted and not used. Nothing checks the batch
     * against the instance buffer's capacity, so the caller must keep it within.
     */
    method Encode<I, U, L>(encoder: RenderCommandEncoder, bufferIndex: nat,
                           vertexBuffer: Buffer<Quad>, indexBuffer: Buffer<I>, uniformBuffer: Buffer<U>,
                           nodes: seq<ShapeNode>, lights: Option<seq<L>>)
      requires Valid() && vertexBuffer.Valid()
      requires |nodes| > 0 ==> bufferIndex < instanceBuffer.instances
      requires |nodes| > 0 && !didSetBuffer ==> && bufferIndex < vertexBuffer.instances
                                                && QuadBytes(nodes[0].quad) <= vertexBuffer.length
      requires |nodes| * ShapeUniformsSize <= instanceBuffer.length
      modifies this, encoder, vertexBuffer.mem, instanceBuffer.mem
      ensures Valid()
      // an empty batch changes nothing
      ensures |nodes| == 0 ==> && didSetBuffer == old(didSetBuffer)
                               && encoder.log == old(encoder.log)
                               && vertexBuffer.mem[..] == old(vertexBuffer.mem[..])
                               && instanceBuffer.mem[..] == old(instanceBuffer.mem[..])
      // the shared vertex data are uploaded on the first non-empty batch only, from its first node
      ensures old(didSetBuffer) ==> didSetBuffer
      ensures |nodes| > 0 ==> didSetBuffer
      ensures vertexBuffer.mem[..] ==
                if |nodes| > 0 && !old(didSetBuffer)
                then Written(old(vertexBuffer.mem[..]), nodes[0].quad, bufferIndex * vertexBuffer.length, QuadBytes(nodes[0].quad))
                else old(vertexBuffer.mem[..])
      // the records of the batch, in order, in slot `bufferIndex`
      ensures |nodes| > 0 ==>
                instanceBuffer.mem[..] == PackInstances(old(instanceBuffer.mem[..]), bufferIndex * instanceBuffer.length, nodes)
      ensures encoder.log == old(encoder.log) + ShapeCommands(pipelineState, bufferIndex, vertexBuffer, instanceBuffer,
                                                              uniformBuffer, indexBuffer, |nodes|)
    {
      if |nodes| == 0 {
        return;
      }
      var node := nodes[0];

      encoder.SetRenderPipelineState(pipelineState);

      if !didSetBuffer {
        didSetBuffer := true;
        vertexUploads := vertexUploads + 1;
        vertexBuffer.Update(node.quad, QuadBytes(node.quad), bufferIndex, 0);
      }
      var vertexBinding := vertexBuffer.Next(bufferIndex);
      encoder.SetVertexBuffer(vertexBinding.0, vertexBinding.1, 0);

      WriteInstances(bufferIndex, nodes);
      var instanceBinding := instanceBuffer.Next(bufferIndex);
      encoder.SetVertexBuffer(instanceBinding.0, instanceBinding.1, 1);

      var uniformBinding := uniformBuffer.Next(bufferIndex);
      encoder.SetVertexBuffer(uniformBinding.0, uniformBinding.1, 2);

      var indexBinding := indexBuffer.Next(bufferIndex);
      encoder.DrawIndexedPrimitives(Triangle, QuadIndexCount, UInt16, indexBinding.0, indexBinding.1, |nodes|);
    }
  }
}
