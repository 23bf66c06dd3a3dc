/**
 * The composition pass: one full-screen quad, stored once in a single-slot
 * buffer, drawn with the scene's ambient colour as a fragment constant.
 */
module Composition {
  import opened Optional
  import opened LinearAlgebra
  import opened Nodes
  import opened RingBuffers
  import opened Commands

  /** `createQuad`'s vertex data: two triangles covering clip space. */
  const QuadVertices: seq<Vec2> :=
    [ Vec2(-1.0, -1.0), Vec2(1.0, -1.0), Vec2(-1.0, 1.0),
      Vec2(1.0, -1.0), Vec2(1.0, 1.0), Vec2(-1.0, 1.0) ]

  /** Vertices drawn by the composition pass. */
  const QuadVertexCount: nat := 6

  const DebugGroupName: string := "composition encoder"

  /** Every coordinate of the quad is -1 or 1. */
  predicate IsCorner(v: Vec2) {
    (v.x == -1.0 || v.x == 1.0) && (v.y == -1.0 || v.y == 1.0)
  }

  /**
   * Six vertices, all at corners of clip space, every corner among them; the
   * two triangles share the diagonal from (1, -1) to (-1, 1).
   */
  lemma QuadVerticesShape()
    ensures |QuadVertices| == QuadVertexCount
    ensures forall i :: 0 <= i < |QuadVertices| ==> IsCorner(QuadVertices[i])
    ensures forall x: real, y: real :: IsCorner(Vec2(x, y)) ==> Vec2(x, y) in QuadVertices
    ensures QuadVertices[1] == QuadVertices[3] && QuadVertices[2] == QuadVertices[5]
  {
    forall x: real, y: real | IsCorner(Vec2(x, y))
      ensures Vec2(x, y) in QuadVertices
    {
      if x == -1.0 && y == -1.0 {
        assert QuadVertices[0] == Vec2(x, y);
      } else if x == 1.0 && y == -1.0 {
        assert QuadVertices[1] == Vec2(x, y);
      } else if x == -1.0 {
        assert QuadVertices[2] == Vec2(x, y);
      } else {
        assert QuadVertices[4] == Vec2(x, y);
      }
    }
  }

  /** The point `a * p + b * q + c * r`. */
  function Combine(a: real, p: Vec2, b: real, q: Vec2, c: real, r: Vec2): Vec2 {
    Vec2(a * p.x + b * q.x + c * r.x, a * p.y + b * q.y + c * r.y)
  }

  /**
   * The two triangles cover the whole clip-space square: every point of it is a
   * convex combination of the vertices of triangle `t` (vertices `3t .. 3t + 2`).
   */
  lemma QuadCoversClipSpace(p: Vec2) returns (t: nat, a: real, b: real, c: real)
    requires -1.0 <= p.x <= 1.0 && -1.0 <= p.y <= 1.0
    ensures t < 2 && 0.0 <= a && 0.0 <= b && 0.0 <= c && a + b + c == 1.0
    ensures p == Combine(a, QuadVertices[3 * t], b, QuadVertices[3 * t + 1], c, QuadVertices[3 * t + 2])
  {
    if p.x + p.y <= 0.0 {
      t, a, b, c := 0, -(p.x + p.y) / 2.0, (p.x + 1.0) / 2.0, (p.y + 1.0) / 2.0;
    } else {
      t, a, b, c := 1, (1.0 - p.y) / 2.0, (p.x + p.y) / 2.0, (1.0 - p.x) / 2.0;
    }
  }

  /** The commands one `encode` appends. */
  function CompositionCommands(state: PipelineState, quadBuffer: Buffer<seq<Vec2>>, ambientColor: Color): seq<Command> {
    [ PushDebugGroup(DebugGroupName),
      SetRenderPipelineState(state),
      SetVertexBuffer(quadBuffer, 0, 0),
      SetFragmentBytes(ambientColor.ToVec4(), Vec4Size, 0),
      DrawPrimitives(Triangle, 0, QuadVertexCount),
      PopDebugGroup ]
  }

  /** The whole pass sits in one debug group, opened first and closed last. */
  lemma CompositionCommandsBalanced(state: PipelineState, quadBuffer: Buffer<seq<Vec2>>, ambientColor: Color)
    ensures var cmds := CompositionCommands(state, quadBuffer, ambientColor);
            && DebugGroupsBalanced(cmds)
            && cmds[0] == PushDebugGroup(DebugGroupName) && cmds[|cmds| - 1] == PopDebugGroup
            && forall n :: 0 < n < |cmds| ==> DebugDepth(cmds[..n]) == 1
  {
    var cmds := CompositionCommands(state, quadBuffer, ambientColor);
    assert DebugDepth(cmds[..1]) == 1 by { assert cmds[..1][..0] == []; }
    assert DebugDepth(cmds[..2]) == 1 by { assert cmds[..2][..1] == cmds[..1]; }
    assert DebugDepth(cmds[..3]) == 1 by { assert cmds[..3][..2] == cmds[..2]; }
    assert DebugDepth(cmds[..4]) == 1 by { assert cmds[..4][..3] == cmds[..3]; }
    assert DebugDepth(cmds[..5]) == 1 by { assert cmds[..5][..4] == cmds[..4]; }
    assert DebugDepth(cmds) == 0 by { assert cmds[..5] == cmds[..|cmds| - 1]; }
    assert cmds[..6] == cmds;
  }

  /**
   * The pipeline state is set before any binding or draw, and the quad's slot 0
   * is the only vertex binding, at index 0.
   */
  lemma CompositionCommandsBindings(state: PipelineState, quadBuffer: Buffer<seq<Vec2>>, ambientColor: Color)
    ensures var cmds := CompositionCommands(state, quadBuffer, ambientColor);
            && PipelineSetBeforeUse(cmds)
            && VertexBindings(cmds) == [SetVertexBuffer(quadBuffer, quadBuffer.Next(0).1, 0)]
  {
    var cmds := CompositionCommands(state, quadBuffer, ambientColor);
    assert cmds[1].SetRenderPipelineState?;
    assert VertexBindings(cmds[3..]) == [] by {
      assert VertexBindings(cmds[5..]) == [];
      assert cmds[3..][1..] == cmds[4..] && cmds[4..][1..] == cmds[5..];
    }
    assert cmds[2..][1..] == cmds[3..];
    assert VertexBindings(cmds[2..]) == [cmds[2]];
    assert cmds[1..][1..] == cmds[2..];
    assert VertexBindings(cmds) == VertexBindings(cmds[1..]) == VertexBindings(cmds[2..]);
    assert quadBuffer.Next(0).1 == 0;
  }

  /** The ambient colour is the fragment constant at index 0, and the only one. */
  lemma CompositionCommandsFragmentConstant(state: PipelineState, quadBuffer: Buffer<seq<Vec2>>, ambientColor: Color)
    ensures var cmds := CompositionCommands(state, quadBuffer, ambientColor);
            && SetFragmentBytes(ambientColor.ToVec4(), 16, 0) in cmds
            && forall i :: 0 <= i < |cmds| && cmds[i].SetFragmentBytes? ==>
                 cmds[i] == SetFragmentBytes(ambientColor.ToVec4(), 16, 0)
  {
    var cmds := CompositionCommands(state, quadBuffer, ambientColor);
    assert cmds[3] == SetFragmentBytes(ambientColor.ToVec4(), 16, 0);
  }

  /** Exactly one draw: non-indexed triangles, six vertices from vertex 0. */
  lemma CompositionCommandsDrawOnce(state: PipelineState, quadBuffer: Buffer<seq<Vec2>>, ambientColor: Color)
    ensures Draws(CompositionCommands(state, quadBuffer, ambientColor)) == [DrawPrimitives(Triangle, 0, 6)]
  {
    var cmds := CompositionCommands(state, quadBuffer, ambientColor);
    assert Draws(cmds[5..]) == [];
    assert Draws(cmds[4..]) == [cmds[4]];
    assert Draws(cmds[3..]) == Draws(cmds[4..]);
    assert Draws(cmds[2..]) == Draws(cmds[3..]);
    assert Draws(cmds[1..]) == Draws(cmds[2..]);
  }

  class CompositionPipeline {
    const pipelineState: PipelineState
    const quadBuffer: Buffer<seq<Vec2>>

    /** One slot exactly the size of the quad's data, holding that data. */
    ghost predicate Valid()
      reads quadBuffer.mem
    {
      && quadBuffer.Valid()
      && quadBuffer.instances == 1
      && quadBuffer.length == Vec2Stride * QuadVertexCount
      && ReadBack(quadBuffer.mem[..], 0, quadBuffer.length) == Some(QuadVertices)
    }

    /** `init`: the pipeline state is given (compiling it is not modelled); the quad is built here. */
    constructor (pipelineState: PipelineState)
      ensures Valid() && fresh(quadBuffer) && fresh(quadBuffer.mem)
      ensures this.pipelineState == pipelineState
    {
      var quad := CreateQuad();
      this.pipelineState := pipelineState;
      quadBuffer := quad;
    }

    /**
     * `createQuad`: a one-slot buffer of `stride(Vec2) * 6` bytes, filled with
     * the quad's vertices.
     */
    static method CreateQuad() returns (buffer: Buffer<seq<Vec2>>)
      ensures fresh(buffer) && fresh(buffer.mem) && buffer.Valid()
      ensures buffer.instances == 1 && buffer.length == 48
      ensures buffer.mem[..] == Bytes(QuadVertices, 48)
      ensures ReadBack(buffer.mem[..], 0, 48) == Some(QuadVertices)
    {
      var quadData := QuadVertices;
      var bufferSize := Vec2Stride * |quadData|;
      buffer := new Buffer<seq<Vec2>>(bufferSize, 1);
      ghost var blank := buffer.mem[..];
      buffer.Update(quadData, bufferSize, 0, 0);
      WrittenAt(blank, quadData, 0, bufferSize);
      assert buffer.mem[..] == Bytes(quadData, bufferSize);
      ReadBackWritten(blank, quadData, 0, bufferSize);
    }

    /** `encode`: the fixed composition sequence; the quad buffer is left as it is. */
    method Encode(encoder: RenderCommandEncoder, ambientColor: Color)
      requires Valid()
      modifies encoder
      ensures Valid() && quadBuffer.mem[..] == old(quadBuffer.mem[..])
      ensures encoder.log == old(encoder.log) + CompositionCommands(pipelineState, quadBuffer, ambientColor)
    {
      encoder.PushDebugGroup(DebugGroupName);

      encoder.SetRenderPipelineState(pipelineState);

      var binding := quadBuffer.Next(0);
      encoder.SetVertexBuffer(binding.0, binding.1, 0);

      var color := ambientColor.ToVec4();
      encoder.SetFragmentBytes(color, Vec4Size, 0);

      encoder.DrawPrimitives(Triangle, 0, QuadVertexCount);

      encoder.PopDebugGroup();
    }
  }
}
