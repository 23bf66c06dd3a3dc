/**
 * A render command encoder, reduced to the log of commands it has been given.
 * The pipelines only ever append to it, so each encode operation is specified
 * by the commands it appends.
 */
module Commands {
  import opened LinearAlgebra

  datatype PrimitiveType = Triangle

  datatype IndexType = UInt16

  /** A compiled pipeline state object, built once at pipeline construction; only its identity matters. */
  datatype PipelineState = PipelineState(id: nat)

  /** One encoder call; buffer handles are the buffer objects themselves. */
  datatype Command =
    | PushDebugGroup(name: string)
    | PopDebugGroup
    | SetRenderPipelineState(state: PipelineState)
    | SetVertexBuffer(buffer: object, offset: nat, index: nat)
    | SetFragmentBytes(bytes: Vec4, length: nat, index: nat)
    | DrawIndexedPrimitives(primitive: PrimitiveType, indexCount: nat, indexType: IndexType,
                            indexBuffer: object, indexBufferOffset: nat, instanceCount: nat)
    | DrawPrimitives(primitive: PrimitiveType, vertexStart: nat, vertexCount: nat)
  {
    predicate IsDraw() {
      DrawIndexedPrimitives? || DrawPrimitives?
    }

    /** A binding or a draw: a command that needs a pipeline state to have been set. */
    predicate UsesPipeline() {
      SetVertexBuffer? || SetFragmentBytes? || IsDraw()
    }
  }

  /** The draw commands of a log, in order. */
  function Draws(log: seq<Command>): (r: seq<Command>)
    ensures |r| <= |log|
    ensures forall i :: 0 <= i < |r| ==> r[i].IsDraw() && r[i] in log
    ensures forall i :: 0 <= i < |log| && log[i].IsDraw() ==> log[i] in r
  {
    if log == [] then []
    else (if log[0].IsDraw() then [log[0]] else []) + Draws(log[1..])
  }

  /** The vertex-buffer bindings of a log, in order. */
  function VertexBindings(log: seq<Command>): (r: seq<Command>)
    ensures |r| <= |log|
    ensures forall i :: 0 <= i < |r| ==> r[i].SetVertexBuffer? && r[i] in log
    ensures forall i :: 0 <= i < |log| && log[i].SetVertexBuffer? ==> log[i] in r
  {
    if log == [] then []
    else (if log[0].SetVertexBuffer? then [log[0]] else []) + VertexBindings(log[1..])
  }

  /** Every binding and draw comes after some pipeline state was set. */
  ghost predicate PipelineSetBeforeUse(log: seq<Command>) {
    forall i :: 0 <= i < |log| && log[i].UsesPipeline() ==>
      exists j :: 0 <= j < i && log[j].SetRenderPipelineState?
  }

  /** Debug groups open at the end of `log`. */
  function DebugDepth(log: seq<Command>): int {
    if log == [] then 0
    else DebugDepth(log[..|log| - 1]) + (match log[|log| - 1]
                                           case PushDebugGroup(_) => 1
                                           case PopDebugGroup => -1
                                           case _ => 0)
  }

  /** No pop without a matching push, and every push popped by the end. */
  ghost predicate DebugGroupsBalanced(log: seq<Command>) {
    (forall n :: 0 <= n <= |log| ==> DebugDepth(log[..n]) >= 0) && DebugDepth(log) == 0
  }

  class RenderCommandEncoder {
    /** Every command given to this encoder, oldest first. */
    ghost var log: seq<Command>

    constructor ()
      ensures log == []
    {
      log := [];
    }

    method PushDebugGroup(name: string)
      modifies this
      ensures log == old(log) + [Command.PushDebugGroup(name)]
    {
      log := log + [Command.PushDebugGroup(name)];
    }

    method PopDebugGroup()
      modifies this
      ensures log == old(log) + [Command.PopDebugGroup]
    {
      log := log + [Command.PopDebugGroup];
    }

    method SetRenderPipelineState(state: PipelineState)
      modifies this
      ensures log == old(log) + [Command.SetRenderPipelineState(state)]
    {
      log := log + [Command.SetRenderPipelineState(state)];
    }

    method SetVertexBuffer(buffer: object, offset: nat, index: nat)
      modifies this
      ensures log == old(log) + [Command.SetVertexBuffer(buffer, offset, index)]
    {
      log := log + [Command.SetVertexBuffer(buffer, offset, index)];
    }

    method SetFragmentBytes(bytes: Vec4, length: nat, index: nat)
      modifies this
      ensures log == old(log) + [Command.SetFragmentBytes(bytes, length, index)]
    {
      log := log + [Command.SetFragmentBytes(bytes, length, index)];
    }

    method DrawIndexedPrimitives(primitive: PrimitiveType, indexCount: nat, indexType: IndexType,
                                 indexBuffer: object, indexBufferOffset: nat, instanceCount: nat)
      modifies this
      ensures log == old(log) + [Command.DrawIndexedPrimitives(primitive, indexCount, indexType,
                                                               indexBuffer, indexBufferOffset, instanceCount)]
    {
      log := log + [Command.DrawIndexedPrimitives(primitive, indexCount, indexType,
                                                  indexBuffer, indexBufferOffset, instanceCount)];
    }

    method DrawPrimitives(primitive: PrimitiveType, vertexStart: nat, vertexCount: nat)
      modifies this
      ensures log == old(log) + [Command.DrawPrimitives(primitive, vertexStart, vertexCount)]
    {
      log := log + [Command.DrawPrimitives(primitive, vertexStart, vertexCount)];
    }
  }
}
