/** Optional values, for a texture that may be absent and for reading data back. */
module Optional {
  datatype Option<+T> = None | Some(value: T)
}

/**
 * The node-side values the pipelines consume: colours, extents, textures,
 * the quad geometry of a node and the shape nodes handed to the shape pipeline.
 */
module Nodes {
  import opened LinearAlgebra

  /** A node's extent (`CGSize`). */
  datatype Size = Size(width: real, height: real)

  /** A colour by its components; `ToVec4` is `UIColor.vec4`. */
  datatype Color = Color(red: real, green: real, blue: real, alpha: real) {
    function ToVec4(): Vec4 {
      Vec4(red, green, blue, alpha)
    }
  }

  /** A loaded texture; only its identity matters to the core. */
  datatype Texture = Texture(id: nat)

  /** `Quad.rect(size)` (untextured) or `Quad.spriteRect(size)` (with texture coordinates). */
  datatype QuadKind = Rect | SpriteRect

  datatype Quad = Quad(kind: QuadKind, extent: Size)

  /** Every default renderable is a rectangle of four vertices. */
  const VerticesPerQuad: nat := 4

  /** Bytes of one vertex: a float4 position, plus a texture coordinate padded to float4 for sprites. */
  function VertexStride(kind: QuadKind): nat {
    match kind
    case Rect => Vec4Size
    case SpriteRect => 2 * Vec4Size
  }

  /** `quad.size` and `[quad].vertexSize`: the bytes of a quad's vertex data. */
  function QuadBytes(q: Quad): nat {
    VerticesPerQuad * VertexStride(q.kind)
  }

  /** What the shape pipeline reads of a `ShapeNode`: its model matrix, colour and quad. */
  datatype ShapeNode = ShapeNode(model: Mat4, color: Color, quad: Quad)
}
