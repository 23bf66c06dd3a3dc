/**
 * What every renderable node provides to the pipelines: the composition of its
 * model matrix with its parent's (`decompose`), and the refresh of its vertex
 * data in place when its size changes (`updateSize`).
 */
module Renderables {
  import opened Optional
  import opened LinearAlgebra
  import opened Nodes
  import opened RingBuffers

  /**
   * `decompose(parentMatrix:)` of a node with model matrix `modelMatrix` and
   * depth `z`: the rotation/scale blocks multiply, parent on the left; the
   * translations add, except that depth is the node's own and the homogeneous
   * component is 1.
   */
  function Decompose(parentMatrix: Mat4, modelMatrix: Mat4, z: real): (r: Mat4)
    ensures Upper3(r) == Mul3(Upper3(parentMatrix), Upper3(modelMatrix))
    ensures r.c3.x == parentMatrix.c3.x + modelMatrix.c3.x
    ensures r.c3.y == parentMatrix.c3.y + modelMatrix.c3.y
    ensures r.c3.z == z && r.c3.w == 1.0
    ensures Affine(r)
  {
    var rotScale := Mul3(Upper3(parentMatrix), Upper3(modelMatrix));
    var translate := Add4(parentMatrix.c3, modelMatrix.c3).(z := z, w := 1.0);
    Mat4(Extend(rotScale.c0), Extend(rotScale.c1), Extend(rotScale.c2), translate)
  }

  /**
   * Depth comes from the node alone: neither the parent's translation depth
   * nor the node's own matrix's translation depth reaches the result.
   */
  lemma DecomposeDepthIsOwn(parentMatrix: Mat4, modelMatrix: Mat4, z: real, parentZ: real, modelZ: real)
    ensures Decompose(parentMatrix.(c3 := parentMatrix.c3.(z := parentZ)), modelMatrix.(c3 := modelMatrix.c3.(z := modelZ)), z)
         == Decompose(parentMatrix, modelMatrix, z)
  {
  }

  /** A matrix with rotation/scale block `m` and translation column `t`. */
  function Embed(m: Mat3, t: Vec4): Mat4 {
    Mat4(Extend(m.c0), Extend(m.c1), Extend(m.c2), t)
  }

  /** The factors' order is observable: the node's block on the left gives a different result. */
  lemma DecomposeOrderMatters() returns (parentMatrix: Mat4, modelMatrix: Mat4)
    ensures Upper3(Decompose(parentMatrix, modelMatrix, 0.0)) != Mul3(Upper3(modelMatrix), Upper3(parentMatrix))
  {
    var a, b := Mul3NotCommutative();
    var origin := Vec4(0.0, 0.0, 0.0, 1.0);
    parentMatrix, modelMatrix := Embed(a, origin), Embed(b, origin);
    assert Upper3(parentMatrix) == a && Upper3(modelMatrix) == b;
  }

  /**
   * For affine matrices the rotation/scale columns of the result are those of
   * the true product `parentMatrix * modelMatrix`.
   */
  lemma DecomposeColumnsAreProduct(parentMatrix: Mat4, modelMatrix: Mat4, z: real)
    requires Affine(parentMatrix) && Affine(modelMatrix)
    ensures var r, p := Decompose(parentMatrix, modelMatrix, z), Mul4(parentMatrix, modelMatrix);
            r.c0 == p.c0 && r.c1 == p.c1 && r.c2 == p.c2
  {
    var p := Mul4(parentMatrix, modelMatrix);
    var rs := Mul3(Upper3(parentMatrix), Upper3(modelMatrix));
    ColumnIsProduct(parentMatrix, modelMatrix.c0);
    ColumnIsProduct(parentMatrix, modelMatrix.c1);
    ColumnIsProduct(parentMatrix, modelMatrix.c2);
  }

  /** An affine matrix maps a direction (w = 0) through its rotation/scale block. */
  lemma ColumnIsProduct(m: Mat4, v: Vec4)
    requires Affine(m) && v.w == 0.0
    ensures Apply4(m, v) == Extend(Apply3(Upper3(m), Xyz(v)))
  {
    assert Scale4(m.c3, v.w) == Vec4(0.0, 0.0, 0.0, 0.0);
  }

  /**
   * When the parent does not rotate or scale, `decompose` is the true product
   * `parentMatrix * modelMatrix` with the depth replaced by the node's own.
   */
  lemma DecomposeOfTranslationIsProduct(parentMatrix: Mat4, modelMatrix: Mat4, z: real)
    requires Affine(parentMatrix) && Affine(modelMatrix)
    requires Upper3(parentMatrix) == Identity3
    ensures var p := Mul4(parentMatrix, modelMatrix);
            Decompose(parentMatrix, modelMatrix, z) == p.(c3 := p.c3.(z := z))
  {
    var p := Mul4(parentMatrix, modelMatrix);
    DecomposeColumnsAreProduct(parentMatrix, modelMatrix, z);
    var t := modelMatrix.c3;
    assert parentMatrix.c0 == Vec4(1.0, 0.0, 0.0, 0.0);
    assert parentMatrix.c1 == Vec4(0.0, 1.0, 0.0, 0.0);
    assert parentMatrix.c2 == Vec4(0.0, 0.0, 1.0, 0.0);
    assert p.c3.x == t.x + parentMatrix.c3.x;
    assert p.c3.y == t.y + parentMatrix.c3.y;
    assert p.c3.w == 1.0;
  }

  /** `.rect(size)` without a texture, `.spriteRect(size)` with one. */
  function QuadFor(texture: Option<Texture>, extent: Size): (q: Quad)
    ensures q.extent == extent
    ensures q.kind == Rect <==> texture.None?
  {
    if texture.None? then Quad(Rect, extent) else Quad(SpriteRect, extent)
  }

  /** A node of the tree, with the parts of `NodeGeometry` and `Renderable` that `updateSize` uses. */
  class NodeGeometry {
    var size: Size
    var texture: Option<Texture>
    /** Whether the node conforms to `Renderable` (the `as? Renderable` cast succeeds). */
    const isRenderable: bool
    /** The node's vertex data, allocated once with the node. */
    const vertexBuffer: array<Cell<Quad>>

    constructor (size: Size, texture: Option<Texture>, isRenderable: bool, vertexBuffer: array<Cell<Quad>>)
      ensures this.size == size && this.texture == texture
      ensures this.isRenderable == isRenderable && this.vertexBuffer == vertexBuffer
    {
      this.size := size;
      this.texture := texture;
      this.isRenderable := isRenderable;
      this.vertexBuffer := vertexBuffer;
    }

    /**
     * `updateSize()`: rebuild the quad for the current size and copy its vertex
     * data over the start of the existing vertex buffer. The copy is not
     * checked against the buffer's length, so the caller must keep it within.
     */
    method UpdateSize()
      requires isRenderable ==> QuadBytes(QuadFor(texture, size)) <= vertexBuffer.Length
      modifies vertexBuffer
      ensures !isRenderable ==> vertexBuffer[..] == old(vertexBuffer[..])
      ensures isRenderable ==>
                var q := QuadFor(texture, size);
                && vertexBuffer[..] == Written(old(vertexBuffer[..]), q, 0, QuadBytes(q))
                && ReadBack(vertexBuffer[..], 0, QuadBytes(q)) == Some(q)
    {
      if !isRenderable {
        return;
      }

      var quad := QuadFor(texture, size);

      var n := QuadBytes(quad);
      forall a | 0 <= a < n {
        vertexBuffer[a] := Part(quad, a);
      }
      WrittenAt(old(vertexBuffer[..]), quad, 0, n);
      ReadBackWritten(old(vertexBuffer[..]), quad, 0, n);
    }
  }
}
