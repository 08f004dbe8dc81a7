/**
 * engine/sprite.go: a textured rectangle with its own transform. NewSprite
 * uploads the sprite's quad to a vertex array (the GL calls are not
 * modelled: the vertex array it gets is a parameter, and what it uploads is
 * UploadedMesh below); RenderItem describes the sprite to the renderer.
 *
 * This file's `quad` differs from engine/renderer.go's: the fourth vertex's
 * x is −height/2 where the rectangle needs −width/2. The quad as written is
 * QuadAsWritten, and it is what NewSprite uploads; SpriteQuad is the
 * rectangle intended.
 */
module Sprites {
  import opened Transforms
  import opened Mesh
  import opened EngineTexture
  import opened Shaders
  import opened Renderer

  datatype Sprite = Sprite(transform: Transform, width: int, height: int, vao: nat, texture: Texture)

  /** sprite.go's quad as written: corners (−w/2, −h/2), (w/2, −h/2), (w/2, h/2), (−h/2, h/2). */
  function QuadAsWritten(width: real, height: real, uv: Vec4): (m: MeshData)
    ensures |m.vertices| == 20 && m.indices == QuadPattern
  {
    var w2, h2 := width / 2.0, height / 2.0;
    MeshData(Corner(-w2, -h2, 0.0, uv.x, uv.z) + Corner(w2, -h2, 0.0, uv.y, uv.z) +
             Corner(w2, h2, 0.0, uv.y, uv.w) + Corner(-h2, h2, 0.0, uv.x, uv.w), [0, 1, 3, 1, 2, 3])
  }

  /** The quad intended: the width × height rectangle centred on the origin, at depth 0. */
  function SpriteQuad(width: real, height: real, uv: Vec4): (m: MeshData)
    ensures |m.vertices| == 20 && m.indices == QuadPattern
  {
    FlatQuad(-width / 2.0, width / 2.0, -height / 2.0, height / 2.0, 0.0, uv)
  }

  /** The intended quad is the centred rectangle with the UV rectangle on its corners, and its indices name its vertices. */
  lemma SpriteQuadShape(width: real, height: real, uv: Vec4)
    ensures var m := SpriteQuad(width, height, uv);
      IsCentredRect(m, width, height) && HasCornerUVs(m, uv.x, uv.y, uv.z, uv.w) && AtDepth(m, 0.0) && IndicesInRange(m)
  {
    FlatQuadShape(-width / 2.0, width / 2.0, -height / 2.0, height / 2.0, 0.0, uv);
  }

  /**
   * As written, the quad has the intended UVs, depth and first three corners,
   * and differs from the intended one in the fourth vertex's x alone.
   */
  lemma QuadAsWrittenShape(width: real, height: real, uv: Vec4)
    ensures var m := QuadAsWritten(width, height, uv);
      HasCornerUVs(m, uv.x, uv.y, uv.z, uv.w) && AtDepth(m, 0.0) && VX(m, 3) == -height / 2.0 &&
      m.vertices == SpriteQuad(width, height, uv).vertices[15 := -height / 2.0]
  {
    var m := QuadAsWritten(width, height, uv);
    var w2, h2 := width / 2.0, height / 2.0;
    assert m.vertices == Corner(-w2, -h2, 0.0, uv.x, uv.z) + Corner(w2, -h2, 0.0, uv.y, uv.z) +
                         Corner(w2, h2, 0.0, uv.y, uv.w) + Corner(-h2, h2, 0.0, uv.x, uv.w);
  }

  /** The quad as written is the intended rectangle exactly when the sprite is square. */
  lemma QuadAsWrittenSquareOnly(width: real, height: real, uv: Vec4)
    ensures QuadAsWritten(width, height, uv) == SpriteQuad(width, height, uv) <==> width == height
    ensures IsCentredRect(QuadAsWritten(width, height, uv), width, height) <==> width == height
  {
    QuadAsWrittenShape(width, height, uv);
    SpriteQuadShape(width, height, uv);
    var m, q := QuadAsWritten(width, height, uv), SpriteQuad(width, height, uv);
    if width == height {
      assert m.vertices == q.vertices;
    } else {
      assert m.vertices[15] != q.vertices[15];
    }
  }

  /** A 64 × 32 sprite: as written the top-left corner sits at x = −16 instead of −32. */
  lemma QuadCounterexample()
    ensures VX(QuadAsWritten(64.0, 32.0, Vec4(0.0, 1.0, 0.0, 1.0)), 3) == -16.0
    ensures VX(SpriteQuad(64.0, 32.0, Vec4(0.0, 1.0, 0.0, 1.0)), 3) == -32.0
  {
    QuadAsWrittenShape(64.0, 32.0, Vec4(0.0, 1.0, 0.0, 1.0));
    SpriteQuadShape(64.0, 32.0, Vec4(0.0, 1.0, 0.0, 1.0));
  }

  /** NewSprite: width, height, the transform at (x, y, z) and the texture, drawn through the vertex array it created. */
  function NewSprite(width: int, height: int, x: int, y: int, z: int, texture: Texture, vao: nat): (s: Sprite)
    ensures s.width == width && s.height == height && s.texture == texture && s.vao == vao
    ensures s.transform.pos == Vec3(x as real, y as real, z as real) && s.transform.scale == One3 && s.transform.rot == Zero3
  {
    Sprite(NewTransform(x as real, y as real, z as real), width, height, vao, texture)
  }

  /** The mesh NewSprite uploads into the sprite's vertex array: the quad as written. */
  function UploadedMesh(s: Sprite): MeshData
  {
    QuadAsWritten(s.width as real, s.height as real, s.texture.texCoords)
  }

  /** Sprite.RenderItem: the sprite's vertex array and transform, 6 indices, the default shader and the texture's image. */
  function SpriteItem(s: Sprite, defaultShader: Shader): RenderItem
  {
    BasicItem(s.vao, 6, defaultShader, s.texture.image, s.transform)
  }

  /**
   * The item a new sprite reports draws the whole uploaded quad — its index
   * count is the number of indices uploaded, each naming one of its vertices —
   * from the sprite's own vertex array, with its image at the sprite's place.
   */
  lemma SpriteItemDrawsUpload(width: int, height: int, x: int, y: int, z: int, texture: Texture, vao: nat,
                              defaultShader: Shader)
    ensures var s := NewSprite(width, height, x, y, z, texture, vao);
      var ri, m := SpriteItem(s, defaultShader), UploadedMesh(s);
      ri.indices == |m.indices| && IndicesInRange(m) && ri.vao == vao && ri.image == texture.image &&
      ri.transform == NewTransform(x as real, y as real, z as real) && ri.shader == defaultShader &&
      !ri.useNormals && ri.colour == Zero4
  ensures var m := UploadedMesh(NewSprite(width, height, x, y, z, texture, vao));
      HasCornerUVs(m, texture.texCoords.x, texture.texCoords.y, texture.texCoords.z, texture.texCoords.w) &&
      (IsCentredRect(m, width as real, height as real) <==> width == height)
  {
    var m := UploadedMesh(NewSprite(width, height, x, y, z, texture, vao));
    SpriteQuadShape(width as real, height as real, texture.texCoords);
    QuadAsWrittenShape(width as real, height as real, texture.texCoords);
    QuadAsWrittenSquareOnly(width as real, height as real, texture.texCoords);
    assert m.indices == SpriteQuad(width as real, height as real, texture.texCoords).indices;
    assert |m.vertices| == |SpriteQuad(width as real, height as real, texture.texCoords).vertices|;
  }
}
