/**
 * engine/textureAtlas.go: a square atlas of atlasWidth × atlasWidth tiles and
 * the normalised offset of the tile with a given index.
 */
module TextureAtlas {
  import opened GoInt
  import opened EngineTexture

  datatype Atlas = Atlas(texture: Image, tileSize: int, atlasWidth: int)

  /** NewAtlas: the loaded image and the two sizes as given; a load error panics. */
  method NewAtlas(file: ImageFile, texId: nat, tileSize: int, atlasWidth: int) returns (r: Outcome<Atlas>)
    ensures r.Panic? <==> !file.Decoded?
    ensures r.Ok? ==> r.value.tileSize == tileSize && r.value.atlasWidth == atlasWidth
    ensures r.Ok? ==> r.value.texture == Image(texId, file.img.maxX as real, file.img.maxY as real)
  {
    var tex, _, err := LoadImage(file, texId);
    if err {
      return Panic(LoadFailed);
    }
    r := Ok(Atlas(tex, tileSize, atlasWidth));
  }

  /** The column and row of a tile index, with Go's truncating `%` and `/`. */
  function Column(a: Atlas, index: int): int
    requires a.atlasWidth != 0
  {
    GoMod(index, a.atlasWidth)
  }

  function Row(a: Atlas, index: int): int
    requires a.atlasWidth != 0
  {
    GoDiv(index, a.atlasWidth)
  }

  /**
   * offset: (column / atlasWidth, row / atlasWidth). A zero width is Go's
   * integer divide-by-zero panic; otherwise the offsets, scaled back by the
   * width, are the tile's column and row.
   */
  function Offset(a: Atlas, index: int): (off: Outcome<(real, real)>)
    ensures off.Panic? <==> a.atlasWidth == 0
    ensures off.Panic? ==> off.fault == DivideByZero
    ensures off.Ok? ==> off.value.0 * a.atlasWidth as real == Column(a, index) as real &&
                        off.value.1 * a.atlasWidth as real == Row(a, index) as real
  {
    if a.atlasWidth == 0 then Panic(DivideByZero)
    else Ok((Column(a, index) as real / a.atlasWidth as real, Row(a, index) as real / a.atlasWidth as real))
  }

  /** Row and column reconstruct the index. */
  lemma RowColumnReconstruct(a: Atlas, index: int)
    requires a.atlasWidth != 0
    ensures Row(a, index) * a.atlasWidth + Column(a, index) == index
  {}

  /** For a non-negative index the x offset lies in [0, 1). */
  lemma OffsetXInUnit(a: Atlas, index: int)
    requires a.atlasWidth > 0 && index >= 0
    ensures Offset(a, index).Ok? && 0.0 <= Offset(a, index).value.0 < 1.0
  {
    UnitFraction(Column(a, index), a.atlasWidth);
  }

  /** For an index inside the square atlas the y offset lies in [0, 1). */
  lemma OffsetYInUnit(a: Atlas, index: int)
    requires a.atlasWidth > 0 && 0 <= index < a.atlasWidth * a.atlasWidth
    ensures Offset(a, index).Ok? && 0.0 <= Offset(a, index).value.1 < 1.0
  {
    RowBelow(index, a.atlasWidth);
    UnitFraction(Row(a, index), a.atlasWidth);
  }

  lemma RowBelow(index: int, w: int)
    requires w > 0 && 0 <= index < w * w
    ensures 0 <= GoDiv(index, w) < w
  {
    DivBelow(index, w);
  }

  lemma DivBelow(index: int, w: int)
    requires w > 0 && 0 <= index < w * w
    ensures index / w < w
  {
    var r := index / w;
    if r >= w {
      MulLe(w, r, w);
    }
  }

  lemma UnitFraction(n: int, d: int)
    requires 0 <= n < d
    ensures 0.0 <= n as real / d as real < 1.0
  {
  }

  lemma MulLe(a: int, b: int, c: int)
    requires 0 <= a <= b && 0 <= c
    ensures a * c <= b * c
  {}
}
