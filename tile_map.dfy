/**
 * engine/tileMap.go: a tile map loaded from a TMX file and a square texture
 * atlas. Every layer becomes width·height tile numbers (−1 for an empty
 * cell); the layer named "Collision" becomes the collision layer and the
 * others are drawn, one quad per non-empty cell, from a single vertex array.
 *
 * The TMX decoder and the image loader are parameters (what they return),
 * and so is the vertex-array id GL hands out; the uploaded buffers are what
 * GenerateVertices computes.
 */
module TileMap {
  import opened GoInt
  import opened Transforms
  import opened Mesh
  import opened EngineTexture
  import opened Shaders
  import TextureAtlas
  import Renderer

  /** A cell as the TMX decoder reports it: empty, or a tile id (uint32). */
  datatype TmxTile = NilTile | Tile(id: nat)

  datatype TmxLayer = TmxLayer(name: string, tiles: seq<TmxTile>)

  datatype Tileset = Tileset(columns: int, tileCount: int)

  /** The decoded TMX map: size in cells, tile height in pixels, tilesets and layers. */
  datatype TmxMap = TmxMap(width: int, height: int, tileHeight: int, tilesets: seq<Tileset>, layers: seq<TmxLayer>)

  /**
   * The engine's Tilemap. A nil collision slice (no "Collision" layer) is the
   * empty sequence: Go treats both alike, with length 0.
   */
  datatype Tilemap = Tilemap(width: int, height: int, tileSize: int, tiles: seq<seq<int>>,
                             collision: seq<int>, textures: seq<Texture>, vao: nat)

  const CollisionName: string := "Collision"

  /** The tile number of an empty cell. */
  const NoTile: int := -1

  // ---------------------------------------------------------------- layers

  function TileValue(t: TmxTile): int
  {
    if t.NilTile? then NoTile else t.id
  }

  /** A layer's tile numbers: n cells, the decoded tiles first and zeros after them. */
  function Decoded(tiles: seq<TmxTile>, n: nat): (r: seq<int>)
    requires |tiles| <= n
    ensures |r| == n
    ensures forall j :: 0 <= j < |tiles| ==> (r[j] == NoTile <==> tiles[j].NilTile?)
    ensures forall j :: 0 <= j < |tiles| && tiles[j].Tile? ==> r[j] == tiles[j].id
    ensures forall j :: |tiles| <= j < n ==> r[j] == 0
  {
    seq(n, j requires 0 <= j < n => if j < |tiles| then TileValue(tiles[j]) else 0)
  }

  /**
   * The per-layer loop of LoadTilemap: `make([]int, n)`, then cell j gets −1
   * for an empty tile and its id otherwise. A negative n and a layer with more
   * than n tiles panic.
   */
  method BuildLayer(tiles: seq<TmxTile>, n: int) returns (r: Outcome<seq<int>>)
    ensures n < 0 ==> r == Panic(NegativeLength)
    ensures 0 <= n < |tiles| ==> r == Panic(IndexOutOfRange)
    ensures r.Ok? <==> 0 <= n && |tiles| <= n
    ensures r.Ok? ==> r.value == Decoded(tiles, n)
  {
    if n < 0 {
      return Panic(NegativeLength);
    }
    var layerTiles := new int[n](_ => 0);
    var j := 0;
    while j < |tiles|
      invariant 0 <= j <= |tiles| && j <= n
      invariant forall k :: 0 <= k < j ==> layerTiles[k] == TileValue(tiles[k])
      invariant forall k :: j <= k < n ==> layerTiles[k] == 0
    {
      if j >= n {
        return Panic(IndexOutOfRange);
      }
      layerTiles[j] := TileValue(tiles[j]);
      j := j + 1;
    }
    r := Ok(layerTiles[..]);
    assert layerTiles[..] == Decoded(tiles, n);
  }

  /** The layer loop after the given layers: the drawn layers in order, and the last collision layer so far. */
  function SplitLayers(layers: seq<TmxLayer>, n: int): Outcome<(seq<seq<int>>, seq<int>)>
  {
    if |layers| == 0 then Ok(([], []))
    else
      match SplitLayers(layers[..|layers| - 1], n)
      case Panic(f) => Panic(f)
      case Ok(acc) =>
        var l := layers[|layers| - 1];
        if n < 0 then Panic(NegativeLength)
        else if |l.tiles| > n then Panic(IndexOutOfRange)
        else if l.name == CollisionName then Ok((acc.0, Decoded(l.tiles, n)))
        else Ok((acc.0 + [Decoded(l.tiles, n)], acc.1))
  }

  /** The layers that are drawn, in file order. */
  function DrawnLayers(layers: seq<TmxLayer>): seq<TmxLayer>
  {
    if |layers| == 0 then []
    else DrawnLayers(layers[..|layers| - 1]) + (if layers[|layers| - 1].name == CollisionName then [] else [layers[|layers| - 1]])
  }

  /** The last layer named "Collision", if any. */
  function LastCollision(layers: seq<TmxLayer>): Option<TmxLayer>
  {
    if |layers| == 0 then None
    else if layers[|layers| - 1].name == CollisionName then Some(layers[|layers| - 1])
    else LastCollision(layers[..|layers| - 1])
  }

  /** Every layer fits in n cells (with no layers, any n will do: `make` is never reached). */
  predicate Fits(layers: seq<TmxLayer>, n: int)
  {
    |layers| == 0 || (n >= 0 && forall k :: 0 <= k < |layers| ==> |layers[k].tiles| <= n)
  }

  /**
   * The layer loop succeeds exactly when every layer fits; then the drawn layers
   * are the decoded non-collision layers in order, and the collision layer is
   * the decoded last "Collision" layer (nil when there is none).
   */
  lemma {:induction false} SplitLayersMeaning(layers: seq<TmxLayer>, n: int)
    ensures SplitLayers(layers, n).Ok? <==> Fits(layers, n)
    ensures Fits(layers, n) ==>
      var (tiles, coll) := SplitLayers(layers, n).value;
      var drawn := DrawnLayers(layers);
      |tiles| == |drawn| &&
      (forall k :: 0 <= k < |drawn| ==> |drawn[k].tiles| <= n && tiles[k] == Decoded(drawn[k].tiles, n)) &&
      (LastCollision(layers).None? ==> coll == []) &&
      (LastCollision(layers).Some? ==> |LastCollision(layers).value.tiles| <= n &&
                                        coll == Decoded(LastCollision(layers).value.tiles, n))
  {
    if |layers| > 0 {
      var init, l := layers[..|layers| - 1], layers[|layers| - 1];
      SplitLayersMeaning(init, n);
      assert Fits(layers, n) ==> Fits(init, n) by {
        if Fits(layers, n) && |init| > 0 {
          forall k | 0 <= k < |init| ensures |init[k].tiles| <= n {
            assert init[k] == layers[k];
          }
        }
      }
      assert Fits(init, n) && n >= 0 && |l.tiles| <= n ==> Fits(layers, n) by {
        if Fits(init, n) && n >= 0 && |l.tiles| <= n {
          forall k | 0 <= k < |layers| ensures |layers[k].tiles| <= n {
            if k < |init| {
              assert layers[k] == init[k];
            }
          }
        }
      }
      if Fits(layers, n) {
        var drawn := DrawnLayers(layers);
        var prev := DrawnLayers(init);
        forall k | 0 <= k < |drawn|
          ensures |drawn[k].tiles| <= n
        {
          if k == |prev| {
            assert drawn[k] == l;
          } else {
            assert drawn[k] == prev[k];
          }
        }
      }
    }
  }

  // ---------------------------------------------------------------- the atlas

  /** The image LoadImage returns for a decoded file. */
  function AtlasImage(file: ImageFile, texId: nat): Image
    requires file.Decoded?
  {
    Image(texId, file.img.maxX as real, file.img.maxY as real)
  }

  /** Texture i of the atlas: the tileSize square at column i % aw, row i / aw. */
  function AtlasTile(image: Image, tileSize: int, atlasWidth: int, i: int): Texture
    requires atlasWidth != 0 && image.width != 0.0 && image.height != 0.0
  {
    var col := GoMod(i, atlasWidth) as real;
    var row := GoDiv(i, atlasWidth) as real;
    var ts := tileSize as real;
    NewTextureFromAtlas(image, col * ts, row * ts, ts, ts)
  }

  /**
   * atlasToTextures: tileCount textures, texture i at column i % aw and row
   * i / aw. A load error panics, and so do a negative capacity and a zero
   * atlas width (integer division by zero) once there is a tile to place.
   */
  method AtlasToTextures(file: ImageFile, texId: nat, tileSize: int, atlasWidth: int, atlasHeight: int, tileCount: int)
    returns (r: Outcome<seq<Texture>>)
    requires file.Decoded? && tileCount > 0 ==> file.img.maxX > 0 && file.img.maxY > 0
    ensures !file.Decoded? ==> r == Panic(LoadFailed)
    ensures file.Decoded? && tileCount < 0 ==> r == Panic(NegativeLength)
    ensures file.Decoded? && tileCount > 0 && atlasWidth == 0 ==> r == Panic(DivideByZero)
    ensures r.Ok? <==> file.Decoded? && tileCount >= 0 && (tileCount == 0 || atlasWidth != 0)
    ensures r.Ok? ==> |r.value| == tileCount
    ensures r.Ok? ==> forall i :: 0 <= i < tileCount ==> r.value[i] == AtlasTile(AtlasImage(file, texId), tileSize, atlasWidth, i)
  {
    var image, _, err := LoadImage(file, texId);
    if err {
      return Panic(LoadFailed);
    }
    if tileCount < 0 {
      return Panic(NegativeLength);
    }
    assert image == AtlasImage(file, texId);
    var textures: seq<Texture> := [];
    var i := 0;
    while i < tileCount
      invariant 0 <= i <= tileCount
      invariant |textures| == i && (i > 0 ==> atlasWidth != 0)
      invariant forall k :: 0 <= k < i ==> textures[k] == AtlasTile(image, tileSize, atlasWidth, k)
    {
      if atlasWidth == 0 {
        return Panic(DivideByZero);
      }
      var texture := AtlasTile(image, tileSize, atlasWidth, i);
      textures := textures + [texture];
      i := i + 1;
    }
    r := Ok(textures);
  }

  /**
   * For an atlas image exactly aw tiles of tileSize pixels wide and high, the UV
   * origin of texture i (0 ≤ i < aw·aw) is the atlas offset of tile i, each
   * texture spans 1/aw of the image in both directions, and it lies inside it.
   */
  lemma AtlasTileAtOffset(image: Image, tileSize: int, atlasWidth: int, i: int)
    requires atlasWidth > 0 && tileSize > 0 && 0 <= i < atlasWidth * atlasWidth
    requires image.width == atlasWidth as real * tileSize as real && image.height == image.width
    ensures var uv := AtlasTile(image, tileSize, atlasWidth, i).texCoords;
      var off := TextureAtlas.Offset(TextureAtlas.Atlas(image, tileSize, atlasWidth), i).value;
      uv.x == off.0 && uv.z == off.1 &&
      uv.y - uv.x == 1.0 / atlasWidth as real && uv.w - uv.z == 1.0 / atlasWidth as real &&
      0.0 <= uv.x <= uv.y <= 1.0 && 0.0 <= uv.z <= uv.w <= 1.0
  {
    var col, row := GoMod(i, atlasWidth), GoDiv(i, atlasWidth);
    TextureAtlas.RowBelow(i, atlasWidth);
    var c, r, t, a := col as real, row as real, tileSize as real, atlasWidth as real;
    PositiveSide(a, t);
    assert image.width > 0.0 && image.height > 0.0;
    var tex := AtlasTile(image, tileSize, atlasWidth, i);
    AtlasTileAt(image, tileSize, atlasWidth, i, c, r, t);
    assert tex == NewTextureFromAtlas(image, c * t, r * t, t, t);
    CellUVs(image, t, a, c, r);
    assert TextureAtlas.Offset(TextureAtlas.Atlas(image, tileSize, atlasWidth), i) == Ok((c / a, r / a));
  }

  /** Texture i is the tile-sized square at column i % aw and row i / aw, in pixels. */
  lemma AtlasTileAt(image: Image, tileSize: int, atlasWidth: int, i: int, c: real, r: real, t: real)
    requires atlasWidth != 0 && image.width != 0.0 && image.height != 0.0
    requires c == GoMod(i, atlasWidth) as real && r == GoDiv(i, atlasWidth) as real && t == tileSize as real
    ensures AtlasTile(image, tileSize, atlasWidth, i) == NewTextureFromAtlas(image, c * t, r * t, t, t)
  {
    assert GoMod(i, atlasWidth) as real * tileSize as real == c * t;
    assert GoDiv(i, atlasWidth) as real * tileSize as real == r * t;
  }

  /** An atlas of positive width and tile size is a positive number of pixels wide. */
  lemma PositiveSide(a: real, t: real)
    requires a > 0.0 && t > 0.0
    ensures a * t > 0.0
  {
  }

  /** The UVs of the t-sided square at cell (c, r) of an image a·t pixels square. */
  lemma CellUVs(image: Image, t: real, a: real, c: real, r: real)
    requires t > 0.0 && a > 0.0 && 0.0 <= c && c + 1.0 <= a && 0.0 <= r && r + 1.0 <= a
    requires image.width == a * t && image.height == image.width
    ensures var uv := NewTextureFromAtlas(image, c * t, r * t, t, t).texCoords;
      uv.x == c / a && uv.z == r / a && uv.y - uv.x == 1.0 / a && uv.w - uv.z == 1.0 / a &&
      0.0 <= uv.x <= uv.y <= 1.0 && 0.0 <= uv.z <= uv.w <= 1.0
  {
    Fraction(c, t, a);
    Fraction(r, t, a);
    InsideUnit(c, a);
    InsideUnit(r, a);
  }

  /** Scaling a tile coordinate and the atlas width by the tile size cancels. */
  lemma Fraction(c: real, t: real, a: real)
    requires t > 0.0 && a > 0.0
    ensures (c * t) / (a * t) == c / a
    ensures (c * t + t) / (a * t) == (c + 1.0) / a
  {
    assert (c / a) * (a * t) == c * t;
    assert ((c + 1.0) / a) * (a * t) == c * t + t;
  }

  /** Cell c of an a-wide row lies inside the unit interval: 0 ≤ c/a ≤ (c+1)/a ≤ 1, a width of 1/a. */
  lemma InsideUnit(c: real, a: real)
    requires 0.0 <= c && c + 1.0 <= a
    ensures 0.0 <= c / a <= (c + 1.0) / a <= 1.0
    ensures (c + 1.0) / a - c / a == 1.0 / a
  {
    assert (c + 1.0) / a - c / a == 1.0 / a;
  }

  // ---------------------------------------------------------------- vertices

  /** What generateVertices has built: vertex floats, indices, and the quads emitted (its offset is 4 per quad). */
  datatype Gen = Gen(vertices: seq<real>, indices: seq<nat>, quads: nat)

  /** The cells per layer, `width·height`; a negative product means the loops never run. */
  function Cells(t: Tilemap): nat
  {
    if t.width * t.height < 0 then 0 else t.width * t.height
  }

  /** The pixel centre of cell i: (col·ts + ts/2, row·ts + ts/2) with Go's truncating division. */
  function TileCentre(t: Tilemap, i: int): (int, int)
    requires t.width != 0
  {
    var half := GoDiv(t.tileSize, 2);
    (GoMod(i, t.width) * t.tileSize + half, GoDiv(i, t.width) * t.tileSize + half)
  }

  /** The quad of cell i of layer l: a square of side 2·(ts/2) around the cell centre, at depth l, with the tile's UVs. */
  function TileQuad(t: Tilemap, l: nat, i: nat, tex: Texture): (m: MeshData)
    requires t.width != 0
    ensures var (x, y) := TileCentre(t, i);
      var ht := GoDiv(t.tileSize, 2) as real;
      IsRect(m, x as real - ht, x as real + ht, y as real - ht, y as real + ht)
    ensures AtDepth(m, l as real)
    ensures HasCornerUVs(m, tex.texCoords.x, tex.texCoords.y, tex.texCoords.z, tex.texCoords.w)
  {
    var (x, y) := TileCentre(t, i);
    var ht := GoDiv(t.tileSize, 2) as real;
    FlatQuad(x as real - ht, x as real + ht, y as real - ht, y as real + ht, l as real, tex.texCoords)
  }

  /**
   * One iteration of the inner loop: an out-of-range cell or tile number
   * panics; an empty cell adds nothing; any other cell adds its 20 floats and
   * the 6 indices of the next quad.
   */
  function EmitCell(t: Tilemap, l: nat, i: nat, g: Gen): (r: Outcome<Gen>)
    requires l < |t.tiles| && t.width != 0
    ensures r.Ok? <==> i < |t.tiles[l]| && (t.tiles[l][i] == NoTile || 0 <= t.tiles[l][i] < |t.textures|)
    ensures r.Ok? && t.tiles[l][i] == NoTile ==> r.value == g
    ensures r.Ok? && t.tiles[l][i] != NoTile ==>
      r.value.quads == g.quads + 1 &&
      |r.value.vertices| == |g.vertices| + 20 && r.value.vertices[..|g.vertices|] == g.vertices &&
      r.value.indices == g.indices + QuadIndices(g.quads)
  {
    if i >= |t.tiles[l]| then Panic(IndexOutOfRange)
    else
      var tile := t.tiles[l][i];
      if tile == NoTile then Ok(g)
      else if tile < 0 || tile >= |t.textures| then Panic(IndexOutOfRange)
      else
        var q := TileQuad(t, l, i, t.textures[tile]);
        Ok(Gen(g.vertices + q.vertices, g.indices + QuadIndices(g.quads), g.quads + 1))
  }

  /** The first n cells of layer l, from g. */
  function EmitLayer(t: Tilemap, l: nat, n: nat, g: Gen): Outcome<Gen>
    requires l < |t.tiles| && n <= Cells(t)
  {
    if n == 0 then Ok(g)
    else
      match EmitLayer(t, l, n - 1, g)
      case Panic(f) => Panic(f)
      case Ok(h) => EmitCell(t, l, n - 1, h)
  }

  /** The first L layers, from nothing. */
  function EmitLayers(t: Tilemap, L: nat): Outcome<Gen>
    requires L <= |t.tiles|
  {
    if L == 0 then Ok(Gen([], [], 0))
    else
      match EmitLayers(t, L - 1)
      case Panic(f) => Panic(f)
      case Ok(g) => EmitLayer(t, L - 1, Cells(t), g)
  }

  /** generateVertices: a negative capacity panics before the loops; otherwise every layer in turn. */
  function Generated(t: Tilemap): Outcome<Gen>
  {
    if t.width * t.height < 0 && |t.tiles| > 0 then Panic(NegativeLength) else EmitLayers(t, |t.tiles|)
  }

  lemma {:induction false} LayerPanicPersists(t: Tilemap, l: nat, k: nat, n: nat, g: Gen)
    requires l < |t.tiles| && k <= n <= Cells(t)
    requires EmitLayer(t, l, k, g).Panic?
    ensures EmitLayer(t, l, n, g) == EmitLayer(t, l, k, g)
    decreases n - k
  {
    if k < n {
      LayerPanicPersists(t, l, k + 1, n, g);
    }
  }

  lemma {:induction false} LayersPanicPersist(t: Tilemap, k: nat, L: nat)
    requires k <= L <= |t.tiles|
    requires EmitLayers(t, k).Panic?
    ensures EmitLayers(t, L) == EmitLayers(t, k)
    decreases L - k
  {
    if k < L {
      LayersPanicPersist(t, k + 1, L);
    }
  }

  /**
   * generateVertices as written: an outer loop over the layers and an inner
   * loop over the cells (GenerateLayer), appending to the two slices.
   */
  method GenerateVertices(t: Tilemap) returns (r: Outcome<MeshData>)
    ensures r.Ok? <==> Generated(t).Ok?
    ensures r.Panic? ==> r.fault == Generated(t).fault
    ensures r.Ok? ==> r.value == MeshData(Generated(t).value.vertices, Generated(t).value.indices)
  {
    var tiles := t.width * t.height;
    if tiles < 0 && |t.tiles| > 0 {
      return Panic(NegativeLength);
    }
    var g := Gen([], [], 0);
    var l := 0;
    while l < |t.tiles|
      invariant 0 <= l <= |t.tiles|
      invariant EmitLayers(t, l) == Ok(g)
    {
      var next := GenerateLayer(t, l, g);
      NextLayer(t, l, g, next);
      if next.Panic? {
        return Panic(next.fault);
      }
      g := next.value;
      l := l + 1;
    }
    r := Ok(MeshData(g.vertices, g.indices));
  }

  /** One turn of the outer loop: layer l continues the layers before it, and a panic in it is the whole result. */
  lemma NextLayer(t: Tilemap, l: nat, g: Gen, next: Outcome<Gen>)
    requires l < |t.tiles|
    requires EmitLayers(t, l) == Ok(g) && next == EmitLayer(t, l, Cells(t), g)
    ensures EmitLayers(t, l + 1) == next
    ensures next.Panic? ==> Generated(t) == next
  {
    if next.Panic? {
      LayersPanicPersist(t, l + 1, |t.tiles|);
    }
  }

  /** The inner loop over the cells of layer l, continuing from g; `offset` is 4 per quad emitted. */
  method GenerateLayer(t: Tilemap, l: nat, g: Gen) returns (r: Outcome<Gen>)
    requires l < |t.tiles| && t.width * t.height >= 0
    ensures r == EmitLayer(t, l, Cells(t), g)
  {
    var acc := g;
    var offset: nat := 4 * g.quads;
    var cells := t.width * t.height;
    var i := 0;
    while i < cells
      invariant 0 <= i <= cells == Cells(t)
      invariant EmitLayer(t, l, i, g) == Ok(acc) && offset == 4 * acc.quads
    {
      NextCell(t, l, i, g, acc);
      var next;
      next, offset := GenerateCell(t, l, i, acc, offset);
      if next.Panic? {
        return Panic(next.fault);
      }
      acc := next.value;
      i := i + 1;
    }
    r := Ok(acc);
  }

  /**
   * The body of the inner loop for cell i: an index past the layer's slice or
   * a tile number with no texture panics, an empty cell adds nothing, any
   * other cell appends its quad's vertices and six indices from `offset`.
   */
  method GenerateCell(t: Tilemap, l: nat, i: nat, g: Gen, offset: nat) returns (r: Outcome<Gen>, offset': nat)
    requires l < |t.tiles| && t.width != 0 && offset == 4 * g.quads
    ensures r == EmitCell(t, l, i, g)
    ensures r.Ok? ==> offset' == 4 * r.value.quads
  {
    if i >= |t.tiles[l]| {
      return Panic(IndexOutOfRange), offset;
    }
    CellResult(t, l, i, g);
    var tile := t.tiles[l][i];
    if tile == NoTile {
      return Ok(g), offset;
    }
    if tile < 0 || tile >= |t.textures| {
      return Panic(IndexOutOfRange), offset;
    }
    var v := TileVertices(t, l, i, t.textures[tile]);
    var indices := AppendQuadIndices(g.indices, offset, g.quads);
    r, offset' := Ok(Gen(g.vertices + v, indices, g.quads + 1)), offset + 4;
  }

  /** One turn of the inner loop: cell i continues the cells before it, and a panic in it is the whole layer's result. */
  lemma NextCell(t: Tilemap, l: nat, i: nat, g: Gen, before: Gen)
    requires l < |t.tiles| && i < Cells(t) && EmitLayer(t, l, i, g) == Ok(before)
    ensures t.width != 0 && EmitLayer(t, l, i + 1, g) == EmitCell(t, l, i, before)
    ensures EmitCell(t, l, i, before).Panic? ==> EmitLayer(t, l, Cells(t), g) == EmitCell(t, l, i, before)
  {
    if EmitCell(t, l, i, before).Panic? {
      LayerPanicPersists(t, l, i + 1, Cells(t), g);
    }
  }

  /** What a cell that does not panic emits: nothing for an empty cell, else its quad's vertices and six indices. */
  lemma CellResult(t: Tilemap, l: nat, i: nat, g: Gen)
    requires l < |t.tiles| && t.width != 0 && i < |t.tiles[l]|
    ensures t.tiles[l][i] == NoTile ==> EmitCell(t, l, i, g) == Ok(g)
    ensures t.tiles[l][i] != NoTile && 0 <= t.tiles[l][i] < |t.textures| ==>
      EmitCell(t, l, i, g) ==
      Ok(Gen(g.vertices + TileQuad(t, l, i, t.textures[t.tiles[l][i]]).vertices, g.indices + QuadIndices(g.quads), g.quads + 1))
  {}

  /** The 20 floats of the quad of cell i of layer l, as generateVertices computes them. */
  method TileVertices(t: Tilemap, l: nat, i: nat, tex: Texture) returns (v: seq<real>)
    requires t.width != 0
    ensures v == TileQuad(t, l, i, tex).vertices
  {
    var halfTile := GoDiv(t.tileSize, 2);
    var col := GoMod(i, t.width);
    var row := GoDiv(i, t.width);
    var x := col * t.tileSize + halfTile;
    var y := row * t.tileSize + halfTile;
    var xf, yf, ht, lf := x as real, y as real, halfTile as real, l as real;
    var uv := tex.texCoords;
    v := Corner(xf - ht, yf - ht, lf, uv.x, uv.z) + Corner(xf + ht, yf - ht, lf, uv.y, uv.z) +
         Corner(xf + ht, yf + ht, lf, uv.y, uv.w) + Corner(xf - ht, yf + ht, lf, uv.x, uv.w);
  }

  /** The shape every prefix of the output has: 20 floats and the 4k+{0,1,3,1,2,3} indices per quad. */
  predicate WellShaped(g: Gen)
  {
    |g.vertices| == 20 * g.quads && g.indices == QuadRun(g.quads)
  }

  /** The non-empty cells among the first n of a layer. */
  function Filled(layer: seq<int>, n: nat): (c: nat)
    ensures c <= n
  {
    if n == 0 then 0 else Filled(layer, n - 1) + (if n - 1 < |layer| && layer[n - 1] != NoTile then 1 else 0)
  }

  /** The non-empty cells of the first L layers. */
  function TotalFilled(t: Tilemap, L: nat): nat
    requires L <= |t.tiles|
  {
    if L == 0 then 0 else TotalFilled(t, L - 1) + Filled(t.tiles[L - 1], Cells(t))
  }

  lemma {:induction false} EmitLayerShape(t: Tilemap, l: nat, n: nat, g: Gen)
    requires l < |t.tiles| && n <= Cells(t) && WellShaped(g)
    ensures EmitLayer(t, l, n, g).Ok? ==>
      WellShaped(EmitLayer(t, l, n, g).value) && EmitLayer(t, l, n, g).value.quads == g.quads + Filled(t.tiles[l], n)
  {
    if n > 0 {
      EmitLayerShape(t, l, n - 1, g);
      var prev := EmitLayer(t, l, n - 1, g);
      if prev.Ok? && EmitLayer(t, l, n, g).Ok? {
        CellShape(t, l, n - 1, prev.value);
      }
    }
  }

  /** One cell keeps the shape and adds a quad exactly when it is not empty. */
  lemma CellShape(t: Tilemap, l: nat, i: nat, h: Gen)
    requires l < |t.tiles| && t.width != 0 && WellShaped(h) && EmitCell(t, l, i, h).Ok?
    ensures WellShaped(EmitCell(t, l, i, h).value)
    ensures EmitCell(t, l, i, h).value.quads == h.quads + (if t.tiles[l][i] != NoTile then 1 else 0)
  {
    if t.tiles[l][i] != NoTile {
      assert EmitCell(t, l, i, h).value.indices == QuadRun(h.quads) + QuadIndices(h.quads);
    }
  }

  lemma {:induction false} EmitLayersShape(t: Tilemap, L: nat)
    requires L <= |t.tiles|
    ensures EmitLayers(t, L).Ok? ==> WellShaped(EmitLayers(t, L).value) && EmitLayers(t, L).value.quads == TotalFilled(t, L)
  {
    if L > 0 {
      EmitLayersShape(t, L - 1);
      if EmitLayers(t, L - 1).Ok? {
        EmitLayerShape(t, L - 1, Cells(t), EmitLayers(t, L - 1).value);
      }
    }
  }

  lemma {:induction false} TotalFilledBound(t: Tilemap, L: nat)
    requires L <= |t.tiles|
    ensures TotalFilled(t, L) <= L * Cells(t)
  {
    if L > 0 {
      TotalFilledBound(t, L - 1);
      assert (L - 1) * Cells(t) + Cells(t) == L * Cells(t);
    }
  }

  /**
   * What generateVertices produces, when it does not panic: one quad per
   * non-empty cell, 20 floats each, the k-th quad indexed 4k + {0,1,3,1,2,3},
   * every index naming one of the generated vertices, and at most
   * width·height quads per layer.
   */
  lemma GeneratedShape(t: Tilemap)
    ensures Generated(t).Ok? ==>
      var g := Generated(t).value;
      g.quads == TotalFilled(t, |t.tiles|) && g.quads <= |t.tiles| * Cells(t) &&
      |g.vertices| == 20 * g.quads && |g.indices| == 6 * g.quads &&
      (forall k :: 0 <= k < |g.indices| ==> g.indices[k] == 4 * (k / 6) + QuadPattern[k % 6]) &&
      IndicesInRange(MeshData(g.vertices, g.indices))
  {
    if Generated(t).Ok? {
      EmitLayersShape(t, |t.tiles|);
      TotalFilledBound(t, |t.tiles|);
      var g := Generated(t).value;
      QuadRunAt(g.quads);
      QuadRunBounded(g.quads);
      assert |g.vertices| / 5 == 4 * g.quads;
    }
  }

  /** The centre of a quad's bottom edge and of its left edge: the cell centre, for any tile size. */
  lemma TileQuadCentred(t: Tilemap, l: nat, i: nat, tex: Texture)
    requires t.width != 0
    ensures var m := TileQuad(t, l, i, tex);
      (VX(m, 0) + VX(m, 1)) / 2.0 == TileCentre(t, i).0 as real &&
      (VY(m, 0) + VY(m, 3)) / 2.0 == TileCentre(t, i).1 as real &&
      m.vertices[2] == l as real
  {}

  /**
   * Neighbouring cells of a row: with an even tile size the right edge of cell
   * i is the left edge of cell i + 1; with an odd one the integer halfTile
   * leaves a one-pixel seam between them.
   */
  lemma RowNeighbours(t: Tilemap, l: nat, i: nat, tex: Texture, tex2: Texture)
    requires t.width > 0 && t.tileSize > 0 && i % t.width < t.width - 1
    ensures var right := VX(TileQuad(t, l, i, tex), 1);
      var left := VX(TileQuad(t, l, i + 1, tex2), 0);
      (t.tileSize % 2 == 0 ==> right == left) && (t.tileSize % 2 == 1 ==> left - right == 1.0)
  {
    var w, ts := t.width, t.tileSize;
    var c, ht := GoMod(i, w), GoDiv(ts, 2);
    NextColumn(i, w);
    var right := VX(TileQuad(t, l, i, tex), 1);
    var left := VX(TileQuad(t, l, i + 1, tex2), 0);
    assert right == (c * ts + ht) as real + ht as real;
    assert left == ((c + 1) * ts + ht) as real - ht as real;
    Seam(c, ts, ht);
  }

  /** Within a row, the next cell is one column further right. */
  lemma NextColumn(i: nat, w: int)
    requires w > 0 && i % w < w - 1
    ensures GoMod(i + 1, w) == GoMod(i, w) + 1
  {
    Pixels.LemmaDivModUnique(i + 1, w, i / w, i % w + 1);
  }

  /** The gap between c·ts + 2·(ts/2) and (c+1)·ts is the remainder ts % 2. */
  lemma Seam(c: int, ts: int, ht: int)
    requires ts > 0 && ht == GoDiv(ts, 2)
    ensures (c + 1) * ts - (c * ts + ht + ht) == ts % 2
  {
    assert (c + 1) * ts == c * ts + ts;
  }

  /** For positive sizes every cell's quad lies inside the map's pixel rectangle. */
  lemma TileInsideMap(t: Tilemap, l: nat, i: nat, tex: Texture)
    requires t.width > 0 && t.height > 0 && t.tileSize >= 0 && i < t.width * t.height
    ensures var m := TileQuad(t, l, i, tex);
      var (w, h) := PixelSize(t);
      0.0 <= VX(m, 0) && VX(m, 1) <= w as real && 0.0 <= VY(m, 0) && VY(m, 3) <= h as real
  {
    var ts, half := t.tileSize, GoDiv(t.tileSize, 2);
    var col, row := GoMod(i, t.width), GoDiv(i, t.width);
    RowInside(i, t.width, t.height);
    CellSpan(col, t.width, ts, half);
    CellSpan(row, t.height, ts, half);
    var m := TileQuad(t, l, i, tex);
    assert VX(m, 0) == (col * ts) as real && VX(m, 1) == (col * ts + half + half) as real;
    assert VY(m, 0) == (row * ts) as real && VY(m, 3) == (row * ts + half + half) as real;
  }

  /** Cell k of n, of side ts, spans [k·ts, k·ts + 2·(ts/2)] inside [0, n·ts]. */
  lemma CellSpan(k: int, n: int, ts: int, half: int)
    requires 0 <= k < n && 0 <= ts && half == GoDiv(ts, 2)
    ensures 0 <= k * ts && k * ts + half + half <= n * ts
  {
    TextureAtlas.MulLe(k, n - 1, ts);
    assert (n - 1) * ts + ts == n * ts;
  }

  lemma RowInside(i: int, w: int, h: int)
    requires 0 <= i < w * h && w > 0
    ensures 0 <= i / w < h
  {
    if i / w >= h {
      TextureAtlas.MulLe(h, i / w, w);
    }
  }

  // ---------------------------------------------------------------- the map

  /** PixelSize: the map's size in pixels. */
  function PixelSize(t: Tilemap): (size: (int, int))
    ensures size.0 == t.width * t.tileSize && size.1 == t.height * t.tileSize
    ensures t.tileSize > 0 ==> (size.0 > 0 <==> t.width > 0) && (size.1 > 0 <==> t.height > 0)
  {
    (t.width * t.tileSize, t.height * t.tileSize)
  }

  /** The index count RenderItem claims: `int32(width) * int32(height) * 6 * int32(len(tiles))`, each product wrapping in 32 bits. */
  function IndexCount(t: Tilemap): int
  {
    Int32(Int32(Int32(Int32(t.width) * Int32(t.height)) * 6) * Int32(|t.tiles|))
  }

  /**
   * RenderItem: the whole map as one item drawn with the default shader (a
   * parameter: DefaultShader is not part of this model), the first texture's
   * image and the identity placement. An empty texture list panics.
   */
  function RenderItem(t: Tilemap, defaultShader: Shader): (r: Outcome<Renderer.RenderItem>)
    ensures r.Panic? <==> |t.textures| == 0
    ensures r.Panic? ==> r.fault == IndexOutOfRange
    ensures r.Ok? ==> r.value.vao == t.vao && r.value.image == t.textures[0].image && r.value.shader == defaultShader
    ensures r.Ok? ==> r.value.transform == NewTransform(0.0, 0.0, 0.0) && r.value.indices == IndexCount(t)
    ensures r.Ok? ==> !r.value.useNormals && r.value.colour == Zero4
  {
    if |t.textures| == 0 then Panic(IndexOutOfRange)
    else Ok(Renderer.BasicItem(t.vao, IndexCount(t), defaultShader, t.textures[0].image, NewTransform(0.0, 0.0, 0.0)))
  }

  /**
   * Without 32-bit overflow the claimed count is width·height·6·layers, every
   * cell's six indices whether or not the cell is empty, so it is never less
   * than the generated index count.
   */
  lemma IndexCountCoversGenerated(t: Tilemap)
    requires 0 <= t.width && 0 <= t.height && t.width * t.height * 6 < TwoTo31
    requires t.width * t.height * 6 * |t.tiles| < TwoTo31
    ensures IndexCount(t) == t.width * t.height * 6 * |t.tiles|
    ensures Generated(t).Ok? ==> |Generated(t).value.indices| <= IndexCount(t)
  {
    var w, h, L := t.width, t.height, |t.tiles|;
    assert IndexCount(t) == w * h * 6 * L by {
      NoWrap(w, h, L);
    }
    if Generated(t).Ok? {
      assert |Generated(t).value.indices| <= 6 * (L * Cells(t)) by {
        GeneratedShape(t);
      }
      assert Cells(t) == w * h;
      SixPerCell(w * h, L);
    }
  }

  /** The products stay below 2^31, so no int32 conversion changes the result (an empty map gives 0 either way). */
  lemma NoWrap(w: int, h: int, L: int)
    requires 0 <= w && 0 <= h && 0 <= L && w * h * 6 < TwoTo31 && w * h * 6 * L < TwoTo31
    ensures Int32(Int32(Int32(Int32(w) * Int32(h)) * 6) * Int32(L)) == w * h * 6 * L
  {
    if w == 0 || h == 0 {
      assert Int32(w) * Int32(h) == 0;
      assert w * h == 0;
    } else {
      TextureAtlas.MulLe(1, h, w);
      TextureAtlas.MulLe(1, w, h);
      var n := w * h;
      TextureAtlas.MulLe(1, 6, n);
      assert Int32(w) == w && Int32(h) == h && Int32(n) == n && Int32(n * 6) == n * 6;
      if L > 0 {
        TextureAtlas.MulLe(1, n * 6, L);
      }
      assert Int32(L) == L;
    }
  }

  lemma SixPerCell(n: nat, L: nat)
    ensures 6 * (L * n) == n * 6 * L
  {}

  /** The layer loop of LoadTilemap: each layer is decoded, the "Collision" one kept aside and the others appended in order. */
  method LoadLayers(tmxLayers: seq<TmxLayer>, n: int) returns (r: Outcome<(seq<seq<int>>, seq<int>)>)
    ensures r == SplitLayers(tmxLayers, n)
  {
    var layers: seq<seq<int>> := [];
    var collisionLayer: seq<int> := [];
    var k := 0;
    while k < |tmxLayers|
      invariant 0 <= k <= |tmxLayers|
      invariant SplitLayers(tmxLayers[..k], n) == Ok((layers, collisionLayer))
    {
      var l := tmxLayers[k];
      assert tmxLayers[..k + 1][..k] == tmxLayers[..k];
      var layerTiles := BuildLayer(l.tiles, n);
      if layerTiles.Panic? {
        LayersStayPanicked(tmxLayers, k + 1, n);
        return Panic(layerTiles.fault);
      }
      if l.name == CollisionName {
        collisionLayer := layerTiles.value;
      } else {
        layers := layers + [layerTiles.value];
      }
      k := k + 1;
    }
    assert tmxLayers[..|tmxLayers|] == tmxLayers;
    r := Ok((layers, collisionLayer));
  }

  /** Once a prefix of the layers panics, every longer prefix panics the same way. */
  lemma {:induction false} LayersStayPanicked(layers: seq<TmxLayer>, k: nat, n: int)
    requires k <= |layers| && SplitLayers(layers[..k], n).Panic?
    ensures SplitLayers(layers, n) == SplitLayers(layers[..k], n)
    decreases |layers| - k
  {
    if k < |layers| {
      assert layers[..k + 1][..k] == layers[..k];
      LayersStayPanicked(layers, k + 1, n);
    } else {
      assert layers[..k] == layers;
    }
  }

  /**
   * LoadTilemap: decode the TMX map (a decoding error panics), load the atlas
   * with the first tileset's columns as its width (no tileset is an index
   * panic), run the layer loop, scale the tile height to the tile size with a
   * truncating conversion, and generate the vertex buffers for `init`.
   */
  method LoadTilemap(tmx: Option<TmxMap>, atlas: ImageFile, texId: nat, scale: real, vao: nat)
    returns (r: Outcome<Tilemap>)
    requires tmx.Some? && |tmx.value.tilesets| > 0 && tmx.value.tilesets[0].tileCount > 0 && atlas.Decoded? ==>
      atlas.img.maxX > 0 && atlas.img.maxY > 0
    ensures tmx.None? ==> r == Panic(LoadFailed)
    ensures tmx.Some? && |tmx.value.tilesets| == 0 ==> r == Panic(IndexOutOfRange)
    ensures tmx.Some? && |tmx.value.tilesets| > 0 && !atlas.Decoded? ==> r == Panic(LoadFailed)
    ensures r.Ok? ==> tmx.Some? && |tmx.value.tilesets| > 0 && atlas.Decoded?
    ensures r.Ok? ==>
      var m := tmx.value;
      var set0 := m.tilesets[0];
      var tm := r.value;
      tm.width == m.width && tm.height == m.height && tm.tileSize == Trunc(m.tileHeight as real * scale) &&
      tm.vao == vao && SplitLayers(m.layers, m.width * m.height) == Ok((tm.tiles, tm.collision)) &&
      |tm.textures| == set0.tileCount &&
      (forall i :: 0 <= i < set0.tileCount ==>
        set0.columns != 0 && tm.textures[i] == AtlasTile(AtlasImage(atlas, texId), m.tileHeight, set0.columns, i)) &&
      Generated(tm).Ok?
    ensures tmx.Some? && |tmx.value.tilesets| > 0 && atlas.Decoded? && !Fits(tmx.value.layers, tmx.value.width * tmx.value.height) ==>
      r.Panic?
  {
    if tmx.None? {
      return Panic(LoadFailed);
    }
    var m := tmx.value;
    if |m.tilesets| == 0 {
      return Panic(IndexOutOfRange);
    }
    var textures := AtlasToTextures(atlas, texId, m.tileHeight, m.tilesets[0].columns, m.tilesets[0].columns, m.tilesets[0].tileCount);
    if textures.Panic? {
      return Panic(textures.fault);
    }
    var split := LoadLayers(m.layers, m.width * m.height);
    if split.Panic? {
      return Panic(split.fault);
    }
    SplitLayersMeaning(m.layers, m.width * m.height);
    var (layers, collisionLayer) := split.value;
    var tileMap := Tilemap(m.width, m.height, Trunc(m.tileHeight as real * scale), layers, collisionLayer, textures.value, vao);
    var mesh := GenerateVertices(tileMap);
    if mesh.Panic? {
      return Panic(mesh.fault);
    }
    r := Ok(tileMap);
  }
}
