/**
 * engine/fonts.go: a bitmap font of the 96 runes 32..127 laid out in a glyph
 * atlas, and text meshes built from it with a per-font cache keyed by the
 * string. The TrueType parsing and rasterisation are outside the model: the
 * glyph cell size, each rune's advance width and the atlas image the
 * rasteriser produces are parameters. Runes are the `char`s of the string.
 */
module Fonts {
  import opened GoInt
  import opened Transforms
  import opened Mesh
  import opened EngineTexture
  import opened Shaders
  import opened Pixels
  import Renderer

  /** The first and last rune with a glyph. */
  const Low: int := 32
  const High: int := 127

  /** `high - low + 1` glyphs, 16 to a row, and `gc / 16 + 1` rows. */
  const GlyphCount: nat := 96
  const GlyphsPerRow: nat := 16
  const GlyphsPerCol: nat := GlyphCount / GlyphsPerRow + 1

  /** A glyph: its cell in the atlas, its advance width and its texture. */
  datatype Glyph = Glyph(x: int, y: int, width: int, height: int, advance: int, texture: Texture)

  /** Go's zero value of a glyph, before LoadFont fills it in. */
  const ZeroGlyph := Glyph(0, 0, 0, 0, 0, Texture(ZeroImage, Zero4))

  // ---------------------------------------------------------------- layout

  /**
   * The cursor (gx, gy) when glyph k is placed: glyph 0 at the origin, and
   * after it rows of 16 from the next row down. The layout loop moves to a new
   * row after every glyph whose index is a multiple of 16, glyph 0 included.
   */
  function Cursor(k: nat, gw: int, gh: int): (int, int)
  {
    if k == 0 then (0, 0) else (((k - 1) % GlyphsPerRow) * gw, ((k - 1) / GlyphsPerRow + 1) * gh)
  }

  /** One step of the layout loop: new row after a multiple of 16, else one cell right. */
  lemma CursorStep(k: nat, gw: int, gh: int)
    ensures Cursor(k + 1, gw, gh) ==
      if k % 16 == 0 then (0, Cursor(k, gw, gh).1 + gh) else (Cursor(k, gw, gh).0 + gw, Cursor(k, gw, gh).1)
  {
    if k > 0 {
      var m := k / 16;
      if k % 16 == 0 {
        assert (k - 1) % 16 == 15 && (k - 1) / 16 == m - 1;
        assert (m - 1 + 1) * gh + gh == (m + 1) * gh;
      } else {
        assert (k - 1) % 16 == k % 16 - 1 && (k - 1) / 16 == m;
        assert (k % 16 - 1) * gw + gw == (k % 16) * gw;
      }
    }
  }

  /**
   * The gw × gh box whose top-left corner is glyph k's layout cursor lies
   * inside the 16·gw × 7·gh area the atlas is sized for (gltext.Pow2 only
   * rounds it up). The glyph is drawn half a glyph height above its cursor,
   * so this bounds the cursor, not the drawn glyph.
   */
  lemma CursorInsideGrid(k: nat, gw: int, gh: int)
    requires k < GlyphCount && gw >= 0 && gh >= 0
    ensures var (x, y) := Cursor(k, gw, gh);
      0 <= x && x + gw <= GlyphsPerRow * gw && 0 <= y && y + gh <= GlyphsPerCol * gh
  {
    if k > 0 {
      var c, r := (k - 1) % 16, (k - 1) / 16 + 1;
      assert c <= 15 && r <= 6;
      Bounded(c, 15, gw);
      Bounded(r, 6, gh);
    }
  }

  lemma Bounded(a: int, b: int, g: int)
    requires 0 <= a <= b && 0 <= g
    ensures 0 <= a * g && a * g + g <= (b + 1) * g
  {
    assert (b + 1) * g - (a * g + g) == (b - a) * g;
  }

  /** With a positive cell size the 96 glyphs have 96 different cells. */
  lemma CursorInjective(j: nat, k: nat, gw: int, gh: int)
    requires j < k < GlyphCount && gw > 0 && gh > 0
    ensures Cursor(j, gw, gh) != Cursor(k, gw, gh)
  {
    if j > 0 {
      var cj, rj := (j - 1) % 16, (j - 1) / 16;
      var ck, rk := (k - 1) % 16, (k - 1) / 16;
      if Cursor(j, gw, gh) == Cursor(k, gw, gh) {
        Cancel(cj, ck, gw);
        Cancel(rj + 1, rk + 1, gh);
        assert false;
      }
    } else {
      assert Cursor(k, gw, gh).1 >= gh by {
        Bounded(0, (k - 1) / 16, gh);
        assert ((k - 1) / 16 + 1) * gh == ((k - 1) / 16) * gh + gh;
      }
    }
  }

  lemma Cancel(a: int, b: int, g: int)
    requires g > 0 && a * g == b * g
    ensures a == b
  {
  }

  /** Glyph k after the first loop: the cursor cell shifted up by gh/2, the cell's size and the rune's advance; no texture yet. */
  function Placed(k: nat, gw: int, gh: int, advance: int -> int): Glyph
  {
    var (x, y) := Cursor(k, gw, gh);
    Glyph(x, y - GoDiv(gh, 2), gw, gh, advance(Low + k), ZeroGlyph.texture)
  }

  /** The texture the second loop gives a glyph: its own cell of the atlas. */
  function Textured(g: Glyph, atlas: Image): Glyph
    requires atlas.width != 0.0 && atlas.height != 0.0
  {
    g.(texture := NewTextureFromAtlas(atlas, g.x as real, g.y as real, g.width as real, g.height as real))
  }

  /** Glyph k as LoadFont leaves it. */
  function GlyphAt(k: nat, gw: int, gh: int, advance: int -> int, atlas: Image): Glyph
    requires atlas.width != 0.0 && atlas.height != 0.0
  {
    Textured(Placed(k, gw, gh, advance), atlas)
  }

  /**
   * The texture of glyph k covers exactly its cell: scaled back to pixels its
   * UVs start at the glyph's (x, y) and span its width and height.
   */
  lemma GlyphTextureCoversCell(k: nat, gw: int, gh: int, advance: int -> int, atlas: Image)
    requires atlas.width != 0.0 && atlas.height != 0.0
    ensures var g := GlyphAt(k, gw, gh, advance, atlas);
      var uv := g.texture.texCoords;
      uv.x * atlas.width == g.x as real && (uv.y - uv.x) * atlas.width == gw as real &&
      uv.z * atlas.height == g.y as real && (uv.w - uv.z) * atlas.height == gh as real
  {
    var p := Placed(k, gw, gh, advance);
    AtlasUVsInPixels(atlas, p.x as real, p.y as real, p.width as real, p.height as real);
  }

  /** The first loop of LoadFont over a `make([]glyph, 96)`: metrics and cells, one rune at a time, with the cursor update. */
  method PlaceGlyphs(gw: int, gh: int, advance: int -> int) returns (glyphs: array<Glyph>)
    ensures fresh(glyphs) && glyphs.Length == GlyphCount
    ensures forall k :: 0 <= k < GlyphCount ==> glyphs[k] == Placed(k, gw, gh, advance)
  {
    glyphs := new Glyph[High - Low + 1](_ => ZeroGlyph);
    var gi := 0;
    var gx, gy := 0, 0;
    var ch := Low;
    while ch <= High
      invariant Low <= ch <= High + 1 && gi == ch - Low
      invariant (gx, gy) == Cursor(gi, gw, gh)
      invariant forall k :: 0 <= k < gi ==> glyphs[k] == Placed(k, gw, gh, advance)
    {
      glyphs[gi] := Glyph(gx, gy - GoDiv(gh, 2), gw, gh, advance(ch), ZeroGlyph.texture);
      assert glyphs[gi] == Placed(gi, gw, gh, advance);
      CursorStep(gi, gw, gh);
      if gi % 16 == 0 {
        gx := 0;
        gy := gy + gh;
      } else {
        gx := gx + gw;
      }
      gi := gi + 1;
      ch := ch + 1;
    }
  }

  /** The second loop: every glyph gets the texture of its cell. */
  method TextureGlyphs(glyphs: array<Glyph>, atlas: Image)
    requires atlas.width != 0.0 && atlas.height != 0.0
    modifies glyphs
    ensures forall k :: 0 <= k < glyphs.Length ==> glyphs[k] == Textured(old(glyphs[k]), atlas)
  {
    var i := 0;
    while i < glyphs.Length
      invariant 0 <= i <= glyphs.Length
      invariant forall k :: 0 <= k < i ==> glyphs[k] == Textured(old(glyphs[k]), atlas)
      invariant forall k :: i <= k < glyphs.Length ==> glyphs[k] == old(glyphs[k])
    {
      var g := glyphs[i];
      glyphs[i] := g.(texture := NewTextureFromAtlas(atlas, g.x as real, g.y as real, g.width as real, g.height as real));
      i := i + 1;
    }
  }

  // ---------------------------------------------------------------- text meshes

  /** The rune has a glyph: 32 ≤ rune < 32 + len(glyphs). */
  predicate HasGlyph(glyphs: seq<Glyph>, v: char)
  {
    Low <= v as int < Low + |glyphs|
  }

  /** Every rune of the string has a glyph. */
  predicate InFont(glyphs: seq<Glyph>, str: string)
  {
    forall i :: 0 <= i < |str| ==> HasGlyph(glyphs, str[i])
  }

  /** The glyph `f.glyphs[v-32]` of a rune (a rune without one never reaches a mesh: the loop panics first). */
  function GlyphOf(glyphs: seq<Glyph>, v: char): Glyph
  {
    if HasGlyph(glyphs, v) then glyphs[v as int - Low] else ZeroGlyph
  }

  /** The pen x after the first n runes: the start plus each of their advances. */
  function Pen(glyphs: seq<Glyph>, x: real, str: string, n: nat): real
    requires n <= |str|
  {
    if n == 0 then x else Pen(glyphs, x, str, n - 1) + GlyphOf(glyphs, str[n - 1]).advance as real
  }

  /**
   * The quad of one glyph with the pen at cx: (width−1) × (height−1) from
   * (cx, y), at depth 0, with the glyph's UV rectangle.
   */
  function GlyphQuad(g: Glyph, cx: real, y: real): MeshData
  {
    FlatQuad(cx, cx + (g.width - 1) as real, y, y + (g.height - 1) as real, 0.0, g.texture.texCoords)
  }

  /** A glyph quad is the (width−1) × (height−1) rectangle from the pen, at depth 0, textured with the glyph's UVs. */
  lemma GlyphQuadShape(g: Glyph, cx: real, y: real)
    ensures var m := GlyphQuad(g, cx, y);
      IsRect(m, cx, cx + (g.width - 1) as real, y, y + (g.height - 1) as real) && AtDepth(m, 0.0) &&
      HasCornerUVs(m, g.texture.texCoords.x, g.texture.texCoords.y, g.texture.texCoords.z, g.texture.texCoords.w)
  {
    FlatQuadShape(cx, cx + (g.width - 1) as real, y, y + (g.height - 1) as real, 0.0, g.texture.texCoords);
  }

  /** A glyph quad has the 20 floats of four vertices. */
  lemma GlyphQuadLength(g: Glyph, cx: real, y: real)
    ensures |GlyphQuad(g, cx, y).vertices| == 20
  {
  }

  /** The vertex floats of the first n runes: one glyph quad per rune, each at the pen the runes before it leave. */
  function TextVertices(glyphs: seq<Glyph>, x: real, y: real, str: string, n: nat): seq<real>
    requires n <= |str|
  {
    if n == 0 then []
    else TextVertices(glyphs, x, y, str, n - 1) + GlyphQuad(GlyphOf(glyphs, str[n - 1]), Pen(glyphs, x, str, n - 1), y).vertices
  }

  /** The mesh of a string: its vertices and the index run of one quad per rune. */
  function TextMesh(glyphs: seq<Glyph>, x: real, y: real, str: string): MeshData
  {
    MeshData(TextVertices(glyphs, x, y, str, |str|), QuadRun(|str|))
  }

  /** The first n runes give 20 vertex floats each. */
  lemma {:induction false} TextVerticesLength(glyphs: seq<Glyph>, x: real, y: real, str: string, n: nat)
    requires n <= |str|
    ensures |TextVertices(glyphs, x, y, str, n)| == 20 * n
  {
    if n > 0 {
      TextVerticesLength(glyphs, x, y, str, n - 1);
      GlyphQuadLength(GlyphOf(glyphs, str[n - 1]), Pen(glyphs, x, str, n - 1), y);
    }
  }

  /** Block k of the first n runes' floats is rune k's glyph quad, at the pen the first k runes leave. */
  lemma {:induction false} TextQuadAt(glyphs: seq<Glyph>, x: real, y: real, str: string, n: nat, k: nat)
    requires k < n <= |str|
    ensures |TextVertices(glyphs, x, y, str, n)| == 20 * n
    ensures TextVertices(glyphs, x, y, str, n)[20 * k .. 20 * k + 20] ==
      GlyphQuad(GlyphOf(glyphs, str[k]), Pen(glyphs, x, str, k), y).vertices
  {
    TextVerticesLength(glyphs, x, y, str, n);
    TextVerticesLength(glyphs, x, y, str, n - 1);
    var q := GlyphQuad(GlyphOf(glyphs, str[n - 1]), Pen(glyphs, x, str, n - 1), y).vertices;
    GlyphQuadLength(GlyphOf(glyphs, str[n - 1]), Pen(glyphs, x, str, n - 1), y);
    NthBlock(TextVertices(glyphs, x, y, str, n - 1), q, n - 1, k);
    if k < n - 1 {
      TextQuadAt(glyphs, x, y, str, n - 1, k);
    }
  }

  /** Block k of 20 floats in a + b: a's own block, or b itself once a's n blocks are past. */
  lemma NthBlock(a: seq<real>, b: seq<real>, n: nat, k: nat)
    requires |a| == 20 * n && |b| == 20 && k <= n
    ensures (a + b)[20 * k .. 20 * k + 20] == if k < n then a[20 * k .. 20 * k + 20] else b
  {
    if k < n {
      assert (a + b)[20 * k .. 20 * k + 20] == a[20 * k .. 20 * k + 20];
    } else {
      assert (a + b)[20 * k .. 20 * k + 20] == b;
    }
  }

  /**
   * The text mesh has 4 vertices and 6 indices per rune, every index names one
   * of its vertices, and the k-th quad is glyph k's quad at the pen the first
   * k runes leave.
   */
  lemma TextMeshShape(glyphs: seq<Glyph>, x: real, y: real, str: string)
    ensures var m := TextMesh(glyphs, x, y, str);
      |m.vertices| == 20 * |str| && |m.indices| == 6 * |str| && IndicesInRange(m)
    ensures forall k :: 0 <= k < |str| ==>
      TextMesh(glyphs, x, y, str).vertices[20 * k .. 20 * k + 20] == GlyphQuad(GlyphOf(glyphs, str[k]), Pen(glyphs, x, str, k), y).vertices
  {
    TextVerticesLength(glyphs, x, y, str, |str|);
    QuadRunAt(|str|);
    QuadRunBounded(|str|);
    assert |TextVertices(glyphs, x, y, str, |str|)| / 5 == 4 * |str|;
    forall k | 0 <= k < |str|
      ensures TextMesh(glyphs, x, y, str).vertices[20 * k .. 20 * k + 20] == GlyphQuad(GlyphOf(glyphs, str[k]), Pen(glyphs, x, str, k), y).vertices
    {
      TextQuadAt(glyphs, x, y, str, |str|, k);
    }
  }

  /**
   * The mesh loop of renderItem on a miss: per rune the glyph `v − 32` (a rune
   * without one is an index-out-of-range panic), four vertex literals, the
   * pen moved by the advance and six indices at the running offset.
   */
  method BuildText(glyphs: seq<Glyph>, x: real, y: real, str: string) returns (r: Outcome<MeshData>)
    ensures r.Ok? <==> InFont(glyphs, str)
    ensures r.Panic? ==> r.fault == IndexOutOfRange
    ensures r.Ok? ==> r.value.vertices == TextVertices(glyphs, x, y, str, |str|) && r.value.indices == QuadRun(|str|)
  {
    var vertices: seq<real> := [];
    var indices: seq<nat> := [];
    var offset: nat := 0;
    var currentX := x;
    var i := 0;
    while i < |str|
      invariant 0 <= i <= |str| && forall j :: 0 <= j < i ==> HasGlyph(glyphs, str[j])
      invariant vertices == TextVertices(glyphs, x, y, str, i) && currentX == Pen(glyphs, x, str, i)
      invariant indices == QuadRun(i) && offset == 4 * i
    {
      var v := str[i];
      if !(Low <= v as int < Low + |glyphs|) {
        return Panic(IndexOutOfRange);
      }
      var g := glyphs[v as int - Low];
      assert g == GlyphOf(glyphs, str[i]);
      var quad := GlyphVertices(g, currentX, y);
      vertices := vertices + quad;
      assert vertices == TextVertices(glyphs, x, y, str, i + 1);
      currentX := currentX + g.advance as real;
      assert currentX == Pen(glyphs, x, str, i + 1);
      indices := AppendQuadIndices(indices, offset, i);
      assert indices == QuadRun(i + 1);
      offset := offset + 4;
      i := i + 1;
    }
    r := Ok(MeshData(vertices, indices));
  }

  /** The four vertex literals renderItem appends for glyph g with the pen at cx. */
  method GlyphVertices(g: Glyph, cx: real, y: real) returns (v: seq<real>)
    ensures v == GlyphQuad(g, cx, y).vertices
  {
    var uv := g.texture.texCoords;
    var w, h := (g.width - 1) as real, (g.height - 1) as real;
    v := Corner(cx, y, 0.0, uv.x, uv.z) + Corner(cx + w, y, 0.0, uv.y, uv.z) +
         Corner(cx + w, y + h, 0.0, uv.y, uv.w) + Corner(cx, y + h, 0.0, uv.x, uv.w);
  }

  // ---------------------------------------------------------------- the font

  /** The item a miss creates: the new vertex array, the index count as int32, the atlas, placed at (x, y, 9). */
  function NewTextItem(vao: nat, indexCount: nat, atlas: Image, x: real, y: real): (ri: Renderer.RenderItem)
    ensures ri.transform.pos == Vec3(x, y, 9.0) && ri.transform.scale == One3
    ensures ri.image == atlas && ri.vao == vao && ri.shader == ZeroShader
    ensures indexCount < TwoTo31 ==> ri.indices == indexCount
  {
    Renderer.BasicItem(vao, Int32(indexCount), ZeroShader, atlas, NewTransform(x, y, 9.0))
  }

  /** `ri.transform.Scale = {s, s, 1}`. */
  function Scaled(ri: Renderer.RenderItem, s: real): (r: Renderer.RenderItem)
    ensures r.transform.scale == Vec3(s, s, 1.0)
    ensures r.(transform := ri.transform) == ri && r.transform.pos == ri.transform.pos && r.transform.rot == ri.transform.rot
  {
    ri.(transform := ri.transform.(scale := Vec3(s, s, 1.0)))
  }

  /** Scaling twice is scaling once with the later factor. */
  lemma ScaledTwice(ri: Renderer.RenderItem, s: real, t: real)
    ensures Scaled(Scaled(ri, s), t) == Scaled(ri, t)
  {
  }

  class Font {
    const glyphs: seq<Glyph>
    const scale: int
    const atlas: Image
    var renderItems: map<string, Renderer.RenderItem>

    constructor (glyphs: seq<Glyph>, scale: int, atlas: Image)
      ensures this.glyphs == glyphs && this.scale == scale && this.atlas == atlas && renderItems == map[]
    {
      this.glyphs := glyphs;
      this.scale := scale;
      this.atlas := atlas;
      renderItems := map[];
    }

    /** scalingFactor: the factor that takes the font's own size to newSize. */
    function ScalingFactor(newSize: real): (s: real)
      requires scale != 0
      ensures s * scale as real == newSize
    {
      newSize / scale as real
    }

    /**
     * renderItem as written. A string already in the cache returns the cached
     * item (its position and mesh from the first call) scaled to the requested
     * size, and nothing else changes. A new string builds its mesh (a rune
     * without a glyph panics), caches the new item and returns it, but with
     * scale (1, 1, 1): the scale is written to the unrelated zero-valued
     * lookup result.
     */
    method RenderItem(x: real, y: real, size: int, str: string, vao: nat) returns (r: Outcome<Renderer.RenderItem>, mesh: MeshData)
      requires scale != 0
      modifies this
      ensures str in old(renderItems) ==>
        r == Ok(Scaled(old(renderItems)[str], ScalingFactor(size as real))) && renderItems == old(renderItems)
      ensures str !in old(renderItems) ==> (r.Ok? <==> InFont(glyphs, str))
      ensures str !in old(renderItems) && r.Panic? ==> r.fault == IndexOutOfRange && renderItems == old(renderItems)
      ensures str !in old(renderItems) && r.Ok? ==>
        r.value == NewTextItem(vao, 6 * |str|, atlas, x, y) && mesh == TextMesh(glyphs, x, y, str) &&
        renderItems == old(renderItems)[str := r.value]
    {
      var s := ScalingFactor(size as real);
      mesh := MeshData([], []);
      if str in renderItems {
        return Ok(Scaled(renderItems[str], s)), mesh;
      }
      var built := BuildText(glyphs, x, y, str);
      if built.Panic? {
        return Panic(built.fault), mesh;
      }
      mesh := built.value;
      QuadRunAt(|str|);
      var item := NewTextItem(vao, |mesh.indices|, atlas, x, y);
      renderItems := renderItems[str := item];
      r := Ok(item);
    }

    /** renderItem with the scale applied to the item it returns, hit or miss; the cached item is the unscaled one. */
    method RenderItemFixed(x: real, y: real, size: int, str: string, vao: nat) returns (r: Outcome<Renderer.RenderItem>, mesh: MeshData)
      requires scale != 0
      modifies this
      ensures str in old(renderItems) ==>
        r == Ok(Scaled(old(renderItems)[str], ScalingFactor(size as real))) && renderItems == old(renderItems)
      ensures str !in old(renderItems) ==> (r.Ok? <==> InFont(glyphs, str))
      ensures str !in old(renderItems) && r.Panic? ==> r.fault == IndexOutOfRange && renderItems == old(renderItems)
      ensures str !in old(renderItems) && r.Ok? ==>
        renderItems == old(renderItems)[str := NewTextItem(vao, 6 * |str|, atlas, x, y)] &&
        r.value == Scaled(renderItems[str], ScalingFactor(size as real)) && mesh == TextMesh(glyphs, x, y, str)
    {
      var hit := str in renderItems;
      var res;
      res, mesh := RenderItem(x, y, size, str, vao);
      if res.Ok? && !hit {
        res := Ok(Scaled(res.value, ScalingFactor(size as real)));
      }
      r := res;
    }
  }

  /**
   * Two identical calls on a string not yet cached: as written the first
   * returns scale (1, 1, 1) and the second (s, s, 1), so the first frame a
   * string appears in ignores the requested size.
   */
  method DrawTwice(f: Font, x: real, y: real, size: int, str: string, vao: nat)
    returns (first: Outcome<Renderer.RenderItem>, second: Outcome<Renderer.RenderItem>)
    requires f.scale != 0 && str !in f.renderItems && InFont(f.glyphs, str)
    modifies f
    ensures first.Ok? && second.Ok? && first.value.transform.scale == One3
    ensures second.value.transform.scale == Vec3(f.ScalingFactor(size as real), f.ScalingFactor(size as real), 1.0)
    ensures f.ScalingFactor(size as real) != 1.0 ==> first != second
  {
    var m;
    first, m := f.RenderItem(x, y, size, str, vao);
    second, m := f.RenderItem(x, y, size, str, vao);
  }

  /**
   * With the fix, a repeated call returns what the first returned, and a later
   * call at another position (x2, y2) still returns the first call's position:
   * the cache is keyed by the string alone.
   */
  method DrawTwiceFixed(f: Font, x: real, y: real, x2: real, y2: real, size: int, str: string, vao: nat, vao2: nat)
    returns (first: Outcome<Renderer.RenderItem>, second: Outcome<Renderer.RenderItem>, third: Outcome<Renderer.RenderItem>)
    requires f.scale != 0 && str !in f.renderItems && InFont(f.glyphs, str)
    modifies f
    ensures first.Ok? && first == second
    ensures third.Ok? && third.value.transform.pos == Vec3(x, y, 9.0) && third.value.vao == vao
  {
    var m;
    first, m := f.RenderItemFixed(x, y, size, str, vao);
    second, m := f.RenderItemFixed(x, y, size, str, vao);
    third, m := f.RenderItemFixed(x2, y2, size, str, vao2);
  }

  /** The same shown on values: a 16-pixel font asked for size 32 gets scale 1 on a miss and 2 on a hit. */
  lemma FirstDrawUnscaled(atlas: Image, vao: nat, str: string)
    ensures var item := NewTextItem(vao, |str|, atlas, 0.0, 0.0);
      item.transform.scale == One3 && Scaled(item, 32.0 / 16.0).transform.scale == Vec3(2.0, 2.0, 1.0)
  {
  }

  /**
   * LoadFont: a read or parse error returns nil and the error; otherwise a
   * font of the 96 laid-out glyphs at the given scale, on the rasterised atlas,
   * with an empty cache.
   */
  method LoadFont(data: Option<seq<byte>>, parsed: bool, scale: int, gw: int, gh: int, advance: int -> int, atlas: Image)
    returns (f: Font?, err: bool)
    requires atlas.width != 0.0 && atlas.height != 0.0
    ensures err <==> data.None? || !parsed
    ensures err ==> f == null
    ensures !err ==> f != null && fresh(f) && f.scale == scale && f.atlas == atlas && f.renderItems == map[]
    ensures !err ==> |f.glyphs| == GlyphCount && forall k :: 0 <= k < GlyphCount ==> f.glyphs[k] == GlyphAt(k, gw, gh, advance, atlas)
  {
    if data.None? || !parsed {
      return null, true;
    }
    var glyphs := PlaceGlyphs(gw, gh, advance);
    TextureGlyphs(glyphs, atlas);
    f := new Font(glyphs[..], scale, atlas);
    err := false;
  }
}
