# go-engine core in Dafny

This project models the bookkeeping and arithmetic core of go-engine. go-engine is a small 2D game engine written in Go on top of OpenGL, GLFW, beep and freetype. Each Go file of the core has one Dafny module:

- `Renderer` (engine/renderer.go): the renderer's per-frame queues, the packing of lights into uniform arrays, and `render` as a trace of GL commands.
- `Collision` (engine/collision.go): integer boxes, the tile index and the tests against a tile map.
- `TileMap` (engine/tileMap.go): splitting the map's layers, cutting the atlas into tiles, and generating the vertices and indices.
- `Fonts` (engine/fonts.go): the 96-glyph atlas layout and the cached text meshes.
- `Shaders` (engine/shader.go): the per-program uniform-location cache, the loading path and the named registry.
- `DebugWindow` (engine/debugWindow.go): the label map and its sorted listing.
- `Sound` (engine/sound.go): the sound bank and the loops with their pause flags.
- `EngineTexture` and `Pixels` (engine/texture.go): decoding an image into bytes and computing atlas UVs. `GraphicsTexture` (graphics/texture.go) is the older version of the same loop.
- `TextureAtlas` (engine/textureAtlas.go), `Sprites` (engine/sprite.go), `Ui` (engine/ui.go).
- `Scene` (scene.go): the player's collide-and-revert movement and the demo scene's frame update.

Shared helper modules:

- `GoInt`: Go's truncating `/` and `%`, float-to-int truncation and the `int32` wrap.
- `Transforms`: transforms and lights as plain records.
- `Mesh`: quad vertex and index layout.

How the Go program is represented:

- Go panics (index out of range, division by zero, a write to a nil map, negative `make` lengths) and `log.Fatal` become the `Panic` case of an `Outcome` result.
- Everything that comes from outside the engine is a parameter. This covers GL ids and uniform locations, decoded files, the shader compiler's verdict, key state, the map iteration order and the matrix maths.
- `float32` is modelled as `real`.
- Objects whose fields the Go code updates in place are classes: the renderer, shader caches and registry, the sound mixer, the debug map, fonts, the player and the scene.
- Loops that fill buffers are methods with loop invariants, proved against a specification function.

The files come from different iterations of the engine. Each is modelled as written, and calls between mismatched versions take the callee's result as a parameter.

## Model

| member | source | states |
|---|---|---|
| GoInt.GoDiv | engine/collision.go:16-17 | Go's integer quotient, truncated toward zero; it equals Euclidean division for non-negative operands |
| GoInt.GoMod | engine/textureAtlas.go:22 | Go's remainder: smaller in magnitude than the divisor, with the sign of the dividend |
| GoInt.DivModTruncated | engine/collision.go:16-17 | quotient times divisor plus remainder gives back the dividend, and the remainder takes the dividend's sign |
| GoInt.Trunc | engine/tileMap.go:54 | a float-to-int conversion truncates toward zero |
| GoInt.Int32 | engine/tileMap.go:84 | an `int32` conversion wraps modulo 2^32 into the signed range and keeps values already in range |
| Collision.NewCollider | engine/collision.go:12-19 | the collider keeps the width and height and is centred (with Go's truncating halves) on the given point |
| Collision.SetPos | engine/collision.go:21-28 | moving keeps the size and centres the collider on the new point |
| Collision.SetPosIsPlacement | engine/collision.go:12-28 | SetPos is NewCollider with the old size; a second SetPos overrides the first; the point lies inside the box |
| Collision.CollidesSymmetric | engine/collision.go:31-33 | the overlap test is symmetric |
| Collision.CollidesStrict | engine/collision.go:31-33 | boxes that only touch along an edge do not collide |
| Collision.CollidesIffSharedPixel | engine/collision.go:31-33 | non-empty boxes collide exactly when some integer pixel lies inside both |
| Collision.GetTileIndex | engine/collision.go:35-40 | the tile index panics exactly when the tile size is zero |
| Collision.GetTileIndexCell | engine/collision.go:35-40 | a point inside the map gets an index within the map, and that cell's square contains the point |
| Collision.TileCentreIndex | engine/collision.go:35-40 | indexing the centre of tile i gives back i, so tile indexing and tile placement agree |
| Collision.NonNegativeIndex | engine/collision.go:35-40 | points with non-negative coordinates never get a negative index |
| Collision.CollidesMapPoint | engine/collision.go:42-47 | a point outside the map's closed pixel rectangle always collides |
| Collision.CollidesMapPointInside | engine/collision.go:42-47 | inside the map, the point collides exactly when the tile under it is not -1 |
| Collision.CollidesMapPointBottomEdge | engine/collision.go:43-46 | the point on the bottom edge passes the inclusive bound and then indexes past the layer, which panics |
| Collision.CollidesMapPointRightEdge | engine/collision.go:42-47 | the point on the right edge passes the inclusive bound and gets column index width, so it reads the first cell of the next row, or panics on the last row |
| Collision.CollidesMapCollider | engine/collision.go:50-76 | as written: a box past the map's edge collides; a zero tile size panics |
| Collision.CollidesMapColliderFixed | engine/collision.go:50-76 | corrected guard: outside the map it collides; a corner outside the layer counts as a hit; otherwise it collides exactly when some corner tile is not -1; it panics only on tile size zero |
| Collision.ClearAsWrittenInLayer | engine/collision.go:66-73 | a box the code as written finds clear has all four corners inside the layer, and the corrected guard finds it clear too |
| Collision.CollidesMapColliderAgrees | engine/collision.go:66-73 | when every corner lies inside the layer, the code as written and the corrected guard agree |
| Collision.CollidesMapColliderPanicsAtLength | engine/collision.go:66-71 | the code as written panics only when a corner's index equals the layer length, the value its `>` guard lets through |
| Collision.GuardCounterexample | engine/collision.go:66-71 | a concrete 2 × 1 map and box on which the guard as written panics while the corrected guard reports a hit |
| Mesh.QuadRunAt | engine/fonts.go:168-172 | n quads give 6n indices, and index i is 4·(i/6) plus the pattern |
| Mesh.QuadRunBounded | engine/fonts.go:168-172 | every index of n quads points below 4n, so it stays in the vertex buffer |
| Mesh.FlatQuad | engine/renderer.go:275-279 | an axis-aligned quad is 20 floats with the indices 0,1,3,1,2,3 |
| Mesh.FlatQuadShape | engine/renderer.go:275-279 | the quad is the given rectangle at one depth, carries the four corner UVs, and its indices are in range |
| Mesh.AppendQuadIndices | engine/tileMap.go:124-128 | appending indices at offset 4k appends exactly QuadIndices(k) |
| Pixels.OffsetDecodes | engine/texture.go:35-46 | the byte offset 4·(y·w + x) + k decodes back to x, y and channel k |
| Pixels.CursorRoom | engine/texture.go:38-46 | every pixel's four bytes lie inside the 4·w·h buffer |
| Pixels.PackedFromCursor | engine/texture.go:34-48 | a buffer whose every byte matches the row-major layout is the packed image |
| Pixels.WritePixel | engine/texture.go:38-46 | writing one pixel's R, G, B, A high bytes extends the correctly packed prefix by four bytes |
| Pixels.PackPixels | engine/texture.go:34-48 | the nested loop leaves a 4·w·h buffer in which byte 4·(y·w + x) + k is channel k of pixel (x, y) divided by 256 |
| EngineTexture.LoadImage | engine/texture.go:19-63 | a file that fails to open or decode gives the zero Image and an error; otherwise the image has the decoded size and the packed pixels |
| EngineTexture.NewTexture | engine/texture.go:74-84 | a load failure panics; otherwise the texture covers the whole image, UVs (0, 1, 0, 1) |
| EngineTexture.NewTextureFromAtlas | engine/texture.go:86-95 | the texture keeps the image it cuts from |
| EngineTexture.AtlasUVsInPixels | engine/texture.go:86-95 | the UVs scaled by the image size give back the offset and size of the sub-rectangle |
| EngineTexture.AtlasUVsInUnitSquare | engine/texture.go:87-90 | a sub-rectangle inside the image has 0 ≤ umin ≤ umax ≤ 1 and likewise for v |
| GraphicsTexture.LoadImage | graphics/texture.go:13-56 | an open or decode error gives texture 0 and no pixels; otherwise the texture id and the row-major packed bytes |
| TextureAtlas.NewAtlas | engine/textureAtlas.go:9-19 | the atlas keeps tileSize and atlasWidth and the loaded image; a failed load panics |
| TextureAtlas.Offset | engine/textureAtlas.go:21-26 | a zero atlas width panics with a division by zero; otherwise the offsets times the width give back the tile's column and row |
| TextureAtlas.RowColumnReconstruct | engine/textureAtlas.go:22-23 | row·width + column gives back the tile index |
| TextureAtlas.OffsetXInUnit | engine/textureAtlas.go:22 | for a positive width and a non-negative index the offset does not panic and its x lies in [0, 1) |
| TextureAtlas.OffsetYInUnit | engine/textureAtlas.go:23-24 | for an index inside the square atlas the offset does not panic and its y lies in [0, 1) |
| Sprites.QuadAsWritten | engine/sprite.go:59-70 | the sprite quad as written: 20 floats with indices 0,1,3,1,2,3 |
| Sprites.QuadAsWrittenShape | engine/sprite.go:59-70 | as written the UVs are right, but the fourth vertex's x is -height/2 instead of -width/2 |
| Sprites.QuadAsWrittenSquareOnly | engine/sprite.go:65 | the quad as written is the centred rectangle exactly when width equals height |
| Sprites.QuadCounterexample | engine/sprite.go:65 | for a 64 × 32 sprite the fourth vertex sits at x = -16 instead of -32 |
| Sprites.SpriteQuad | engine/sprite.go:59-70 | the corrected quad: 20 floats with the same indices |
| Sprites.SpriteQuadShape | engine/sprite.go:59-70 | the corrected quad is the centred width × height rectangle with the corner UVs, and its indices are in range |
| Sprites.NewSprite | engine/sprite.go:16-47 | the sprite keeps width, height, texture and VAO, and is placed by NewTransform(x, y, z) |
| Sprites.SpriteItemDrawsUpload | engine/sprite.go:16-57 | the sprite's item draws exactly the indices of the uploaded quad as written, with its texture's image, its own transform and VAO and the default shader; the uploaded quad carries the texture's UVs and is the centred width × height rectangle exactly when the sprite is square |
| Renderer.Quad | engine/renderer.go:273-284 | `quad` is the centred width × height rectangle at z = 0 with the corner UVs and indices 0,1,3,1,2,3 |
| Renderer.ScreenQuad | engine/renderer.go:260-271 | the screen quad is the 2 × 2 quad over the full texture |
| Renderer.GenVao | engine/renderer.go:293-316 | genVAO reports the VAO and VBO it made and the length of the index slice |
| Renderer.QuadVaoCount | engine/renderer.go:260-316 | both quad VAOs report 6 indices |
| Renderer.AppendAllGroups | engine/renderer.go:132-136 | pushing items appends, to each image's group, exactly the pushed items of that image in order |
| Renderer.AppendAllKeys | engine/renderer.go:132-136 | after a push the groups are the old ones plus the images of the pushed items |
| Renderer.AppendAllValid | engine/renderer.go:132-136 | every group stays non-empty and holds only items of its own image |
| Renderer.LightValues | engine/renderer.go:96-108 | one light fills exactly one slot's width: 3 floats for a position or falloff, 4 for a colour |
| Renderer.SlotOf | engine/renderer.go:96-108 | each slot has its kind's width |
| Renderer.PackedLength | engine/renderer.go:91-114 | n packed slots are width·n floats |
| Renderer.PackedSlot | engine/renderer.go:91-114 | slot s of the packed array is light s's values, or zeros when there is no light s |
| Renderer.PackedDropsExtra | engine/renderer.go:91-114 | lights beyond the slot count do not affect the packed array |
| Renderer.PackedPrefix | engine/renderer.go:91-114 | packing the first m slots only looks at the first lights |
| Renderer.PushLightUniforms | engine/renderer.go:91-114 | the loop always produces 15×3 positions, 15×3 falloffs and 15×4 colours; slot s carries light s or zeros |
| Renderer.RunConcat | engine/renderer.go:157-216 | running two command lists one after the other is running their concatenation, and the draws concatenate |
| Renderer.ItemTail | engine/renderer.go:171-185 | an item's matrices, VAO bind and draw call issue exactly one draw with the current program, texture and normal flag |
| Renderer.ItemHead | engine/renderer.go:171-185 | the normal-map prologue sets useNormals to the item's flag and draws nothing |
| Renderer.ItemDraw | engine/renderer.go:171-185 | one item in its group's texture gives exactly one draw of its VAO and index count with its own normal flag |
| Renderer.ItemsDraw | engine/renderer.go:171-185 | a group's items are drawn one each, in insertion order, with the group's texture |
| Renderer.GroupDraw | engine/renderer.go:168-186 | a group binds the image of its first item once and then draws all its items |
| Renderer.GroupsDraw | engine/renderer.go:168-186 | the object pass draws the items of the groups contiguously, group by group in iteration order |
| Renderer.UiItemDraw | engine/renderer.go:205-215 | a UI item is drawn once with its own texture and colour |
| Renderer.UiDraws | engine/renderer.go:205-215 | the UI pass draws every queued UI item in queue order with the UI program |
| Renderer.PrefixRun | engine/renderer.go:159-167 | the frame's prologue binds the framebuffer and the object shader and draws nothing |
| Renderer.PostRun | engine/renderer.go:189-200 | the post pass draws the screen quad once with the post shader and the framebuffer's texture |
| Renderer.AfterObjectsDraw | engine/renderer.go:189-215 | after the objects come exactly one post-pass draw and then one draw per UI item |
| Renderer.FrameDraws | engine/renderer.go:157-216 | a frame draws the grouped objects, then the post quad, then the UI items, each with its program |
| Renderer.Renderer.Init | engine/renderer.go:68-89 | Renderer2DInit empties the registry and the queues, keeps the three given built-in shaders, sets the zero camera, white ambient light, the ortho projection, the default post shader and a 6-index screen quad |
| Renderer.Renderer.BeginScene | engine/renderer.go:116-130 | the three queues are empty and the camera and ambient light are recorded; it panics with a nil-map write exactly when the object shader or the post shader has no uniform cache; when both have one, the post shader's cache gains "exposure" as a lookup stores it; nothing else changes |
| Renderer.Renderer.PushItem | engine/renderer.go:132-136 | each image group gains exactly that image's pushed items in order; the other queues are unchanged |
| Renderer.Renderer.PushLight | engine/renderer.go:138-141 | the light is appended at the end; nothing else changes |
| Renderer.Renderer.PushUI | engine/renderer.go:143-145 | the item is appended to the flat UI queue; nothing else changes |
| Renderer.Renderer.SetPostShader | engine/renderer.go:147-154 | a registered name selects its shader and any other name selects the default post shader; the selected shader's uniform cache is one the renderer could already select before the call |
| Renderer.Renderer.Render | engine/renderer.go:157-216 | the command trace is RenderTrace over the queues and the packed light arrays; it panics with a nil-map write exactly when the object shader or the post shader has no cache, or the UI shader has none and the UI queue is not empty; when the object and post shaders have caches, the post cache gains "u_texture" |
| Renderer.RenderTraceIsPrefix | engine/renderer.go:157-216 | the commands issued before a panic are a prefix of the whole frame's, and all of them are issued exactly when no shader write panics |
| Renderer.UiCmdsHead | engine/renderer.go:209-215 | the UI pass issues five commands per item, the first binding the first item's texture |
| Renderer.GroupsPass | engine/renderer.go:168-186 | the loop over the groups emits each group's commands in iteration order |
| Renderer.ItemsPass | engine/renderer.go:171-185 | the loop over a group emits each item's commands in order |
| Renderer.UiPass | engine/renderer.go:205-215 | the loop over the UI queue emits each item's commands in order |
| TileMap.Decoded | engine/tileMap.go:34-42 | a nil tile becomes -1, any other tile its id, and cells past the layer's tiles stay 0 |
| TileMap.BuildLayer | engine/tileMap.go:34-42 | a negative length panics, a layer longer than the map panics on the index, and otherwise the layer is Decoded |
| TileMap.SplitLayersMeaning | engine/tileMap.go:33-49 | the split succeeds exactly when every layer fits; the drawn layers stay in order and the last "Collision" layer becomes the collision layer |
| TileMap.LoadLayers | engine/tileMap.go:33-49 | the layer loop computes the split |
| TileMap.LayersStayPanicked | engine/tileMap.go:33-49 | once a layer panics, the later layers do not matter |
| TileMap.LoadTilemap | engine/tileMap.go:21-61 | a missing map or tileset, a failed atlas, or a layer longer than the map's cells panics; on success the map holds the split layers, the tile textures, the size and the truncated tile size, and its vertices generate without a panic |
| TileMap.AtlasToTextures | engine/tileMap.go:63-79 | errors as in Go (bad file, negative count, zero width); otherwise tileCount textures, texture i cut at column i % width, row i / width |
| TileMap.AtlasTileAt | engine/tileMap.go:70-75 | each atlas tile is the sub-rectangle at its column and row times the tile size |
| TileMap.AtlasTileAtOffset | engine/tileMap.go:63-79 | in a square atlas, tile i's UVs start at the atlas offset of i, span 1/width and stay in the unit square |
| TileMap.CellUVs | engine/tileMap.go:70-75 | a grid cell's UVs are column/width and row/width with span 1/width |
| TileMap.TileQuad | engine/tileMap.go:106-122 | the tile's quad is the square of half-side tileSize/2 around the tile centre, at depth l, with the texture's UVs |
| TileMap.TileVertices | engine/tileMap.go:106-122 | the vertex literal is the tile's quad |
| TileMap.TileQuadCentred | engine/tileMap.go:106-110 | the quad is centred on (col·ts + ts/2, row·ts + ts/2) at z = l |
| TileMap.RowNeighbours | engine/tileMap.go:106-122 | neighbouring tiles meet on an even tile size and leave a one-pixel gap on an odd one |
| TileMap.TileInsideMap | engine/tileMap.go:106-122 | every tile's quad lies inside the map's pixel size |
| TileMap.EmitCell | engine/tileMap.go:100-128 | a -1 cell adds nothing; any other adds 20 floats and the indices of the next quad; a tile id without a texture panics |
| TileMap.GenerateCell | engine/tileMap.go:100-128 | one cell of the loop, with the offset kept at 4 × the quads so far |
| TileMap.GenerateLayer | engine/tileMap.go:99-129 | the loop over one layer's cells emits that layer |
| TileMap.GenerateVertices | engine/tileMap.go:91-132 | the nested loops compute the generated mesh, or its panic |
| TileMap.LayerPanicPersists | engine/tileMap.go:99-129 | a panic in a layer is the layer's result |
| TileMap.LayersPanicPersist | engine/tileMap.go:91-132 | a panic in an early layer is the whole result |
| TileMap.Filled | engine/tileMap.go:101-103 | the count of filled cells is at most the cell count |
| TileMap.EmitLayerShape | engine/tileMap.go:99-129 | a layer adds one quad per filled cell and keeps the mesh well formed |
| TileMap.CellShape | engine/tileMap.go:100-128 | one cell keeps the mesh well formed and adds a quad exactly when it is filled |
| TileMap.EmitLayersShape | engine/tileMap.go:91-132 | all layers add one quad per filled cell |
| TileMap.TotalFilledBound | engine/tileMap.go:91-132 | there are at most layers × cells quads |
| TileMap.GeneratedShape | engine/tileMap.go:91-132 | the mesh has 20 floats and 6 indices per filled tile, the k-th index is 4·(k/6) plus the pattern, and all indices are in range |
| TileMap.PixelSize | engine/tileMap.go:158-160 | the size is width·tileSize by height·tileSize; with a positive tile size, each pixel dimension is positive exactly when the tile dimension is |
| TileMap.RenderItem | engine/tileMap.go:81-89 | the item carries the map's VAO, the first texture's image, the default shader and the claimed count; with no textures it panics |
| TileMap.IndexCountCoversGenerated | engine/tileMap.go:84 | the claimed count is width·height·6·layers and is at least the number of generated indices |
| Fonts.CursorStep | engine/fonts.go:71-77 | after glyph k the cursor goes to a new row when k % 16 == 0 (k = 0 included), otherwise one glyph width right |
| Fonts.CursorInsideGrid | engine/fonts.go:58-78 | the glyph-sized box at each glyph's layout cursor lies inside the 16 × 7 cell grid the atlas is sized for; this bounds the cursor, not the placed glyph, whose y is the cursor minus half a glyph height |
| Fonts.CursorInjective | engine/fonts.go:62-66 | no two glyphs share a cursor position |
| Fonts.GlyphTextureCoversCell | engine/fonts.go:98-100 | each glyph's UVs, scaled by the atlas size, are its cell's position and size |
| Fonts.PlaceGlyphs | engine/fonts.go:58-78 | the layout loop gives 96 glyphs, each with its size, advance and cursor position |
| Fonts.TextureGlyphs | engine/fonts.go:98-100 | the second loop gives each glyph the atlas texture of its cell and changes nothing else |
| Fonts.LoadFont | engine/fonts.go:18-109 | a missing or unparsable font is an error; otherwise a fresh font with 96 glyphs laid out and textured, and an empty cache |
| Fonts.GlyphQuadShape | engine/fonts.go:157-173 | each glyph's quad is the rectangle at the pen with the glyph's size minus one, at z = 0, with its UVs |
| Fonts.GlyphQuadLength | engine/fonts.go:157-173 | each glyph adds 20 floats |
| Fonts.TextVerticesLength | engine/fonts.go:157-173 | n runes give 20n floats |
| Fonts.TextQuadAt | engine/fonts.go:157-173 | rune k's 20 floats are its glyph's quad at the pen position after the earlier runes' advances |
| Fonts.TextMeshShape | engine/fonts.go:157-173 | the text mesh has 20 floats and 6 indices per rune, the indices are in range, and block k is rune k's quad |
| Fonts.BuildText | engine/fonts.go:157-173 | a rune without a glyph panics; otherwise the vertices are the text's quads and the indices run 4k plus the pattern |
| Fonts.GlyphVertices | engine/fonts.go:157-173 | the vertex literal is the glyph's quad |
| Fonts.NewTextItem | engine/fonts.go:195-200 | the new item sits at (x, y, 9) at unit scale with the atlas image and the VAO |
| Fonts.Scaled | engine/fonts.go:146-150 | rescaling sets the scale to (s, s, 1) and changes nothing else |
| Fonts.ScaledTwice | engine/fonts.go:146-150 | rescaling a cached item twice keeps only the last scale |
| Fonts.Font.constructor | engine/fonts.go:132-137 | a font holds its glyphs, scale, atlas and an empty item cache |
| Fonts.Font.ScalingFactor | engine/fonts.go:139-141 | the factor times the font's scale is the requested size |
| Fonts.Font.RenderItem | engine/fonts.go:143-205 | as written: a hit returns the cached item rescaled; a miss builds the mesh, caches the item and returns it at unit scale |
| Fonts.Font.RenderItemFixed | engine/fonts.go:143-205 | corrected: a miss caches the unscaled item and returns it scaled to the requested size |
| Fonts.DrawTwice | engine/fonts.go:203 | as written, the first draw of a string is unscaled while the second has the requested scale, so they differ whenever the factor is not 1 |
| Fonts.DrawTwiceFixed | engine/fonts.go:202-203 | corrected, two draws of a string agree; a later call reuses the position and VAO of the first, because the cache is keyed by the string alone |
| Fonts.FirstDrawUnscaled | engine/fonts.go:203 | for a 16-pixel font drawn at 32, the first item has scale 1 and the scaled one 2 |
| Shaders.UniformCache.constructor | engine/shader.go:65 | a new program starts with an empty uniform cache |
| Shaders.CacheLookupCachesOnce | engine/shader.go:123-126 | after a lookup the name is cached, no other entry changed, a miss stores the queried location and a hit changes nothing |
| Shaders.CacheLookupMissReturnsZero | engine/shader.go:121-129 | as written, the returned location differs from the stored one exactly on a miss with a non-zero location |
| Shaders.CacheLookupCounterexample | engine/shader.go:128 | the first lookup of a uniform at location 3 returns 0 and stores 3 |
| Shaders.CacheLookupFixedConsistent | engine/shader.go:121-129 | the corrected lookup returns what the cache then holds, and repeating it changes nothing |
| Shaders.UniformLoc | engine/shader.go:121-129 | as written, with the cache updated in place; Shader{} with its nil map panics on a miss |
| Shaders.UniformLocFixed | engine/shader.go:121-129 | corrected: the location returned is the one stored |
| Shaders.SetBool | engine/shader.go:72-78 | the uniform receives gl.TRUE exactly for true and gl.FALSE exactly for false, at the cached location |
| Shaders.ReadFile | engine/shader.go:159-166 | a read error panics; otherwise the contents followed by exactly one NUL byte |
| Shaders.LoadShaderFile | engine/shader.go:150-157 | the stage loads exactly when the file reads and compiles; a read failure and a compile failure each panic |
| Shaders.NewShader | engine/shader.go:41-66 | the vertex stage is loaded first and a failing stage panics; a failed link returns Shader{} with an error; success gives the program and a fresh, empty cache |
| Shaders.LoadUnnamedShader | engine/shader.go:25-31 | loadShader returns NewShader's shader with the error dropped |
| Shaders.ShaderRegistry.constructor | engine/shader.go:23 | the registry starts empty |
| Shaders.ShaderRegistry.LoadShader | engine/shader.go:33-39 | the shader is stored under the name even after a failed link, replacing any earlier entry; no other entry changes |
| DebugWindow.Debug.constructor | engine/debugWindow.go:10 | the debug map starts empty |
| DebugWindow.Debug.AddDebugInfo | engine/debugWindow.go:26-28 | exactly one label is set or overwritten |
| DebugWindow.Debug.RemoveDebugInfo | engine/debugWindow.go:30-32 | exactly that label is removed, and an absent label changes nothing |
| DebugWindow.Debug.DebugLists | engine/debugWindow.go:12-24 | the labels are the map's keys, each once, sorted ascending; values[i] is the value of labels[i]; the map is not changed |
| DebugWindow.CollectKeys | engine/debugWindow.go:14-16 | the key loop lists every key exactly once |
| DebugWindow.SortedKeys | engine/debugWindow.go:13-17 | the keys, each once, in ascending order |
| DebugWindow.SortStrings | engine/debugWindow.go:17 | sort.Strings leaves the slice sorted and a permutation of its old contents |
| DebugWindow.InsertAt | engine/debugWindow.go:17 | one insertion step extends the sorted prefix and keeps the contents |
| DebugWindow.SortedPermutationUnique | engine/debugWindow.go:17 | there is only one sorted order of given contents, so any correct sort yields the same labels |
| DebugWindow.LessEqReflexive | engine/debugWindow.go:17 | every string is ≤ itself in the byte order |
| DebugWindow.LessEqTotal | engine/debugWindow.go:17 | any two strings are comparable |
| DebugWindow.LessEqTransitive | engine/debugWindow.go:17 | the order is transitive |
| DebugWindow.LessEqAntisymmetric | engine/debugWindow.go:17 | two strings ≤ each other are equal |
| Sound.Ctrl.constructor | engine/sound.go:79 | a new control starts with the given pause flag |
| Sound.Mixer.constructor | engine/sound.go:20-24 | nothing is loaded, looped or initialised |
| Sound.Mixer.LoadSound | engine/sound.go:26-52 | a loaded name changes nothing; a failed decode exits; the first load sets up the maps and the speaker's rate; the buffer is stored; no other name changes |
| Sound.Mixer.PlaySound | engine/sound.go:54-64 | an unknown name changes nothing; a known one is played once at the given volume; no loop state changes |
| Sound.Mixer.LoopSound | engine/sound.go:66-94 | unknown: no change; loaded: exactly one new unpaused loop that is started; already looping: unpaused, nothing added |
| Sound.Mixer.PauseLoop | engine/sound.go:109-119 | a loop is paused and keeps its entry; any other name changes nothing |
| Sound.Mixer.StopLoop | engine/sound.go:96-107 | a loop is paused and then removed; any other name changes nothing |
| Ui.NewGUIBox | engine/ui.go:10-17 | the box keeps its colour and size and uses the 9-slice texture without a normal map |
| Ui.GUIBoxTopLeft | engine/ui.go:10-17 | the sprite is centred so that its top-left corner is (x, y), on layer 9, at unit scale |
| Ui.BoxItems | engine/ui.go:19-24 | the first item gets the UI shader and the box colour and all else is the sprite's; no sprite items panics |
| Ui.NewTextField | engine/ui.go:33-35 | the field keeps its text, font, position and colour |
| Ui.TextFieldIgnoresSize | engine/ui.go:33-35 | the font size argument has no effect |
| Ui.TextFieldItems | engine/ui.go:37-41 | exactly one item, the font's item recoloured with the field's colour |
| Scene.Direction | scene.go:26-38 | each axis is -1, 0 or 1; opposing keys cancel; A alone is left and W alone is up |
| Scene.AxisStepKeepsClear | scene.go:43-49 | with the collision test as written: a step from a clear position ends clear, either at the target or reverted to where it was, and the player moves exactly when the new box is clear; the box it ends on is clear for the corrected guard as well |
| Scene.PlayerUpdateKeepsClear | scene.go:43-57 | with the collision test as written, a player clear of the map stays clear after both axis steps, with the collider following the position |
| Scene.Player.constructor | scene.go:16-23 | the player starts at (500, 200, 10), with a 64 × 64 collider on that point and speed 5 |
| Scene.Player.Advance | scene.go:43-49 | one axis: move, and revert position and collider on a hit of the collision test as written; its panic (zero tile size, or a corner index equal to the layer length) is returned |
| Scene.Player.Update | scene.go:25-58 | the x step, then the y step, each reverted on a hit; a panic of the collision test as written stops the update with that fault |
| Scene.ClampCamera | scene.go:122-137 | the camera never runs past the map's far edge, starts at or after 0 when the map is at least a screen wide, and a centred start already in range is kept |
| Scene.AnimationFor | scene.go:163-169 | A wins over D, and with neither the player idles |
| Scene.FrameLights | scene.go:180-182 | three lights: one above the player, one red, one blue |
| Scene.LoopAfterKeysCases | scene.go:139-147 | the "bg" loop after P, O: pausing wins, P alone resumes it, no key leaves it, and an unloaded sound stays unloaded |
| Scene.FrameGroups | scene.go:177-179 | each image group holds the tile map's, then the player's, then the sprite's items of that image |
| Scene.TestScene.constructor | scene.go:102-109 | the scene starts with the zero camera and both flags off |
| Scene.TestScene.Toggles | scene.go:149-161 | I flips the inventory flag; C flips the funky flag and selects "funky lines" when turning on and the default when turning off |
| Scene.TestScene.SoundKeys | scene.go:139-147 | the sound bank is kept; the "bg" loop follows P then O and no other sound's state changes; the voices handed to the speaker only grow, by one voice when P starts the "bg" loop (the loop of "bg"'s buffer behind its control, at volume -1) and one "shot" at volume 1 when V finds it loaded, which then ends them |
| Scene.TestScene.LoopKeys | scene.go:139-144 | P then O change only "bg", as LoopAfterKeys says, and add a voice only when P starts the loop: a loop of "bg"'s buffer behind its control at volume -1 |
| Scene.TestScene.PushFrame | scene.go:175-181 | BeginScene, then the tile map's, player's and sprite's items and the three lights, in that order; an object or post shader without a uniform cache panics in BeginScene with a nil-map write |
| Scene.TestScene.Frame | scene.go:122-182 | camera clamp, toggles, animation and the queued frame as the parts above state, and the mixer as SoundKeys states; it panics exactly when the object shader or the post shader left selected has no uniform cache |
| Scene.TestScene.Present | scene.go:149-182 | the camera, the toggles, the animation and the queued frame; the frame panics exactly when the object shader or the post shader the toggles leave selected has no uniform cache |
| Scene.TestScene.Update | scene.go:120-190 | the player moves first; a collision panic ends the frame with that fault; otherwise the rest of the frame runs, the mixer changes as SoundKeys states, and the frame succeeds, returning the animation, exactly when the object shader and the selected post shader have uniform caches |

## Left out

- OpenGL, GLFW, beep/speaker and freetype calls are not executed. GL object ids, uniform locations, link status and compile results are parameters. `render` is a trace of abstract commands, and the speaker is a list of the voices handed to it.
- Matrix maths (transform, camera and light matrices, `mgl32.Ortho`) and the moving-vector normalisation in scene.go are opaque values or parameters.
- `float32` is modelled as exact `real`: rounding is not modelled.
- EngineTexture.NewTextureFromAtlas: requires a non-zero image size, because a float32 division by zero (Inf/NaN) is not modelled. The same holds for the members that cut an atlas through it: TileMap.AtlasToTextures, TileMap.LoadTilemap, TileMap.AtlasTileAt, Fonts.LoadFont, Fonts.TextureGlyphs and Fonts.GlyphTextureCoversCell.
- Fonts.Font.ScalingFactor: requires a non-zero font scale for the same reason. This carries over to Fonts.Font.RenderItem, Fonts.Font.RenderItemFixed, Fonts.DrawTwice and Fonts.DrawTwiceFixed.
- Shaders.SetBool: uses the corrected lookup Shaders.UniformLocFixed, so the location it reports is the one stored, not the zero the code as written returns on a first call.
- SetInt, SetFloat, SetFloatArray, SetVec2, SetVec2Array, SetVec3, SetVec3Array, SetVec4, SetVec4Array and SetMatrix (engine/shader.go:80-119) are not modelled as members of their own. Each is a UniformLoc call plus one GL upload. The post shader's two writes (engine/renderer.go:129 and 196) are modelled as Shaders.UniformLoc calls inside Renderer.Renderer.BeginScene and Renderer.Renderer.Render. `Use` and `compileShader` are GL calls; the compiler is the `compile` parameter.
- Renderer.Renderer.BeginScene, Renderer.Renderer.Render: the first uniform write of the object shader (engine/renderer.go:111 and 124) and of the UI shader (engine/renderer.go:211) is modelled as the nil-map panic it is when that shader has no cache. When the shader does have a cache, its writes (engine/renderer.go:111-113, 124-126, 174-181, 211-212) do not update that cache in the model. The object and UI shaders' cache contents after a frame are therefore not captured; only the post shader's are.
- Renderer.Renderer.Init: NewShaderFromString is not part of this model, so the three built-in shaders are parameters and may lack a uniform cache.
- TileMap.GenerateVertices, Fonts.BuildText: `uint32` indices are unbounded, so the wrap past 2^32 vertices is not modelled. `width*height` in LoadTilemap and the pixel buffer size in LoadImage are unbounded `int`.
- Fonts.PlaceGlyphs: the `int32` glyph cursor is unbounded.
- The nil `shaderMap` before Renderer2DInit is not modelled. The registry exists from the start, and Renderer2DInit empties it.
- `toPNG`, the freetype/gltext rasterisation and `Pow2` in engine/fonts.go are not modelled. The rasterised atlas and glyph metrics are parameters.
- The fmt/log output everywhere is not modelled. `ClearSounds` and `close` in engine/sound.go are speaker calls only.
- `displayDebug` (engine/debugWindow.go:34-45) is imgui drawing.
- `sort.Strings` is modelled as insertion sort. DebugWindow.SortedPermutationUnique shows that every correct sort gives the same slice.
- Go's map iteration order is a parameter. In `render` it is the order of the image groups; in `debugLists` it is the order in which the keys are collected.
- The files come from different iterations of the engine, and the mismatches are not reconciled:
  - the seven-argument NewSprite called at engine/ui.go:14 and scene.go:19;
  - the six-argument NewTextureFromAtlas called at engine/fonts.go:99;
  - LoadTilemap as called at scene.go:74;
  - the three-argument font renderItem called at engine/ui.go:38;
  - the ten-argument NewLight called at scene.go:180-182, where engine/light.go:13 takes seven arguments. Scene.SceneLight takes the three falloffs as given.
  The results of these calls are parameters. `newScene` (scene.go:72-110) wires these calls together and is not modelled beyond the scene's constructor.
- The Animator and `SetTexture` (scene.go:171-173) are not part of this model.
- The UI controller calls (scene.go:184-189) are not part of this model.
- `Tilemap.init`, `newFrameBuffer`, the buffer uploads in `genVAO` and `NewSprite`, and the GL state calls are abstract or left out.
- ScreenW and ScreenH are parameters.
- The render items of the tile map, player and sprite are parameters of the scene's Update.
- A nil collision slice reads as empty.
- engine/engine.go (frame loop, ticker, goroutine), the window files, engine/input.go and main.go are not part of this model.

## Findings

| source | as written | input that shows it | evidently intended | confidence | as-written member | corrected member |
|---|---|---|---|---|---|---|
| engine/collision.go:66-71 | the guard `p > len(t.collision)` lets an index equal to the length through to the read | a 2 × 1 map with tile size 2 and a 1 × 2 box at (0, 0): the bottom corner's index is 2 = len | `p >= len`, so a corner past the layer counts as a hit | high (not executed) | Collision.CollidesMapCollider, Collision.GuardCounterexample | Collision.CollidesMapColliderFixed |
| engine/shader.go:128 | on a miss UniformLoc stores the queried location but returns the zero value of the failed map read | first lookup of a uniform that GL places at location 3 returns 0 | return the location just stored | high (not executed) | Shaders.UniformLoc, Shaders.CacheLookupCounterexample | Shaders.UniformLocFixed, Shaders.CacheLookupFixedConsistent |
| engine/sprite.go:65 | the fourth vertex's x is `-height/2` | a 64 × 32 sprite puts that vertex at x = -16 instead of -32 | `-width/2`, as in renderer.go's quad | high (not executed) | Sprites.QuadAsWritten, Sprites.QuadCounterexample | Sprites.SpriteQuad, Sprites.SpriteQuadShape |
| engine/fonts.go:203 | on a miss the scale is written to the zero-valued lookup result `ri`, not to the returned item | a 16-pixel font drawn at size 32: the first call returns scale 1, later calls scale 2 | scale the returned item on a miss as on a hit | medium (not executed) | Fonts.Font.RenderItem, Fonts.DrawTwice | Fonts.Font.RenderItemFixed, Fonts.DrawTwiceFixed |
