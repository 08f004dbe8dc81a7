/**
 * engine/ui.go: a coloured box drawn through a sprite, and a text field
 * drawn through a font, both described to the renderer's UI pass.
 *
 * This file belongs to another iteration of the engine than sprite.go and
 * fonts.go: it builds its sprite with a float32, seven-argument NewSprite
 * (with an optional normal map) whose `renderItem` returns a slice, and
 * asks the font for an item with three arguments. Neither callee is part of
 * this model, so GuiSprite records only the arguments NewSprite receives,
 * and the items those calls return are parameters.
 */
module Ui {
  import opened GoInt
  import opened Transforms
  import opened EngineTexture
  import opened Shaders
  import opened Renderer
  import Fonts

  /** The sprite ui.go creates: its size, the transform NewSprite is given, its texture and optional normal map. */
  datatype GuiSprite = GuiSprite(width: real, height: real, transform: Transform, texture: Texture, normal: Option<Texture>)

  datatype Box = Box(colour: Vec4, sprite: GuiSprite)

  /** The UI layer: boxes are placed at z = 9. */
  const UiDepth: real := 9.0

  /**
   * NewGUIBox: (x, y) is the box's top-left corner and the sprite is placed by
   * its centre, so it is shifted by half the size; `tex` is what
   * NewTexture("res/ui9slice.png") loaded. No normal map is passed.
   */
  function NewGUIBox(w: real, h: real, x: real, y: real, colour: Vec4, tex: Texture): (b: Box)
    ensures b.colour == colour && b.sprite.texture == tex && b.sprite.normal == None
    ensures b.sprite.width == w && b.sprite.height == h
  {
    Box(colour, GuiSprite(w, h, NewTransform(x + w / 2.0, y + h / 2.0, UiDepth), tex, None))
  }

  /** The box's sprite is centred so that its top-left corner is (x, y), on the UI layer, at unit scale. */
  lemma GUIBoxTopLeft(w: real, h: real, x: real, y: real, colour: Vec4, tex: Texture)
    ensures var s := NewGUIBox(w, h, x, y, colour, tex).sprite;
      s.transform.pos.x - s.width / 2.0 == x && s.transform.pos.y - s.height / 2.0 == y &&
      s.transform.pos.z == UiDepth && s.transform.scale == One3
  {
  }

  /**
   * Box.renderItem: the sprite's items with the first one drawn by the UI
   * shader in the box's colour; every other field and every other item is the
   * sprite's. A sprite that reports no items makes `ri[0]` panic.
   */
  function BoxItems(b: Box, spriteItems: seq<RenderItem>, uiShader: Shader): (r: Outcome<seq<RenderItem>>)
    ensures r.Ok? <==> |spriteItems| > 0
    ensures r.Panic? ==> r.fault == IndexOutOfRange
    ensures r.Ok? ==> |r.value| == |spriteItems| && r.value[1..] == spriteItems[1..]
    ensures r.Ok? ==> r.value[0].shader == uiShader && r.value[0].colour == b.colour
    ensures r.Ok? ==> r.value[0] == spriteItems[0].(shader := r.value[0].shader, colour := r.value[0].colour)
  {
    if |spriteItems| == 0 then Panic(IndexOutOfRange)
    else Ok(spriteItems[0 := spriteItems[0].(shader := uiShader, colour := b.colour)])
  }

  datatype TextField = TextField(x: real, y: real, font: Fonts.Font, text: string, colour: Vec4)

  /** NewTextField: keeps the text, font, position and colour; the font size argument is not kept. */
  function NewTextField(text: string, fontSize: int, x: real, y: real, font: Fonts.Font, colour: Vec4): (t: TextField)
    ensures t.text == text && t.font == font && t.x == x && t.y == y && t.colour == colour
  {
    TextField(x, y, font, text, colour)
  }

  /** The font size passed to NewTextField has no effect on the field. */
  lemma TextFieldIgnoresSize(text: string, size1: int, size2: int, x: real, y: real, font: Fonts.Font, colour: Vec4)
    ensures NewTextField(text, size1, x, y, font, colour) == NewTextField(text, size2, x, y, font, colour)
  {
  }

  /**
   * TextField.renderItem: exactly one item, the font's item for the field's
   * text at its position, recoloured with the field's colour.
   */
  function TextFieldItems(t: TextField, fontItem: RenderItem): (r: seq<RenderItem>)
    ensures |r| == 1 && r[0].colour == t.colour
    ensures r[0] == fontItem.(colour := r[0].colour)
  {
    [fontItem.(colour := t.colour)]
  }
}
