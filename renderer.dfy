/**
 * engine/renderer.go: the 2D renderer's per-frame queues (render items
 * batched by image, lights, UI items), the packing of light uniforms, the
 * quad meshes, and `render` as a trace of GL commands.
 *
 * GL calls are not executed: `render` returns the commands it would issue,
 * and `Run`/`Draws` below interpret such a trace against a small model of
 * the GL state (current program, active texture unit, textures bound per
 * unit, bound vertex array, `useNormals` and `u_colour`) to say what each
 * draw call draws with. Matrices (`GetMatrix`, `ViewMatrix`, `mgl32.Ortho`,
 * `Light.position`) are kept symbolic or passed in as functions.
 */
module Renderer {
  import opened GoInt
  import opened Transforms
  import opened EngineTexture
  import opened Shaders
  import opened Mesh

  const MaxLights: nat := 15

  datatype RenderItem = RenderItem(vao: nat, indices: int, shader: Shader, image: Image,
                                   useNormals: bool, normals: Image, transform: Transform, colour: Vec4)

  /** A renderItem literal that sets only vao, indices, shader, image and transform; the rest are Go zero values. */
  function BasicItem(vao: nat, indices: int, shader: Shader, image: Image, transform: Transform): RenderItem
  {
    RenderItem(vao, indices, shader, image, false, ZeroImage, transform, Zero4)
  }

  /** engine/camera2D.go Camera2D: an integer position (its view matrix is not modelled). */
  datatype Camera = Camera2D(x: int, y: int)

  /** `mgl32.Ortho(left, right, bottom, top, near, far)`, kept symbolic. */
  datatype Projection = Ortho(left: real, right: real, bottom: real, top: real, near: real, far: real)

  datatype FrameBuffer = FrameBuffer(id: nat, rbo: nat, tex: Texture, width: int, height: int)

  /** What genVAO returns: vertex array, vertex buffer and index count. */
  datatype VaoHandle = VaoHandle(vao: nat, vbo: nat, indices: int)

  // ---------------------------------------------------------------- meshes

  /** quad: a width × height rectangle centred on the origin, textured with the UV rectangle. */
  function Quad(width: real, height: real, uv: Vec4): (m: MeshData)
    ensures IsCentredRect(m, width, height)
    ensures HasCornerUVs(m, uv.x, uv.y, uv.z, uv.w)
    ensures AtDepth(m, 0.0)
    ensures m.indices == QuadPattern && IndicesInRange(m)
  {
    FlatQuad(-width / 2.0, width / 2.0, -height / 2.0, height / 2.0, 0.0, uv)
  }

  /** screenQuadVAO's mesh: the clip-space square [-1, 1]² covering the whole texture, which is `quad` of size 2 × 2 with full UVs. */
  function ScreenQuad(): (m: MeshData)
    ensures m == Quad(2.0, 2.0, Vec4(0.0, 1.0, 0.0, 1.0))
  {
    var m := MeshData([-1.0, -1.0, 0.0, 0.0, 0.0,
                        1.0, -1.0, 0.0, 1.0, 0.0,
                        1.0,  1.0, 0.0, 1.0, 1.0,
                       -1.0,  1.0, 0.0, 0.0, 1.0],
                      [0, 1, 3, 1, 2, 3]);
    assert m.vertices == Quad(2.0, 2.0, Vec4(0.0, 1.0, 0.0, 1.0)).vertices;
    m
  }

  /** genVAO: the GL ids are what GL hands out; the count is `int32(len(i))`. */
  function GenVao(m: MeshData, vao: nat, vbo: nat): (h: VaoHandle)
    ensures h.vao == vao && h.vbo == vbo
    ensures |m.indices| < TwoTo31 ==> h.indices == |m.indices|
  {
    VaoHandle(vao, vbo, Int32(|m.indices|))
  }

  /** newQuadVAO and screenQuadVAO both report six indices. */
  lemma QuadVaoCount(width: real, height: real, uv: Vec4, vao: nat, vbo: nat)
    ensures GenVao(Quad(width, height, uv), vao, vbo).indices == 6
    ensures GenVao(ScreenQuad(), vao, vbo).indices == 6
  {}

  // ---------------------------------------------------------------- grouping

  /** The items queued for an image (a missing key reads as an empty slice in Go). */
  function Group(buffer: map<Image, seq<RenderItem>>, img: Image): seq<RenderItem>
  {
    if img in buffer then buffer[img] else []
  }

  /** `renderBuffer[ri.image] = append(renderBuffer[ri.image], ri)` */
  function Append(buffer: map<Image, seq<RenderItem>>, ri: RenderItem): map<Image, seq<RenderItem>>
  {
    buffer[ri.image := Group(buffer, ri.image) + [ri]]
  }

  /** The buffer after appending every item, first to last. */
  function AppendAll(buffer: map<Image, seq<RenderItem>>, items: seq<RenderItem>): map<Image, seq<RenderItem>>
  {
    if |items| == 0 then buffer else Append(AppendAll(buffer, items[..|items| - 1]), items[|items| - 1])
  }

  /** The items of a sequence that carry a given image, in order. */
  function OfImage(items: seq<RenderItem>, img: Image): seq<RenderItem>
  {
    if |items| == 0 then []
    else OfImage(items[..|items| - 1], img) + (if items[|items| - 1].image == img then [items[|items| - 1]] else [])
  }

  /** The images the items carry. */
  function Images(items: seq<RenderItem>): set<Image>
  {
    set k | 0 <= k < |items| :: items[k].image
  }

  /** Every group is non-empty and holds only items of its own image. */
  predicate GroupsValid(buffer: map<Image, seq<RenderItem>>)
  {
    forall img :: img in buffer ==> |buffer[img]| > 0 && forall k :: 0 <= k < |buffer[img]| ==> buffer[img][k].image == img
  }

  /** After PushItem, each image's group is its old group followed by the new items of that image, in order. */
  lemma {:induction false} AppendAllGroups(buffer: map<Image, seq<RenderItem>>, items: seq<RenderItem>, img: Image)
    ensures Group(AppendAll(buffer, items), img) == Group(buffer, img) + OfImage(items, img)
  {
    if |items| > 0 {
      AppendAllGroups(buffer, items[..|items| - 1], img);
    }
  }

  /** After PushItem the keys are the old keys plus exactly the images of the new items. */
  lemma {:induction false} AppendAllKeys(buffer: map<Image, seq<RenderItem>>, items: seq<RenderItem>)
    ensures AppendAll(buffer, items).Keys == buffer.Keys + Images(items)
  {
    if |items| > 0 {
      AppendAllKeys(buffer, items[..|items| - 1]);
      ImagesSnoc(items);
    }
  }

  lemma ImagesSnoc(items: seq<RenderItem>)
    requires |items| > 0
    ensures Images(items) == Images(items[..|items| - 1]) + {items[|items| - 1].image}
  {
    var init, last := items[..|items| - 1], items[|items| - 1];
    forall i | i in Images(items) ensures i in Images(init) + {last.image} {
      var k :| 0 <= k < |items| && items[k].image == i;
      if k < |items| - 1 {
        assert init[k] == items[k];
      }
    }
    forall i | i in Images(init) ensures i in Images(items) {
      var k :| 0 <= k < |init| && init[k].image == i;
      assert items[k] == init[k];
    }
  }

  /** PushItem keeps every group non-empty and keyed by its own image. */
  lemma {:induction false} AppendAllValid(buffer: map<Image, seq<RenderItem>>, items: seq<RenderItem>)
    requires GroupsValid(buffer)
    ensures GroupsValid(AppendAll(buffer, items))
  {
    if |items| > 0 {
      AppendAllValid(buffer, items[..|items| - 1]);
    }
  }

  // ---------------------------------------------------------------- lights

  datatype SlotKind = PositionSlot | FalloffSlot | ColourSlot

  /** Floats per light in each uniform array: vec3, vec3, vec4. */
  function Width(kind: SlotKind): nat
  {
    match kind
    case PositionSlot => 3
    case FalloffSlot => 3
    case ColourSlot => 4
  }

  /** n zero floats; the ensures spares the solver unfolding `seq` in Render's proof. */
  function Zeros(n: nat): (z: seq<real>)
    ensures |z| == n && forall i :: 0 <= i < n ==> z[i] == 0.0
  {
    seq(n, i => 0.0)
  }

  /** The floats one light contributes; `project` stands for `Light.position(view, projection)`. */
  function LightValues(kind: SlotKind, l: Light, project: Light -> Vec3): (v: seq<real>)
    ensures |v| == Width(kind)
  {
    match kind
    case PositionSlot => var p := project(l); [p.x, p.y, p.z]
    case FalloffSlot => [l.falloffs.x, l.falloffs.y, l.falloffs.z]
    case ColourSlot => [l.colour.x, l.colour.y, l.colour.z, l.colour.w]
  }

  /** Slot s of an array: light s if there is one, zeros otherwise. */
  function SlotOf(kind: SlotKind, lights: seq<Light>, s: nat, project: Light -> Vec3): (v: seq<real>)
    ensures |v| == Width(kind)
  {
    if s < |lights| then LightValues(kind, lights[s], project) else Zeros(Width(kind))
  }

  /** The first n slots of one uniform array, concatenated. */
  function Packed(kind: SlotKind, lights: seq<Light>, project: Light -> Vec3, n: nat): seq<real>
  {
    if n == 0 then [] else Packed(kind, lights, project, n - 1) + SlotOf(kind, lights, n - 1, project)
  }

  /** Slot s of a flat array of w-float slots. */
  function Slot(xs: seq<real>, s: nat, w: nat): seq<real>
    requires w * s + w <= |xs|
  {
    xs[w * s..w * s + w]
  }

  /** A packed array holds w floats per slot. */
  lemma {:induction false} PackedLength(kind: SlotKind, lights: seq<Light>, project: Light -> Vec3, n: nat)
    ensures |Packed(kind, lights, project, n)| == Width(kind) * n
  {
    if n > 0 {
      PackedLength(kind, lights, project, n - 1);
      MulStep(Width(kind), n);
    }
  }

  /** Slot s of a packed array is exactly SlotOf(s). */
  lemma {:induction false} PackedSlot(kind: SlotKind, lights: seq<Light>, project: Light -> Vec3, n: nat, s: nat)
    requires s < n
    ensures Width(kind) * s + Width(kind) <= |Packed(kind, lights, project, n)|
    ensures Slot(Packed(kind, lights, project, n), s, Width(kind)) == SlotOf(kind, lights, s, project)
  {
    var w := Width(kind);
    var prev := Packed(kind, lights, project, n - 1);
    var last := SlotOf(kind, lights, n - 1, project);
    assert Packed(kind, lights, project, n) == prev + last;
    PackedLength(kind, lights, project, n - 1);
    SlotOfAppend(prev, last, w, s, n);
    if s < n - 1 {
      PackedSlot(kind, lights, project, n - 1, s);
    }
  }

  /** Appending slot n − 1 to n − 1 packed slots: the earlier slots stay where they were. */
  lemma SlotOfAppend(prev: seq<real>, last: seq<real>, w: nat, s: nat, n: nat)
    requires s < n && |prev| == w * (n - 1) && |last| == w
    ensures w * s + w <= |prev + last|
    ensures s < n - 1 ==> w * s + w <= |prev| && Slot(prev + last, s, w) == Slot(prev, s, w)
    ensures s == n - 1 ==> Slot(prev + last, s, w) == last
  {
    MulSlot(w, s, n);
    if s < n - 1 {
      SliceOfPrefix(prev, last, w * s, w * s + w);
    } else {
      SliceOfPrefix(prev, last, |prev|, |prev| + w);
    }
  }

  lemma MulStep(w: nat, n: nat)
    requires n > 0
    ensures w * (n - 1) + w == w * n
  {}

  lemma MulSlot(w: nat, s: nat, n: nat)
    requires s < n
    ensures w * s + w <= w * n
    ensures s < n - 1 ==> w * s + w <= w * (n - 1)
    ensures s == n - 1 ==> w * s == w * (n - 1)
  {
    assert w * s + w == w * (s + 1);
    if s < n - 1 {
      assert w * (s + 1) <= w * (n - 1);
    }
  }

  /** A slice of a concatenation that falls inside, or exactly on, one part. */
  lemma SliceOfPrefix(a: seq<real>, b: seq<real>, lo: int, hi: int)
    requires 0 <= lo <= hi <= |a| + |b| && (hi <= |a| || (lo == |a| && hi == |a| + |b|))
    ensures hi <= |a| ==> (a + b)[lo..hi] == a[lo..hi]
    ensures lo == |a| && hi == |a| + |b| ==> (a + b)[lo..hi] == b
  {}

  /** Lights past the 15th never reach the uniforms. */
  lemma {:induction false} PackedDropsExtra(kind: SlotKind, lights: seq<Light>, project: Light -> Vec3, n: nat)
    requires n <= |lights|
    ensures Packed(kind, lights, project, n) == Packed(kind, lights[..n], project, n)
  {
    PackedPrefix(kind, lights, project, n, n);
  }

  lemma {:induction false} PackedPrefix(kind: SlotKind, lights: seq<Light>, project: Light -> Vec3, m: nat, n: nat)
    requires m <= n <= |lights|
    ensures Packed(kind, lights, project, m) == Packed(kind, lights[..n], project, m)
  {
    if m > 0 {
      PackedPrefix(kind, lights, project, m - 1, n);
      assert lights[..n][m - 1] == lights[m - 1];
    }
  }

  /**
   * pushLightUniforms: exactly MAX_LIGHTS slots per array; slot s carries light s
   * while there are lights and zeros after (the SetVec3Array/SetVec4Array calls
   * are the LightArrays command of the render trace).
   */
  method PushLightUniforms(lights: seq<Light>, project: Light -> Vec3)
    returns (positions: seq<real>, falloffs: seq<real>, colours: seq<real>)
    ensures positions == Packed(PositionSlot, lights, project, MaxLights)
    ensures falloffs == Packed(FalloffSlot, lights, project, MaxLights)
    ensures colours == Packed(ColourSlot, lights, project, MaxLights)
    ensures |positions| == 3 * MaxLights && |falloffs| == 3 * MaxLights && |colours| == 4 * MaxLights
    ensures forall s :: 0 <= s < MaxLights ==>
      Slot(positions, s, 3) == SlotOf(PositionSlot, lights, s, project) &&
      Slot(falloffs, s, 3) == SlotOf(FalloffSlot, lights, s, project) &&
      Slot(colours, s, 4) == SlotOf(ColourSlot, lights, s, project)
  {
    positions, falloffs, colours := [], [], [];
    var i := 0;
    while i < MaxLights
      invariant 0 <= i <= MaxLights
      invariant positions == Packed(PositionSlot, lights, project, i)
      invariant falloffs == Packed(FalloffSlot, lights, project, i)
      invariant colours == Packed(ColourSlot, lights, project, i)
    {
      if i < |lights| {
        var light := lights[i];
        var position := project(light);
        positions := positions + [position.x, position.y, position.z];
        falloffs := falloffs + [light.falloffs.x, light.falloffs.y, light.falloffs.z];
        colours := colours + [light.colour.x, light.colour.y, light.colour.z, light.colour.w];
      } else {
        positions := positions + [0.0, 0.0, 0.0];
        falloffs := falloffs + [0.0, 0.0, 0.0];
        colours := colours + [0.0, 0.0, 0.0, 0.0];
      }
      i := i + 1;
    }
    PackedLength(PositionSlot, lights, project, MaxLights);
    PackedLength(FalloffSlot, lights, project, MaxLights);
    PackedLength(ColourSlot, lights, project, MaxLights);
    forall s | 0 <= s < MaxLights
      ensures Slot(positions, s, 3) == SlotOf(PositionSlot, lights, s, project)
      ensures Slot(falloffs, s, 3) == SlotOf(FalloffSlot, lights, s, project)
      ensures Slot(colours, s, 4) == SlotOf(ColourSlot, lights, s, project)
    {
      PackedSlot(PositionSlot, lights, project, MaxLights, s);
      PackedSlot(FalloffSlot, lights, project, MaxLights, s);
      PackedSlot(ColourSlot, lights, project, MaxLights, s);
    }
  }

  // ---------------------------------------------------------------- the command trace

  datatype Capability = DepthTest | Blend

  /** The view matrix a draw uses: the active camera's, or the UI pass's fixed Translate3D(0, 0, -10). */
  datatype View = CameraView(cam: Camera) | UiView

  datatype Command =
    | BindFramebuffer(fb: nat)
    | SetCapability(cap: Capability, on: bool)
    | Clear(colourBuffer: bool, depthBuffer: bool)
    | UseProgram(program: nat)
    | LightArrays(positions: seq<real>, colours: seq<real>, falloffs: seq<real>)
    | UniformInt(name: string, value: int)
    | ActiveTexture(unit: nat)
    | BindTexture(image: Image)
    | SetUseNormals(on: bool)
    | LoadMatrices(model: Transform, view: View, projection: Projection)
    | SetColour(colour: Vec4)
    | BindVao(vao: nat)
    | DrawElements(count: int)

  /** The commands the object pass issues for one item. */
  function ItemCmds(ri: RenderItem, cam: Camera, proj: Projection): seq<Command>
  {
    (if ri.useNormals then [SetUseNormals(true), ActiveTexture(1), BindTexture(ri.normals)]
     else [SetUseNormals(false)]) +
    [LoadMatrices(ri.transform, CameraView(cam), proj), BindVao(ri.vao), DrawElements(ri.indices), ActiveTexture(0)]
  }

  function ItemsCmds(items: seq<RenderItem>, cam: Camera, proj: Projection): seq<Command>
  {
    if |items| == 0 then []
    else ItemsCmds(items[..|items| - 1], cam, proj) + ItemCmds(items[|items| - 1], cam, proj)
  }

  /** One image group: bind `v[0].image` on unit 0 once, then every item. */
  function GroupCmds(items: seq<RenderItem>, cam: Camera, proj: Projection): seq<Command>
    requires |items| > 0
  {
    [ActiveTexture(0), BindTexture(items[0].image)] + ItemsCmds(items, cam, proj)
  }

  /** The groups of the object pass, in map-iteration order. */
  function GroupsCmds(buffer: map<Image, seq<RenderItem>>, order: seq<Image>, cam: Camera, proj: Projection): seq<Command>
    requires GroupsValid(buffer)
    requires forall g :: 0 <= g < |order| ==> order[g] in buffer
  {
    if |order| == 0 then []
    else GroupsCmds(buffer, order[..|order| - 1], cam, proj) + GroupCmds(buffer[order[|order| - 1]], cam, proj)
  }

  /** Bind the scene framebuffer, clear it, select the object shader and push the lights. */
  function ObjectPrefix(fb: FrameBuffer, objectShader: Shader, lightCmd: Command): seq<Command>
  {
    [BindFramebuffer(fb.id), SetCapability(DepthTest, true), SetCapability(Blend, true), Clear(true, true),
     UseProgram(objectShader.id), lightCmd]
  }

  /** Draw the framebuffer's colour texture over the screen with the post shader. */
  function PostCmds(fb: FrameBuffer, post: Shader, screen: VaoHandle): seq<Command>
  {
    PostTarget() + (PostProgram(post) + PostBlit(fb, screen))
  }

  /** Back to the default framebuffer, depth test and blending off, colour cleared. */
  function PostTarget(): seq<Command>
  {
    [BindFramebuffer(0), SetCapability(DepthTest, false), SetCapability(Blend, false), Clear(true, false)]
  }

  /** The post shader, sampling unit 0. */
  function PostProgram(post: Shader): seq<Command>
  {
    [UseProgram(post.id), UniformInt("u_texture", 0)]
  }

  /** The framebuffer texture bound (twice, as written), then the screen quad drawn. */
  function PostBlit(fb: FrameBuffer, screen: VaoHandle): seq<Command>
  {
    [BindTexture(fb.tex.image), BindVao(screen.vao), BindTexture(fb.tex.image), DrawElements(screen.indices)]
  }

  function UiPrefix(uiShader: Shader): seq<Command>
  {
    [Clear(false, true), SetCapability(Blend, true), UseProgram(uiShader.id), ActiveTexture(0)]
  }

  function UiItemCmds(v: RenderItem, proj: Projection): seq<Command>
  {
    [BindTexture(v.image), LoadMatrices(v.transform, UiView, proj), SetColour(v.colour), BindVao(v.vao), DrawElements(v.indices)]
  }

  function UiCmds(items: seq<RenderItem>, proj: Projection): seq<Command>
  {
    if |items| == 0 then [] else UiCmds(items[..|items| - 1], proj) + UiItemCmds(items[|items| - 1], proj)
  }

  /** The items of the object pass in drawing order: the groups of `order`, concatenated. */
  function FlatItems(buffer: map<Image, seq<RenderItem>>, order: seq<Image>): seq<RenderItem>
    requires forall g :: 0 <= g < |order| ==> order[g] in buffer
  {
    if |order| == 0 then [] else FlatItems(buffer, order[..|order| - 1]) + buffer[order[|order| - 1]]
  }

  /** `order` lists every key of the map exactly once (Go's map iteration order is unspecified). */
  predicate EnumeratesKeys(order: seq<Image>, buffer: map<Image, seq<RenderItem>>)
  {
    |order| == |buffer.Keys| &&
    (forall g :: 0 <= g < |order| ==> order[g] in buffer) &&
    (forall g, h :: 0 <= g < h < |order| ==> order[g] != order[h])
  }

  // ---------------------------------------------------------------- interpreting a trace

  datatype GlState = GlState(program: nat, unit: nat, bound: map<nat, Image>, vao: nat, useNormals: bool, colour: Vec4)

  /** What one DrawElements draws with. */
  datatype Drawn = Drawn(program: nat, vao: nat, count: int, texture0: Option<Image>, useNormals: bool, colour: Vec4)

  function Texture0(s: GlState): Option<Image>
  {
    if 0 in s.bound then Some(s.bound[0]) else None
  }

  function Step(s: GlState, c: Command): GlState
  {
    match c
    case UseProgram(p) => s.(program := p)
    case ActiveTexture(u) => s.(unit := u)
    case BindTexture(img) => s.(bound := s.bound[s.unit := img])
    case SetUseNormals(on) => s.(useNormals := on)
    case SetColour(col) => s.(colour := col)
    case BindVao(v) => s.(vao := v)
    case _ => s
  }

  function Emitted(s: GlState, c: Command): seq<Drawn>
  {
    if c.DrawElements? then [Drawn(s.program, s.vao, c.count, Texture0(s), s.useNormals, s.colour)] else []
  }

  function Run(s: GlState, cmds: seq<Command>): GlState
    decreases |cmds|
  {
    if |cmds| == 0 then s else Run(Step(s, cmds[0]), cmds[1..])
  }

  function Draws(s: GlState, cmds: seq<Command>): seq<Drawn>
    decreases |cmds|
  {
    if |cmds| == 0 then [] else Emitted(s, cmds[0]) + Draws(Step(s, cmds[0]), cmds[1..])
  }

  lemma {:induction false} RunConcat(s: GlState, a: seq<Command>, b: seq<Command>)
    decreases |a|
    ensures Run(s, a + b) == Run(Run(s, a), b)
    ensures Draws(s, a + b) == Draws(s, a) + Draws(Run(s, a), b)
  {
    if |a| > 0 {
      assert (a + b)[0] == a[0] && (a + b)[1..] == a[1..] + b;
      RunConcat(Step(s, a[0]), a[1..], b);
    } else {
      assert a + b == b;
    }
  }

  /** A draw of the object pass drew item ri: its program, vertex array, count, own image on unit 0, and normals flag. */
  predicate ObjectDraw(d: Drawn, program: nat, ri: RenderItem)
  {
    d.program == program && d.vao == ri.vao && d.count == ri.indices &&
    d.texture0 == Some(ri.image) && d.useNormals == ri.useNormals
  }

  /** A draw of the UI pass drew item v: the UI program, its vertex array, count, image and colour. */
  predicate UiDraw(d: Drawn, program: nat, v: RenderItem)
  {
    d.program == program && d.vao == v.vao && d.count == v.indices &&
    d.texture0 == Some(v.image) && d.colour == v.colour
  }

  lemma RunCons(s: GlState, cmds: seq<Command>)
    requires |cmds| > 0
    ensures Run(s, cmds) == Run(Step(s, cmds[0]), cmds[1..])
    ensures Draws(s, cmds) == Emitted(s, cmds[0]) + Draws(Step(s, cmds[0]), cmds[1..])
  {}

  lemma RunNil(s: GlState, cmds: seq<Command>)
    requires |cmds| == 0
    ensures Run(s, cmds) == s && Draws(s, cmds) == []
  {}

  // Evaluating short literal traces, one command at a time.

  lemma Exec1(s: GlState, a: Command)
    ensures Run(s, [a]) == Step(s, a) && Draws(s, [a]) == Emitted(s, a)
  {
    RunCons(s, [a]);
    RunNil(Step(s, a), [a][1..]);
  }

  lemma Exec2(s: GlState, a: Command, b: Command)
    ensures Run(s, [a, b]) == Step(Step(s, a), b)
    ensures Draws(s, [a, b]) == Emitted(s, a) + Emitted(Step(s, a), b)
  {
    var c := [a, b];
    RunCons(s, c);
    RunCons(Step(s, a), c[1..]);
    RunNil(Step(Step(s, a), b), c[1..][1..]);
  }

  lemma Exec3(s: GlState, a: Command, b: Command, c: Command)
    ensures Run(s, [a, b, c]) == Step(Step(Step(s, a), b), c)
    ensures Draws(s, [a, b, c]) == Emitted(s, a) + Emitted(Step(s, a), b) + Emitted(Step(Step(s, a), b), c)
  {
    assert [a, b, c] == [a] + [b, c];
    RunConcat(s, [a], [b, c]);
    Exec1(s, a);
    Exec2(Step(s, a), b, c);
  }

  lemma Exec4(s: GlState, a: Command, b: Command, c: Command, d: Command)
    ensures Run(s, [a, b, c, d]) == Step(Step(Step(Step(s, a), b), c), d)
    ensures Draws(s, [a, b, c, d]) ==
      Emitted(s, a) + Emitted(Step(s, a), b) + Emitted(Step(Step(s, a), b), c) + Emitted(Step(Step(Step(s, a), b), c), d)
  {
    assert [a, b, c, d] == [a, b] + [c, d];
    RunConcat(s, [a, b], [c, d]);
    Exec2(s, a, b);
    Exec2(Step(Step(s, a), b), c, d);
  }

  /** The last four commands of an item: matrices, vertex array, the draw, back to unit 0. */
  lemma ItemTail(s: GlState, ri: RenderItem, cam: Camera, proj: Projection)
    ensures var tail := [LoadMatrices(ri.transform, CameraView(cam), proj), BindVao(ri.vao), DrawElements(ri.indices), ActiveTexture(0)];
      Run(s, tail) == s.(vao := ri.vao, unit := 0) &&
      Draws(s, tail) == [Drawn(s.program, ri.vao, ri.indices, Texture0(s), s.useNormals, s.colour)]
  {
    Exec4(s, LoadMatrices(ri.transform, CameraView(cam), proj), BindVao(ri.vao), DrawElements(ri.indices), ActiveTexture(0));
  }

  /** The normals prefix of an item: the flag, and the normal map on unit 1 when it is used. */
  lemma ItemHead(s: GlState, ri: RenderItem)
    requires s.unit == 0
    ensures var head := if ri.useNormals then [SetUseNormals(true), ActiveTexture(1), BindTexture(ri.normals)]
                        else [SetUseNormals(false)];
      var t := Run(s, head);
      Draws(s, head) == [] && t.useNormals == ri.useNormals && t.program == s.program &&
      Texture0(t) == Texture0(s) && t.colour == s.colour
  {
    if ri.useNormals {
      Exec3(s, SetUseNormals(true), ActiveTexture(1), BindTexture(ri.normals));
    } else {
      Exec1(s, SetUseNormals(false));
    }
  }

  /** One item, starting on unit 0 with its image bound there: one draw, and unit 0 still holds that image. */
  lemma ItemDraw(s: GlState, ri: RenderItem, cam: Camera, proj: Projection)
    requires s.unit == 0 && Texture0(s) == Some(ri.image)
    ensures var t := Run(s, ItemCmds(ri, cam, proj));
      t.unit == 0 && t.program == s.program && Texture0(t) == Texture0(s)
    ensures Draws(s, ItemCmds(ri, cam, proj)) ==
      [Drawn(s.program, ri.vao, ri.indices, Some(ri.image), ri.useNormals, s.colour)]
  {
    var tail := [LoadMatrices(ri.transform, CameraView(cam), proj), BindVao(ri.vao), DrawElements(ri.indices), ActiveTexture(0)];
    var head := if ri.useNormals then [SetUseNormals(true), ActiveTexture(1), BindTexture(ri.normals)] else [SetUseNormals(false)];
    assert ItemCmds(ri, cam, proj) == head + tail;
    RunConcat(s, head, tail);
    ItemHead(s, ri);
    ItemTail(Run(s, head), ri, cam, proj);
  }

  /** An image's items, drawn in order with that image on unit 0. */
  lemma {:induction false} ItemsDraw(s: GlState, items: seq<RenderItem>, img: Image, cam: Camera, proj: Projection)
    requires s.unit == 0 && Texture0(s) == Some(img)
    requires forall k :: 0 <= k < |items| ==> items[k].image == img
    ensures var t := Run(s, ItemsCmds(items, cam, proj));
      t.unit == 0 && t.program == s.program && Texture0(t) == Some(img)
    ensures var d := Draws(s, ItemsCmds(items, cam, proj));
      |d| == |items| && forall k :: 0 <= k < |items| ==> ObjectDraw(d[k], s.program, items[k])
  {
    if |items| == 0 {
      RunNil(s, ItemsCmds(items, cam, proj));
    } else {
      var init, last := items[..|items| - 1], items[|items| - 1];
      ItemsDraw(s, init, img, cam, proj);
      RunConcat(s, ItemsCmds(init, cam, proj), ItemCmds(last, cam, proj));
      var m := Run(s, ItemsCmds(init, cam, proj));
      ItemDraw(m, last, cam, proj);
      var d := Draws(s, ItemsCmds(items, cam, proj));
      forall k | 0 <= k < |items|
        ensures ObjectDraw(d[k], s.program, items[k])
      {
        if k < |items| - 1 {
          assert items[k] == init[k];
        }
      }
    }
  }

  /** One group: whatever was bound before, its items draw with their own image. */
  lemma GroupDraw(s: GlState, items: seq<RenderItem>, cam: Camera, proj: Projection)
    requires |items| > 0
    requires forall k :: 0 <= k < |items| ==> items[k].image == items[0].image
    ensures var t := Run(s, GroupCmds(items, cam, proj));
      t.unit == 0 && t.program == s.program
    ensures var d := Draws(s, GroupCmds(items, cam, proj));
      |d| == |items| && forall k :: 0 <= k < |items| ==> ObjectDraw(d[k], s.program, items[k])
  {
    var bind := [ActiveTexture(0), BindTexture(items[0].image)];
    RunConcat(s, bind, ItemsCmds(items, cam, proj));
    Exec2(s, ActiveTexture(0), BindTexture(items[0].image));
    var m := Run(s, bind);
    assert Texture0(m) == Some(items[0].image);
    ItemsDraw(m, items, items[0].image, cam, proj);
  }

  /**
   * The object pass: the draws are exactly the items of the groups in
   * iteration order, each group contiguous and in insertion order, each item
   * drawn with its own image on unit 0 and its own normals flag.
   */
  lemma {:induction false} GroupsDraw(s: GlState, buffer: map<Image, seq<RenderItem>>, order: seq<Image>, cam: Camera, proj: Projection)
    requires GroupsValid(buffer)
    requires forall g :: 0 <= g < |order| ==> order[g] in buffer
    ensures var t := Run(s, GroupsCmds(buffer, order, cam, proj));
      t.program == s.program && (|order| > 0 || s.unit == 0 ==> t.unit == 0)
    ensures var d := Draws(s, GroupsCmds(buffer, order, cam, proj));
      var flat := FlatItems(buffer, order);
      |d| == |flat| && forall k :: 0 <= k < |flat| ==> ObjectDraw(d[k], s.program, flat[k])
  {
    if |order| == 0 {
      RunNil(s, GroupsCmds(buffer, order, cam, proj));
    } else {
      var init, last := order[..|order| - 1], order[|order| - 1];
      GroupsDraw(s, buffer, init, cam, proj);
      var a := GroupsCmds(buffer, init, cam, proj);
      var items := buffer[last];
      RunConcat(s, a, GroupCmds(items, cam, proj));
      GroupDraw(Run(s, a), items, cam, proj);
      var da := Draws(s, a);
      var db := Draws(Run(s, a), GroupCmds(items, cam, proj));
      var flat := FlatItems(buffer, order);
      assert flat == FlatItems(buffer, init) + items;
      forall k | 0 <= k < |flat|
        ensures ObjectDraw((da + db)[k], s.program, flat[k])
      {
        if k >= |da| {
          assert (da + db)[k] == db[k - |da|] && flat[k] == items[k - |da|];
        } else {
          assert (da + db)[k] == da[k];
        }
      }
    }
  }

  /** One UI item on unit 0: one draw with its image and colour. */
  lemma UiItemDraw(s: GlState, v: RenderItem, proj: Projection)
    requires s.unit == 0
    ensures var t := Run(s, UiItemCmds(v, proj));
      t.unit == 0 && t.program == s.program
    ensures Draws(s, UiItemCmds(v, proj)) == [Drawn(s.program, v.vao, v.indices, Some(v.image), s.useNormals, v.colour)]
  {
    var a := BindTexture(v.image);
    var rest := [LoadMatrices(v.transform, UiView, proj), SetColour(v.colour), BindVao(v.vao), DrawElements(v.indices)];
    assert UiItemCmds(v, proj) == [a] + rest;
    RunConcat(s, [a], rest);
    Exec1(s, a);
    UiItemTail(Step(s, a), v, proj);
  }

  lemma UiItemTail(s: GlState, v: RenderItem, proj: Projection)
    ensures var tail := [LoadMatrices(v.transform, UiView, proj), SetColour(v.colour), BindVao(v.vao), DrawElements(v.indices)];
      Run(s, tail) == s.(colour := v.colour, vao := v.vao) &&
      Draws(s, tail) == [Drawn(s.program, v.vao, v.indices, Texture0(s), s.useNormals, v.colour)]
  {
    Exec4(s, LoadMatrices(v.transform, UiView, proj), SetColour(v.colour), BindVao(v.vao), DrawElements(v.indices));
  }

  /** The UI pass draws every queued UI item in queue order, each with its own image and colour. */
  lemma {:induction false} UiDraws(s: GlState, items: seq<RenderItem>, proj: Projection)
    requires s.unit == 0
    ensures var t := Run(s, UiCmds(items, proj));
      t.unit == 0 && t.program == s.program
    ensures var d := Draws(s, UiCmds(items, proj));
      |d| == |items| && forall k :: 0 <= k < |items| ==> UiDraw(d[k], s.program, items[k])
  {
    if |items| == 0 {
      RunNil(s, UiCmds(items, proj));
    } else {
      var init, last := items[..|items| - 1], items[|items| - 1];
      UiDraws(s, init, proj);
      var a := UiCmds(init, proj);
      RunConcat(s, a, UiItemCmds(last, proj));
      UiItemDraw(Run(s, a), last, proj);
      var d := Draws(s, UiCmds(items, proj));
      forall k | 0 <= k < |items|
        ensures UiDraw(d[k], s.program, items[k])
      {
        if k < |items| - 1 {
          assert items[k] == init[k];
        }
      }
    }
  }

  /** The object-pass prefix selects the object shader and draws nothing. */
  lemma PrefixRun(s: GlState, fb: FrameBuffer, objectShader: Shader, lightCmd: Command)
    requires lightCmd.LightArrays?
    ensures Run(s, ObjectPrefix(fb, objectShader, lightCmd)) == s.(program := objectShader.id)
    ensures Draws(s, ObjectPrefix(fb, objectShader, lightCmd)) == []
  {
    var setup := [BindFramebuffer(fb.id), SetCapability(DepthTest, true), SetCapability(Blend, true), Clear(true, true)];
    var rest := [UseProgram(objectShader.id), lightCmd];
    assert ObjectPrefix(fb, objectShader, lightCmd) == setup + rest;
    RunConcat(s, setup, rest);
    Exec4(s, BindFramebuffer(fb.id), SetCapability(DepthTest, true), SetCapability(Blend, true), Clear(true, true));
    Exec2(s, UseProgram(objectShader.id), lightCmd);
  }

  /** The post pass on unit 0: one draw of the screen quad with the framebuffer texture and the post shader. */
  lemma PostRun(s: GlState, fb: FrameBuffer, post: Shader, screen: VaoHandle)
    requires s.unit == 0
    ensures Run(s, PostCmds(fb, post, screen)).unit == 0
    ensures Draws(s, PostCmds(fb, post, screen)) ==
      [Drawn(post.id, screen.vao, screen.indices, Some(fb.tex.image), s.useNormals, s.colour)]
  {
    var a, b, c := PostTarget(), PostProgram(post), PostBlit(fb, screen);
    RunConcat(s, a, b + c);
    Exec4(s, BindFramebuffer(0), SetCapability(DepthTest, false), SetCapability(Blend, false), Clear(true, false));
    RunConcat(s, b, c);
    Exec2(s, UseProgram(post.id), UniformInt("u_texture", 0));
    PostBlitRun(s.(program := post.id), fb, screen);
  }

  lemma PostBlitRun(s: GlState, fb: FrameBuffer, screen: VaoHandle)
    requires s.unit == 0
    ensures Run(s, PostBlit(fb, screen)).unit == 0
    ensures Draws(s, PostBlit(fb, screen)) ==
      [Drawn(s.program, screen.vao, screen.indices, Some(fb.tex.image), s.useNormals, s.colour)]
  {
    var img := fb.tex.image;
    Exec4(s, BindTexture(img), BindVao(screen.vao), BindTexture(img), DrawElements(screen.indices));
  }

  /** The UI prefix selects the UI shader on unit 0 and draws nothing. */
  lemma UiPrefixRun(s: GlState, uiShader: Shader)
    ensures Run(s, UiPrefix(uiShader)) == s.(program := uiShader.id, unit := 0)
    ensures Draws(s, UiPrefix(uiShader)) == []
  {
    Exec4(s, Clear(false, true), SetCapability(Blend, true), UseProgram(uiShader.id), ActiveTexture(0));
  }

  /** After the object pass, on unit 0: the post draw, then every UI item. */
  lemma AfterObjectsDraw(s: GlState, ui: seq<RenderItem>, proj: Projection, fb: FrameBuffer, post: Shader,
                         uiShader: Shader, screen: VaoHandle)
    requires s.unit == 0
    ensures var d := Draws(s, PostCmds(fb, post, screen) + (UiPrefix(uiShader) + UiCmds(ui, proj)));
      |d| == 1 + |ui| &&
      d[0].program == post.id && d[0].vao == screen.vao && d[0].count == screen.indices &&
      d[0].texture0 == Some(fb.tex.image) &&
      (forall k :: 0 <= k < |ui| ==> UiDraw(d[1 + k], uiShader.id, ui[k]))
  {
    var q, u, c := PostCmds(fb, post, screen), UiPrefix(uiShader), UiCmds(ui, proj);
    var s3 := Run(s, q);
    var s4 := Run(s3, u);
    var dq, dc := Draws(s, q), Draws(s4, c);
    assert s3.unit == 0 && dq == [Drawn(post.id, screen.vao, screen.indices, Some(fb.tex.image), s.useNormals, s.colour)] by {
      PostRun(s, fb, post, screen);
    }
    assert s4 == s3.(program := uiShader.id, unit := 0) && Draws(s3, u) == [] by {
      UiPrefixRun(s3, uiShader);
    }
    assert Draws(s, q + (u + c)) == dq + dc by {
      RunConcat(s, q, u + c);
      RunConcat(s3, u, c);
    }
    UiDraws(s4, ui, proj);
    forall k | 0 <= k < |ui|
      ensures UiDraw((dq + dc)[1 + k], uiShader.id, ui[k])
    {
      assert (dq + dc)[1 + k] == dc[k];
    }
  }

  /** The whole frame's commands, in the order render issues them. */
  function FrameTrace(buffer: map<Image, seq<RenderItem>>, order: seq<Image>, ui: seq<RenderItem>, lightCmd: Command,
                      cam: Camera, proj: Projection, fb: FrameBuffer, objectShader: Shader, post: Shader,
                      uiShader: Shader, screen: VaoHandle): seq<Command>
    requires GroupsValid(buffer)
    requires forall g :: 0 <= g < |order| ==> order[g] in buffer
  {
    ObjectPrefix(fb, objectShader, lightCmd) +
    (GroupsCmds(buffer, order, cam, proj) + (PostCmds(fb, post, screen) + (UiPrefix(uiShader) + UiCmds(ui, proj))))
  }

  /**
   * render reaches a uniform write whose shader has no cache: the object
   * shader's light arrays, the post shader's "u_texture", or, once there is a
   * UI item, the UI shader's matrices.
   */
  predicate RenderPanics(objectShader: Shader, post: Shader, uiShader: Shader, ui: seq<RenderItem>)
  {
    objectShader.uniforms == null || post.uniforms == null || (uiShader.uniforms == null && ui != [])
  }

  /** The commands render issues: the whole frame, or those before the uniform write that panics. */
  function RenderTrace(buffer: map<Image, seq<RenderItem>>, order: seq<Image>, ui: seq<RenderItem>, lightCmd: Command,
                       cam: Camera, proj: Projection, fb: FrameBuffer, objectShader: Shader, post: Shader,
                       uiShader: Shader, screen: VaoHandle): seq<Command>
    requires GroupsValid(buffer)
    requires forall g :: 0 <= g < |order| ==> order[g] in buffer
  {
    var objects := ObjectPrefix(fb, objectShader, lightCmd);
    if objectShader.uniforms == null then objects[..5]
    else if post.uniforms == null then objects + (GroupsCmds(buffer, order, cam, proj) + (PostTarget() + [UseProgram(post.id)]))
    else if uiShader.uniforms == null && ui != [] then
      objects + (GroupsCmds(buffer, order, cam, proj) + (PostCmds(fb, post, screen) + (UiPrefix(uiShader) + [BindTexture(ui[0].image)])))
    else FrameTrace(buffer, order, ui, lightCmd, cam, proj, fb, objectShader, post, uiShader, screen)
  }

  /** The UI pass issues five commands per item, starting with the first item's texture. */
  lemma {:induction false} UiCmdsHead(items: seq<RenderItem>, proj: Projection)
    ensures |UiCmds(items, proj)| == 5 * |items|
    ensures items != [] ==> UiCmds(items, proj)[0] == BindTexture(items[0].image)
  {
    if items != [] {
      var init := items[..|items| - 1];
      UiCmdsHead(init, proj);
      if init != [] {
        assert init[0] == items[0];
      }
    }
  }

  /**
   * What render issues is a prefix of the frame's commands: all of them
   * exactly when no uniform write panics, and otherwise it stops short.
   */
  lemma RenderTraceIsPrefix(buffer: map<Image, seq<RenderItem>>, order: seq<Image>, ui: seq<RenderItem>, lightCmd: Command,
                            cam: Camera, proj: Projection, fb: FrameBuffer, objectShader: Shader, post: Shader,
                            uiShader: Shader, screen: VaoHandle)
    requires GroupsValid(buffer)
    requires forall g :: 0 <= g < |order| ==> order[g] in buffer
    ensures var t := RenderTrace(buffer, order, ui, lightCmd, cam, proj, fb, objectShader, post, uiShader, screen);
      var f := FrameTrace(buffer, order, ui, lightCmd, cam, proj, fb, objectShader, post, uiShader, screen);
      t <= f && (t == f <==> !RenderPanics(objectShader, post, uiShader, ui))
  {
    var objects := ObjectPrefix(fb, objectShader, lightCmd);
    var groups := GroupsCmds(buffer, order, cam, proj);
    var uiCmds := UiCmds(ui, proj);
    var f := FrameTrace(buffer, order, ui, lightCmd, cam, proj, fb, objectShader, post, uiShader, screen);
    assert f == objects + (groups + (PostCmds(fb, post, screen) + (UiPrefix(uiShader) + uiCmds)));
    UiCmdsHead(ui, proj);
    if objectShader.uniforms == null {
      assert objects[..5] <= f;
      assert |objects[..5]| < |f|;
    } else if post.uniforms == null {
      assert PostCmds(fb, post, screen) == PostTarget() + [UseProgram(post.id)] + [UniformInt("u_texture", 0)] + PostBlit(fb, screen);
      assert f == objects + (groups + (PostTarget() + [UseProgram(post.id)])) +
        ([UniformInt("u_texture", 0)] + PostBlit(fb, screen) + (UiPrefix(uiShader) + uiCmds));
    } else if uiShader.uniforms == null && ui != [] {
      assert uiCmds == [BindTexture(ui[0].image)] + uiCmds[1..];
      assert f == objects + (groups + (PostCmds(fb, post, screen) + (UiPrefix(uiShader) + [BindTexture(ui[0].image)]))) + uiCmds[1..];
    }
  }

  /**
   * What a frame draws, from GL's initial active unit 0: first the object
   * pass (every group item as above, with the object shader), then one
   * screen-quad draw of the framebuffer texture with the post shader, then
   * every UI item with the UI shader, in queue order.
   */
  lemma FrameDraws(s: GlState, buffer: map<Image, seq<RenderItem>>, order: seq<Image>, ui: seq<RenderItem>, lightCmd: Command,
                   cam: Camera, proj: Projection, fb: FrameBuffer, objectShader: Shader, post: Shader,
                   uiShader: Shader, screen: VaoHandle)
    requires GroupsValid(buffer)
    requires forall g :: 0 <= g < |order| ==> order[g] in buffer
    requires s.unit == 0 && lightCmd.LightArrays?
    ensures var d := Draws(s, FrameTrace(buffer, order, ui, lightCmd, cam, proj, fb, objectShader, post, uiShader, screen));
      var flat := FlatItems(buffer, order);
      |d| == |flat| + 1 + |ui| &&
      (forall k :: 0 <= k < |flat| ==> ObjectDraw(d[k], objectShader.id, flat[k])) &&
      d[|flat|].program == post.id && d[|flat|].vao == screen.vao && d[|flat|].count == screen.indices &&
      d[|flat|].texture0 == Some(fb.tex.image) &&
      (forall k :: 0 <= k < |ui| ==> UiDraw(d[|flat| + 1 + k], uiShader.id, ui[k]))
  {
    var s1 := s.(program := objectShader.id);
    var g := GroupsCmds(buffer, order, cam, proj);
    var rest := PostCmds(fb, post, screen) + (UiPrefix(uiShader) + UiCmds(ui, proj));
    var d := Draws(s, FrameTrace(buffer, order, ui, lightCmd, cam, proj, fb, objectShader, post, uiShader, screen));
    var dg, dr := Draws(s1, g), Draws(Run(s1, g), rest);
    var flat := FlatItems(buffer, order);
    assert d == dg + dr by {
      FrameSplit(s, buffer, order, ui, lightCmd, cam, proj, fb, objectShader, post, uiShader, screen);
    }
    GroupsDraw(s1, buffer, order, cam, proj);
    assert |dg| == |flat| && forall k :: 0 <= k < |flat| ==> ObjectDraw(dg[k], objectShader.id, flat[k]);
    AfterObjectsDraw(Run(s1, g), ui, proj, fb, post, uiShader, screen);
    CombineDraws(dg, dr, flat, ui, objectShader.id, uiShader.id);
  }

  /** The frame's draws are the object pass's, from the object shader, followed by the rest. */
  lemma FrameSplit(s: GlState, buffer: map<Image, seq<RenderItem>>, order: seq<Image>, ui: seq<RenderItem>, lightCmd: Command,
                   cam: Camera, proj: Projection, fb: FrameBuffer, objectShader: Shader, post: Shader,
                   uiShader: Shader, screen: VaoHandle)
    requires GroupsValid(buffer)
    requires forall g :: 0 <= g < |order| ==> order[g] in buffer
    requires lightCmd.LightArrays?
    ensures var s1 := s.(program := objectShader.id);
      var g := GroupsCmds(buffer, order, cam, proj);
      var rest := PostCmds(fb, post, screen) + (UiPrefix(uiShader) + UiCmds(ui, proj));
      Draws(s, FrameTrace(buffer, order, ui, lightCmd, cam, proj, fb, objectShader, post, uiShader, screen)) ==
      Draws(s1, g) + Draws(Run(s1, g), rest)
  {
    var p := ObjectPrefix(fb, objectShader, lightCmd);
    PrefixRun(s, fb, objectShader, lightCmd);
    RunConcat3(s, p, GroupsCmds(buffer, order, cam, proj), PostCmds(fb, post, screen) + (UiPrefix(uiShader) + UiCmds(ui, proj)));
  }

  /** Three consecutive pieces of a trace, the first of which draws nothing. */
  lemma RunConcat3(s: GlState, p: seq<Command>, g: seq<Command>, rest: seq<Command>)
    requires Draws(s, p) == []
    ensures Draws(s, p + (g + rest)) == Draws(Run(s, p), g) + Draws(Run(Run(s, p), g), rest)
  {
    RunConcat(s, p, g + rest);
    RunConcat(Run(s, p), g, rest);
  }

  /** Index arithmetic for a frame: object draws first, then the post draw and the UI draws. */
  lemma CombineDraws(dg: seq<Drawn>, dr: seq<Drawn>, flat: seq<RenderItem>, ui: seq<RenderItem>, objectProgram: nat, uiProgram: nat)
    requires |dg| == |flat| && (forall k :: 0 <= k < |flat| ==> ObjectDraw(dg[k], objectProgram, flat[k]))
    requires |dr| == 1 + |ui| && (forall k :: 0 <= k < |ui| ==> UiDraw(dr[1 + k], uiProgram, ui[k]))
    ensures var d := dg + dr;
      |d| == |flat| + 1 + |ui| && d[|flat|] == dr[0] &&
      (forall k :: 0 <= k < |flat| ==> ObjectDraw(d[k], objectProgram, flat[k])) &&
      (forall k :: 0 <= k < |ui| ==> UiDraw(d[|flat| + 1 + k], uiProgram, ui[k]))
  {
    var d := dg + dr;
    forall k | 0 <= k < |ui|
      ensures UiDraw(d[|flat| + 1 + k], uiProgram, ui[k])
    {
      assert d[|flat| + 1 + k] == dr[1 + k];
    }
  }

  // ---------------------------------------------------------------- the renderer

  class Renderer {
    var renderBuffer: map<Image, seq<RenderItem>>
    var uiBuffer: seq<RenderItem>
    var ambientLight: Vec3
    var activeCam: Camera
    var projection: Projection
    var postShader: Shader
    var lights: seq<Light>
    var postFB: FrameBuffer
    // The package-level state Renderer2DInit sets up alongside the renderer.
    var objectShader: Shader
    var uiShader: Shader
    var defaultPostShader: Shader
    var screen: VaoHandle
    var registry: ShaderRegistry

    ghost predicate Valid()
      reads this
    {
      GroupsValid(renderBuffer)
    }

    /**
     * Renderer2DInit: resets the shader registry, takes the three built-in
     * shaders as parameters (NewShaderFromString, which builds them from
     * shader file paths, is not part of this model; one without a uniform
     * cache makes the frame panic at its first uniform write), builds the
     * screen quad and the framebuffer, and starts with empty queues, the zero camera, an
     * orthographic projection over the window, white ambient light and the
     * default post shader. `int32(width)` truncates the float.
     */
    constructor Init(width: real, height: real, registry: ShaderRegistry, objectShader: Shader, uiShader: Shader,
                     postShader: Shader, screenVao: nat, screenVbo: nat, fbId: nat, rboId: nat, blank: Texture)
      modifies registry
      ensures registry.shaderMap == map[] && this.registry == registry
      ensures renderBuffer == map[] && uiBuffer == [] && lights == []
      ensures activeCam == Camera2D(0, 0) && ambientLight == One3
      ensures projection == Ortho(0.0, width, height, 0.0, -0.1, 10.1)
      ensures this.postShader == postShader && defaultPostShader == postShader
      ensures this.objectShader == objectShader && this.uiShader == uiShader
      ensures screen == GenVao(ScreenQuad(), screenVao, screenVbo) && screen.indices == 6
      ensures postFB == FrameBuffer(fbId, rboId, blank, Int32(Trunc(width)), Int32(Trunc(height)))
      ensures Valid()
    {
      this.registry := registry;
      this.objectShader := objectShader;
      this.uiShader := uiShader;
      defaultPostShader := postShader;
      screen := GenVao(ScreenQuad(), screenVao, screenVbo);
      postFB := FrameBuffer(fbId, rboId, blank, Int32(Trunc(width)), Int32(Trunc(height)));
      renderBuffer := map[];
      uiBuffer := [];
      lights := [];
      projection := Ortho(0.0, width, height, 0.0, -0.1, 10.1);
      activeCam := Camera2D(0, 0);
      this.postShader := postShader;
      ambientLight := One3;
      new;
      registry.shaderMap := map[];
    }

    /**
     * The uniform caches SetPostShader can make current: those of the
     * registered shaders and of the default post shader, and the current
     * post shader's own.
     */
    ghost function PostCaches(): set<UniformCache?>
      reads this, registry
    {
      (set s | s in registry.shaderMap.Values :: s.uniforms) + {defaultPostShader.uniforms, postShader.uniforms}
    }

    /** BeginScene's uniform writes find both shaders' caches, so they do not panic. */
    predicate CanBeginScene()
      reads this
    {
      objectShader.uniforms != null && postShader.uniforms != null
    }

    /**
     * BeginScene: empties the three queues and records the camera and ambient
     * light, then writes the object shader's three uniforms and the post
     * shader's "exposure" (`queried` is the location GL reports for it). A
     * shader without a uniform cache, such as Shader{}, makes its first write
     * a nil-map panic; the object shader's writes come first.
     */
    method BeginScene(c: Camera, ambient: Vec3, exposure: real, queried: int) returns (r: Outcome<()>)
      modifies this, postShader.uniforms
      ensures renderBuffer == map[] && lights == [] && uiBuffer == []
      ensures activeCam == c && ambientLight == ambient
      ensures projection == old(projection) && postShader == old(postShader) && postFB == old(postFB)
      ensures objectShader == old(objectShader) && uiShader == old(uiShader) && defaultPostShader == old(defaultPostShader)
      ensures screen == old(screen) && registry == old(registry)
      ensures r.Panic? <==> !CanBeginScene()
      ensures r.Panic? ==> r.fault == NilMapWrite
      ensures objectShader.uniforms == null && postShader.uniforms != null ==>
        postShader.uniforms.entries == old(postShader.uniforms.entries)
      ensures CanBeginScene() ==>
        postShader.uniforms.entries == CacheLookup(old(postShader.uniforms.entries), "exposure", queried).1
      ensures Valid()
    {
      renderBuffer := map[];
      lights := [];
      uiBuffer := [];
      activeCam := c;
      ambientLight := ambient;
      if objectShader.uniforms == null {
        return Panic(NilMapWrite);
      }
      var loc := UniformLoc(postShader, "exposure", queried);
      if loc.Panic? {
        return Panic(loc.fault);
      }
      r := Ok(());
    }

    /**
     * PushItem: every item of the renderable joins the end of its image's
     * group, in order; other groups, and everything else, are unchanged.
     */
    method PushItem(items: seq<RenderItem>)
      requires Valid()
      modifies this
      ensures renderBuffer == AppendAll(old(renderBuffer), items)
      ensures forall img :: Group(renderBuffer, img) == Group(old(renderBuffer), img) + OfImage(items, img)
      ensures renderBuffer.Keys == old(renderBuffer).Keys + Images(items)
      ensures uiBuffer == old(uiBuffer) && lights == old(lights) && postShader == old(postShader)
      ensures activeCam == old(activeCam) && ambientLight == old(ambientLight) && projection == old(projection)
      ensures postFB == old(postFB) && objectShader == old(objectShader) && uiShader == old(uiShader)
      ensures defaultPostShader == old(defaultPostShader) && screen == old(screen) && registry == old(registry)
      ensures Valid()
    {
      var i := 0;
      while i < |items|
        invariant 0 <= i <= |items|
        invariant renderBuffer == AppendAll(old(renderBuffer), items[..i])
        invariant uiBuffer == old(uiBuffer) && lights == old(lights) && postShader == old(postShader)
        invariant activeCam == old(activeCam) && ambientLight == old(ambientLight) && projection == old(projection)
        invariant postFB == old(postFB) && objectShader == old(objectShader) && uiShader == old(uiShader)
        invariant defaultPostShader == old(defaultPostShader) && screen == old(screen) && registry == old(registry)
      {
        var ri := items[i];
        renderBuffer := renderBuffer[ri.image := Group(renderBuffer, ri.image) + [ri]];
        assert items[..i + 1][..i] == items[..i];
        i := i + 1;
      }
      assert items[..|items|] == items;
      forall img | true
        ensures Group(renderBuffer, img) == Group(old(renderBuffer), img) + OfImage(items, img)
      {
        AppendAllGroups(old(renderBuffer), items, img);
      }
      AppendAllKeys(old(renderBuffer), items);
      AppendAllValid(old(renderBuffer), items);
    }

    /** PushLight: appended at the end, unfiltered. */
    method PushLight(light: Light)
      modifies this
      ensures lights == old(lights) + [light]
      ensures renderBuffer == old(renderBuffer) && uiBuffer == old(uiBuffer) && postShader == old(postShader)
      ensures activeCam == old(activeCam) && ambientLight == old(ambientLight) && projection == old(projection)
      ensures postFB == old(postFB) && objectShader == old(objectShader) && uiShader == old(uiShader)
      ensures defaultPostShader == old(defaultPostShader) && screen == old(screen) && registry == old(registry)
    {
      lights := lights + [light];
    }

    /** PushUI: appended to the single flat UI queue, not grouped by image. */
    method PushUI(ri: RenderItem)
      modifies this
      ensures uiBuffer == old(uiBuffer) + [ri]
      ensures renderBuffer == old(renderBuffer) && lights == old(lights) && postShader == old(postShader)
      ensures activeCam == old(activeCam) && ambientLight == old(ambientLight) && projection == old(projection)
      ensures postFB == old(postFB) && objectShader == old(objectShader) && uiShader == old(uiShader)
      ensures defaultPostShader == old(defaultPostShader) && screen == old(screen) && registry == old(registry)
    {
      uiBuffer := uiBuffer + [ri];
    }

    /** SetPostShader: the registered shader of that name, or the default post shader. */
    method SetPostShader(name: string)
      modifies this
      ensures name in registry.shaderMap ==> postShader == registry.shaderMap[name]
      ensures name !in registry.shaderMap ==> postShader == defaultPostShader
      ensures postShader.uniforms in old(PostCaches())
      ensures renderBuffer == old(renderBuffer) && lights == old(lights) && uiBuffer == old(uiBuffer)
      ensures activeCam == old(activeCam) && ambientLight == old(ambientLight) && projection == old(projection)
      ensures postFB == old(postFB) && objectShader == old(objectShader) && uiShader == old(uiShader)
      ensures defaultPostShader == old(defaultPostShader) && screen == old(screen) && registry == old(registry)
    {
      if name !in registry.shaderMap {
        postShader := defaultPostShader;
        return;
      }
      postShader := registry.shaderMap[name];
      assert postShader in old(registry.shaderMap).Values;
    }

    /**
     * render: the frame's GL commands. `order` is the order Go's map iteration
     * happens to visit the image groups in; `project` is `Light.position` for
     * this frame's view and projection; `queried` is the location GL reports
     * for the post shader's "u_texture". FrameDraws says what the trace draws.
     * A shader without a uniform cache panics at its first uniform write: the
     * object shader at the light arrays, the post shader at "u_texture", the
     * UI shader at the first UI item's matrices. The trace then ends with the
     * commands issued before that write.
     */
    method Render(order: seq<Image>, project: Light -> Vec3, queried: int) returns (trace: seq<Command>, r: Outcome<()>)
      requires Valid()
      requires EnumeratesKeys(order, renderBuffer)
      modifies postShader.uniforms
      ensures trace == RenderTrace(renderBuffer, order, uiBuffer,
        LightArrays(Packed(PositionSlot, lights, project, MaxLights), Packed(ColourSlot, lights, project, MaxLights),
                    Packed(FalloffSlot, lights, project, MaxLights)),
        activeCam, projection, postFB, objectShader, postShader, uiShader, screen)
      ensures r.Panic? <==> RenderPanics(objectShader, postShader, uiShader, uiBuffer)
      ensures r.Panic? ==> r.fault == NilMapWrite
      ensures objectShader.uniforms == null && postShader.uniforms != null ==>
        postShader.uniforms.entries == old(postShader.uniforms.entries)
      ensures objectShader.uniforms != null && postShader.uniforms != null ==>
        postShader.uniforms.entries == CacheLookup(old(postShader.uniforms.entries), "u_texture", queried).1
    {
      var positions, falloffs, colours := PushLightUniforms(lights, project);
      var prefix := ObjectPrefix(postFB, objectShader, LightArrays(positions, colours, falloffs));
      if objectShader.uniforms == null {
        return prefix[..5], Panic(NilMapWrite);
      }
      var groups := GroupsPass(renderBuffer, order, activeCam, projection);
      var loc := UniformLoc(postShader, "u_texture", queried);
      if loc.Panic? {
        trace := prefix + (groups + (PostTarget() + [UseProgram(postShader.id)]));
        return trace, Panic(loc.fault);
      }
      if uiShader.uniforms == null && uiBuffer != [] {
        trace := prefix + (groups + (PostCmds(postFB, postShader, screen) + (UiPrefix(uiShader) + [BindTexture(uiBuffer[0].image)])));
        return trace, Panic(NilMapWrite);
      }
      var ui := UiPass(uiBuffer, projection);
      trace := prefix + (groups + (PostCmds(postFB, postShader, screen) + (UiPrefix(uiShader) + ui)));
      r := Ok(());
    }
  }

  /** The object pass's loop over the groups, in `order`. */
  method GroupsPass(buffer: map<Image, seq<RenderItem>>, order: seq<Image>, cam: Camera, proj: Projection)
    returns (cmds: seq<Command>)
    requires GroupsValid(buffer)
    requires forall g :: 0 <= g < |order| ==> order[g] in buffer
    ensures cmds == GroupsCmds(buffer, order, cam, proj)
  {
    cmds := [];
    var g := 0;
    while g < |order|
      invariant 0 <= g <= |order|
      invariant cmds == GroupsCmds(buffer, order[..g], cam, proj)
    {
      var v := buffer[order[g]];
      var items := ItemsPass(v, cam, proj);
      cmds := cmds + ([ActiveTexture(0), BindTexture(v[0].image)] + items);
      assert order[..g + 1][..g] == order[..g];
      g := g + 1;
    }
    assert order[..|order|] == order;
  }

  /** The inner loop over one group's items. */
  method ItemsPass(items: seq<RenderItem>, cam: Camera, proj: Projection) returns (cmds: seq<Command>)
    ensures cmds == ItemsCmds(items, cam, proj)
  {
    cmds := [];
    var k := 0;
    while k < |items|
      invariant 0 <= k <= |items|
      invariant cmds == ItemsCmds(items[..k], cam, proj)
    {
      cmds := cmds + ItemCmds(items[k], cam, proj);
      assert items[..k + 1][..k] == items[..k];
      k := k + 1;
    }
    assert items[..|items|] == items;
  }

  /** The UI pass's loop, in queue order. */
  method UiPass(items: seq<RenderItem>, proj: Projection) returns (cmds: seq<Command>)
    ensures cmds == UiCmds(items, proj)
  {
    cmds := [];
    var u := 0;
    while u < |items|
      invariant 0 <= u <= |items|
      invariant cmds == UiCmds(items[..u], proj)
    {
      cmds := cmds + UiItemCmds(items[u], proj);
      assert items[..u + 1][..u] == items[..u];
      u := u + 1;
    }
    assert items[..|items|] == items;
  }
}
