/**
 * scene.go: the test scene's per-frame logic. The player moves one axis at a
 * time and steps back when its collider would hit the tile map; the camera
 * follows the player and is clamped to the map; keys start, pause and fire
 * sounds, toggle the inventory flag and the post-processing shader, and pick
 * the animation; then the frame is queued on the renderer.
 *
 * Input is a parameter (the keys held down and the keys pressed this frame),
 * and so are the vector normalisation of the move, the screen size in
 * pixels, and the render items of the tile map, the player and the sprite
 * (those come from engine iterations other than the ones modelled here).
 * The immediate-mode UI calls at the end of Update are not modelled: their
 * implementation is not part of this model. The animator is represented by
 * the name Update triggers.
 */
module Scene {
  import opened GoInt
  import opened Transforms
  import opened Collision
  import opened TileMap
  import opened Renderer
  import Sound
  import EngineTexture

  datatype Key = KeyW | KeyA | KeyS | KeyD | KeyP | KeyO | KeyV | KeyI | KeyC

  /** This frame's keyboard: keys held (KeyDown) and keys newly pressed (KeyOnce). */
  datatype Input = Input(down: set<Key>, once: set<Key>)

  // ---------------------------------------------------------------- the player

  /** The direction the held keys ask for: W up, S down, A left, D right, opposing keys cancelling. */
  function Direction(input: Input): (d: (int, int))
    ensures -1 <= d.0 <= 1 && -1 <= d.1 <= 1
    ensures d.0 == 0 <==> (KeyA in input.down <==> KeyD in input.down)
    ensures d.1 == 0 <==> (KeyW in input.down <==> KeyS in input.down)
    ensures d.0 < 0 <==> KeyA in input.down && KeyD !in input.down
    ensures d.1 < 0 <==> KeyW in input.down && KeyS !in input.down
  {
    ((if KeyA in input.down then -1 else 0) + (if KeyD in input.down then 1 else 0),
     (if KeyW in input.down then -1 else 0) + (if KeyS in input.down then 1 else 0))
  }

  /** The move vector: the direction made unit length by `normalize` when it is not zero. */
  function Move(input: Input, normalize: (real, real) -> (real, real)): (real, real)
  {
    var (dx, dy) := Direction(input);
    if dx != 0 || dy != 0 then normalize(dx as real, dy as real) else (0.0, 0.0)
  }

  /** The collider sits on the player's position, truncated to whole pixels. */
  predicate Follows(c: Collider, p: Vec3)
  {
    c == SetPos(c, Trunc(p.x), Trunc(p.y))
  }

  /**
   * One axis of Player.Update: move to `to` and place the collider there; if it
   * hits the map, go back to `from` and place the collider back.
   */
  function AxisStep(t: Tilemap, from: Vec3, to: Vec3, c: Collider): Outcome<(Vec3, Collider)>
  {
    var moved := SetPos(c, Trunc(to.x), Trunc(to.y));
    match CollidesMapCollider(t, moved)
    case Panic(f) => Panic(f)
    case Ok(hit) => if hit then Ok((from, SetPos(moved, Trunc(from.x), Trunc(from.y)))) else Ok((to, moved))
  }

  function Velocity(m: (real, real), speed: real): (real, real)
  {
    (m.0 * speed, m.1 * speed)
  }

  /** Player.Update: the x step first, then the y step from wherever the x step left the player. */
  function PlayerUpdate(t: Tilemap, p: Vec3, c: Collider, d: (real, real)): Outcome<(Vec3, Collider)>
  {
    var first := AxisStep(t, p, p.(x := p.x + d.0), c);
    if first.Panic? then first
    else AxisStep(t, first.value.0, first.value.0.(y := first.value.0.y + d.1), first.value.1)
  }

  /** Once the x step has succeeded at (p1, c1), the whole update is the y step from there. */
  lemma SecondStep(t: Tilemap, p: Vec3, c: Collider, d: (real, real), p1: Vec3, c1: Collider)
    requires AxisStep(t, p, p.(x := p.x + d.0), c) == Ok((p1, c1))
    ensures PlayerUpdate(t, p, c, d) == AxisStep(t, p1, p1.(y := p1.y + d.1), c1)
  {}

  /**
   * A step from a clear position ends clear: either at `to` with a collider
   * that does not hit the map, or back at `from` with exactly the collider it
   * started with. Either way the collider follows the player and keeps its size.
   */
  lemma AxisStepKeepsClear(t: Tilemap, from: Vec3, to: Vec3, c: Collider)
    requires Follows(c, from) && CollidesMapCollider(t, c) == Ok(false) && AxisStep(t, from, to, c).Ok?
    ensures var (p, d) := AxisStep(t, from, to, c).value;
      Follows(d, p) && CollidesMapCollider(t, d) == Ok(false) && d.width == c.width && d.height == c.height &&
      (p == to || (p == from && d == c))
    ensures var moved := SetPos(c, Trunc(to.x), Trunc(to.y));
      AxisStep(t, from, to, c).value.0 == to <==> CollidesMapCollider(t, moved) == Ok(false) || from == to
    ensures CollidesMapColliderFixed(t, AxisStep(t, from, to, c).value.1) == Ok(false)
  {
    var moved := SetPos(c, Trunc(to.x), Trunc(to.y));
    SetPosIsPlacement(c, Trunc(to.x), Trunc(to.y), Trunc(from.x), Trunc(from.y));
    SetPosIsPlacement(c, Trunc(to.x), Trunc(to.y), Trunc(to.x), Trunc(to.y));
    ClearAsWrittenInLayer(t, AxisStep(t, from, to, c).value.1);
  }

  /** A player whose collider is clear and follows it stays clear and followed through a whole update. */
  lemma PlayerUpdateKeepsClear(t: Tilemap, p: Vec3, c: Collider, d: (real, real))
    requires Follows(c, p) && CollidesMapCollider(t, c) == Ok(false) && PlayerUpdate(t, p, c, d).Ok?
    ensures var (q, e) := PlayerUpdate(t, p, c, d).value;
      Follows(e, q) && CollidesMapCollider(t, e) == Ok(false) && e.width == c.width && e.height == c.height
  {
    var first := AxisStep(t, p, p.(x := p.x + d.0), c);
    assert first.Ok?;
    AxisStepKeepsClear(t, p, p.(x := p.x + d.0), c);
    var (p1, c1) := first.value;
    SecondStep(t, p, c, d, p1, c1);
    AxisStepKeepsClear(t, p1, p1.(y := p1.y + d.1), c1);
  }

  class Player {
    var pos: Vec3
    var c: Collider
    const speed: real

    /** NewPlayer: at (500, 200) on layer 10, a 64 × 64 collider on the same point, speed 5. */
    constructor ()
      ensures pos == Vec3(500.0, 200.0, 10.0) && c == NewCollider(64, 64, 500, 200) && speed == 5.0
      ensures Follows(c, pos)
    {
      pos := Vec3(500.0, 200.0, 10.0);
      c := NewCollider(64, 64, 500, 200);
      speed := 5.0;
      new;
      SetPosIsPlacement(c, 500, 200, 500, 200);
    }

    /**
     * Player.Update: step along x, stepping back on a hit, then along y the
     * same way; the collision test can panic on a zero tile size.
     */
    method Update(t: Tilemap, input: Input, normalize: (real, real) -> (real, real)) returns (r: Outcome<()>)
      modifies this
      ensures var u := PlayerUpdate(t, old(pos), old(c), Velocity(Move(input, normalize), speed));
        (u.Panic? ==> r == Panic(u.fault)) && (u.Ok? ==> r.Ok? && pos == u.value.0 && c == u.value.1)
    {
      var move := Velocity(Move(input, normalize), speed);
      ghost var p0, c0 := pos, c;
      r := Advance(t, pos.(x := pos.x + move.0));
      ghost var first := AxisStep(t, p0, p0.(x := p0.x + move.0), c0);
      if r.Panic? {
        assert PlayerUpdate(t, p0, c0, move) == first;
        return;
      }
      SecondStep(t, p0, c0, move, pos, c);
      r := Advance(t, pos.(y := pos.y + move.1));
    }

    /** One of Update's two blocks: move to `to`; on a hit go back to where the player was. */
    method Advance(t: Tilemap, to: Vec3) returns (r: Outcome<()>)
      modifies this
      ensures var s := AxisStep(t, old(pos), to, old(c));
        (s.Panic? ==> r == Panic(s.fault)) && (s.Ok? ==> r.Ok? && pos == s.value.0 && c == s.value.1)
    {
      var oldPos := pos;
      pos := to;
      c := SetPos(c, Trunc(pos.x), Trunc(pos.y));
      var hit := CollidesMapCollider(t, c);
      if hit.Panic? {
        return Panic(hit.fault);
      }
      if hit.value {
        pos := oldPos;
        c := SetPos(c, Trunc(pos.x), Trunc(pos.y));
      }
      r := Ok(());
    }
  }

  // ---------------------------------------------------------------- the camera

  /** One axis of the camera clamp: not below 0, then not so far that the screen passes the map's end. */
  function Clamp(start: int, size: int, screen: int): int
  {
    var low := if start < 0 then 0 else start;
    if low + screen > size then size - screen else low
  }

  /**
   * The camera centres the player on the 800 × 600 view (offset 400, 300),
   * then is clamped per axis: the screen never passes the map's far edge, it
   * never starts before 0 when the map is at least a screen wide, and a start
   * already in range is kept.
   */
  method ClampCamera(px: real, py: real, mw: int, mh: int, screenW: int, screenH: int) returns (camX: int, camY: int)
    ensures camX == Clamp(Trunc(px - 400.0), mw, screenW) && camY == Clamp(Trunc(py - 300.0), mh, screenH)
    ensures camX + screenW <= mw && camY + screenH <= mh
    ensures mw >= screenW ==> camX >= 0
    ensures mh >= screenH ==> camY >= 0
    ensures 0 <= Trunc(px - 400.0) && Trunc(px - 400.0) + screenW <= mw ==> camX == Trunc(px - 400.0)
    ensures 0 <= Trunc(py - 300.0) && Trunc(py - 300.0) + screenH <= mh ==> camY == Trunc(py - 300.0)
  {
    camX, camY := Trunc(px - 400.0), Trunc(py - 300.0);
    if camX < 0 {
      camX := 0;
    }
    if camY < 0 {
      camY := 0;
    }
    if camX + screenW > mw {
      camX := mw - screenW;
    }
    if camY + screenH > mh {
      camY := mh - screenH;
    }
  }

  // ---------------------------------------------------------------- animation and lights

  /** The animation Update triggers: A wins over D, and with neither the player idles. */
  function AnimationFor(input: Input): (name: string)
    ensures name == "run_left" <==> KeyA in input.down
    ensures name == "run_right" <==> KeyA !in input.down && KeyD in input.down
    ensures name == "idle" <==> KeyA !in input.down && KeyD !in input.down
  {
    if KeyA in input.down then "run_left" else if KeyD in input.down then "run_right" else "idle"
  }

  /** The scene's NewLight: position, colour, the falloff triple and intensity, at unit scale. */
  function SceneLight(x: real, y: real, z: real, r: real, g: real, b: real,
                      f1: real, f2: real, f3: real, intensity: real): Light
  {
    Light(Vec4(r, g, b, intensity), Vec3(f1, f2, f3), NewTransform(x, y, z))
  }

  /** The scene's globals r, g, b (ambient light), f1, f2, f3 (falloffs), intensity and exposure. */
  const Ambient: Vec3 := Vec3(0.3, 0.3, 0.3)
  const Falloff: real := 0.3
  const Intensity: real := 2.0
  const Exposure: real := 1.0

  /** The three lights of a frame: white on the player, red at (600, 400), blue at (600, 600). */
  function FrameLights(p: Vec3): (ls: seq<Light>)
    ensures |ls| == 3 && ls[0].transform.pos == Vec3(p.x, p.y, 50.0)
    ensures ls[1].colour == Vec4(1.0, 0.0, 0.0, 1.0) && ls[2].colour == Vec4(0.0, 0.0, 1.0, 1.0)
  {
    [SceneLight(p.x, p.y, 50.0, 1.0, 1.0, 1.0, Falloff, Falloff, Falloff, Intensity),
     SceneLight(600.0, 400.0, 50.0, 1.0, 0.0, 0.0, Falloff, Falloff, Falloff, 1.0),
     SceneLight(600.0, 600.0, 50.0, 0.0, 0.0, 1.0, Falloff, Falloff, Falloff, 1.0)]
  }

  /** The post shader SetPostShader picks for a name: the registered one, or the default. */
  function PostShaderFor(registry: map<string, Shaders.Shader>, name: string, default: Shaders.Shader): Shaders.Shader
  {
    if name in registry then registry[name] else default
  }

  const FunkyLines: string := "funky lines"
  const NoPostShader: string := "null"

  /** The shader C asks for: "null" (no such shader, so the default) when turning funky off, "funky lines" when turning it on. */
  function FunkyShaderName(isFunky: bool): string
  {
    if isFunky then NoPostShader else FunkyLines
  }

  /** Where the "bg" loop stands after this frame's P (start or resume) and then O (pause). */
  function LoopAfterKeys(s: Sound.Status, input: Input): Sound.Status
  {
    var started := if KeyP in input.once && s != Sound.Unloaded then Sound.Looping else s;
    if KeyO in input.once && started in {Sound.Looping, Sound.Paused} then Sound.Paused else started
  }

  /**
   * How many voices the sound keys hand to the speaker: a new "bg" loop when P
   * finds it loaded but not looping, and one "shot" when V finds it loaded.
   */
  function VoicesStarted(bg: Sound.Status, input: Input, shotLoaded: bool): nat
  {
    (if KeyP in input.once && bg == Sound.Loaded then 1 else 0) + (if KeyV in input.once && shotLoaded then 1 else 0)
  }

  /**
   * What the sound keys do to the mixer between the state before them and
   * now: the sound bank is kept, "bg" moves as LoopAfterKeys says and no other
   * sound's status changes; the speaker's voices only grow, by VoicesStarted;
   * a P that starts the loop adds, first, a loop of "bg"'s buffer behind its
   * new control at volume -1, and a V with "shot" loaded ends them with one
   * "shot" at full volume.
   */
  twostate predicate KeysSounded(mixer: Sound.Mixer, input: Input)
    reads mixer, mixer.Controls()
  {
    && mixer.soundBank == old(mixer.soundBank)
    && mixer.StatusOf("bg") == LoopAfterKeys(old(mixer.StatusOf("bg")), input)
    && (forall n :: n != "bg" ==> mixer.StatusOf(n) == old(mixer.StatusOf(n)))
    && (KeyV in input.once && "shot" in mixer.soundBank ==>
          |mixer.played| > 0 && mixer.played[|mixer.played| - 1] == Sound.Once(mixer.soundBank["shot"], Sound.OneShotBase, 1.0))
    && old(mixer.played) <= mixer.played
    && |mixer.played| == |old(mixer.played)| + VoicesStarted(old(mixer.StatusOf("bg")), input, "shot" in mixer.soundBank)
    && (KeyP in input.once && old(mixer.StatusOf("bg")) == Sound.Loaded ==>
          "bg" in mixer.looped &&
          mixer.played[|old(mixer.played)|] == Sound.Loop(old(mixer.soundBank)["bg"], mixer.looped["bg"].ctrl, Sound.LoopBase, -1.0))
  }

  /**
   * O wins over P within a frame: a loaded "bg" ends paused when O is pressed
   * and it was either started this frame or already looping; without O or P
   * its status does not change, and an unloaded "bg" stays unloaded.
   */
  lemma LoopAfterKeysCases(s: Sound.Status, input: Input)
    ensures KeyO in input.once && s != Sound.Unloaded && (KeyP in input.once || s != Sound.Loaded) ==>
      LoopAfterKeys(s, input) == Sound.Paused
    ensures KeyP in input.once && KeyO !in input.once && s != Sound.Unloaded ==> LoopAfterKeys(s, input) == Sound.Looping
    ensures KeyP !in input.once && KeyO !in input.once ==> LoopAfterKeys(s, input) == s
    ensures s == Sound.Unloaded <==> LoopAfterKeys(s, input) == Sound.Unloaded
  {
  }

  /**
   * The frame's object queue: pushing the tile map's, the player's and the
   * sprite's items onto a queue appends to each image's group the items of
   * that image, tile map's first, in order. BeginScene leaves every group empty.
   */
  lemma FrameGroups(b0: map<EngineTexture.Image, seq<RenderItem>>, tileItems: seq<RenderItem>, playerItems: seq<RenderItem>,
                    spriteItems: seq<RenderItem>, img: EngineTexture.Image)
    ensures Group(AppendAll(AppendAll(AppendAll(b0, tileItems), playerItems), spriteItems), img) ==
      Group(b0, img) + OfImage(tileItems, img) + OfImage(playerItems, img) + OfImage(spriteItems, img)
  {
    var b1 := AppendAll(b0, tileItems);
    var b2 := AppendAll(b1, playerItems);
    AppendAllGroups(b0, tileItems, img);
    AppendAllGroups(b1, playerItems, img);
    AppendAllGroups(b2, spriteItems, img);
  }

  // ---------------------------------------------------------------- the scene

  class TestScene {
    const player: Player
    const tileMap: Tilemap
    var camera: Camera
    var invOpen: bool
    var isFunky: bool

    constructor (player: Player, tileMap: Tilemap)
      ensures this.player == player && this.tileMap == tileMap
      ensures camera == Camera2D(0, 0) && !invOpen && !isFunky
    {
      this.player := player;
      this.tileMap := tileMap;
      camera := Camera2D(0, 0);
      invOpen := false;
      isFunky := false;
    }

    /** I flips the inventory flag; C flips the funky flag and selects the post shader for the new state. */
    method Toggles(input: Input, renderer: Renderer)
      modifies this, renderer
      ensures invOpen == (old(invOpen) != (KeyI in input.once))
      ensures isFunky == (old(isFunky) != (KeyC in input.once))
      ensures camera == old(camera)
      ensures KeyC in input.once ==>
        renderer.postShader == PostShaderFor(renderer.registry.shaderMap, FunkyShaderName(old(isFunky)), renderer.defaultPostShader)
      ensures KeyC !in input.once ==> renderer.postShader == old(renderer.postShader)
      ensures renderer.postShader.uniforms in old(renderer.PostCaches())
      ensures renderer.renderBuffer == old(renderer.renderBuffer) && renderer.lights == old(renderer.lights)
      ensures renderer.uiBuffer == old(renderer.uiBuffer) && renderer.registry == old(renderer.registry)
      ensures renderer.defaultPostShader == old(renderer.defaultPostShader) && renderer.objectShader == old(renderer.objectShader)
    {
      if KeyI in input.once {
        invOpen := !invOpen;
      }
      if KeyC in input.once {
        if isFunky {
          renderer.SetPostShader(NoPostShader);
          isFunky := !isFunky;
        } else {
          renderer.SetPostShader(FunkyLines);
          isFunky := !isFunky;
        }
      }
    }

    /** P starts (or resumes) the "bg" loop, O pauses it, V plays "shot" once, in that order. */
    method SoundKeys(input: Input, mixer: Sound.Mixer)
      requires mixer.Valid()
      modifies mixer, mixer.Controls()
      ensures mixer.Valid()
      ensures KeysSounded(mixer, input)
    {
      LoopKeys(input, mixer);
      label looped:
      if KeyV in input.once {
        mixer.PlaySound("shot", 1.0);
      }
      assert old@looped(mixer.played) <= mixer.played;
    }

    /** The P and O keys of SoundKeys: only "bg" changes, and P adds its loop's voice when it starts one. */
    method LoopKeys(input: Input, mixer: Sound.Mixer)
      requires mixer.Valid()
      modifies mixer, mixer.Controls()
      ensures mixer.Valid() && mixer.soundBank == old(mixer.soundBank)
      ensures mixer.StatusOf("bg") == LoopAfterKeys(old(mixer.StatusOf("bg")), input)
      ensures forall n :: n != "bg" ==> mixer.StatusOf(n) == old(mixer.StatusOf(n))
      ensures old(mixer.played) <= mixer.played
      ensures |mixer.played| == |old(mixer.played)| + (if KeyP in input.once && old(mixer.StatusOf("bg")) == Sound.Loaded then 1 else 0)
      ensures KeyP in input.once && old(mixer.StatusOf("bg")) == Sound.Loaded ==>
        "bg" in mixer.looped &&
        mixer.played[|old(mixer.played)|] == Sound.Loop(old(mixer.soundBank)["bg"], mixer.looped["bg"].ctrl, Sound.LoopBase, -1.0)
    {
      if KeyP in input.once {
        mixer.LoopSound("bg", -1.0);
      }
      if KeyO in input.once {
        mixer.PauseLoop("bg");
      }
    }

    /**
     * The end of Update: a new scene on the camera with the ambient light, then
     * the tile map's, the player's and the sprite's items, then the three
     * lights. `exposureLoc` is the location GL reports for the post shader's
     * "exposure"; an object or post shader without a uniform cache panics in
     * BeginScene.
     */
    method PushFrame(renderer: Renderer, tileItems: seq<RenderItem>, playerItems: seq<RenderItem>,
                     spriteItems: seq<RenderItem>, exposureLoc: int) returns (r: Outcome<()>)
      modifies renderer, renderer.postShader.uniforms
      ensures r.Panic? <==> !renderer.CanBeginScene()
      ensures r.Panic? ==> r.fault == NilMapWrite
      ensures r.Ok? ==> renderer.renderBuffer == AppendAll(AppendAll(AppendAll(map[], tileItems), playerItems), spriteItems)
      ensures r.Ok? ==> renderer.lights == FrameLights(player.pos)
      ensures renderer.uiBuffer == [] && renderer.activeCam == camera && renderer.ambientLight == Ambient
      ensures renderer.postShader == old(renderer.postShader) && renderer.registry == old(renderer.registry)
      ensures renderer.defaultPostShader == old(renderer.defaultPostShader)
      ensures renderer.objectShader == old(renderer.objectShader)
      ensures renderer.CanBeginScene() ==>
        renderer.postShader.uniforms.entries == Shaders.CacheLookup(old(renderer.postShader.uniforms.entries), "exposure", exposureLoc).1
      ensures renderer.Valid()
    {
      r := renderer.BeginScene(camera, Ambient, Exposure, exposureLoc);
      if r.Panic? {
        return;
      }
      renderer.PushItem(tileItems);
      renderer.PushItem(playerItems);
      renderer.PushItem(spriteItems);
      var lights := FrameLights(player.pos);
      renderer.PushLight(lights[0]);
      renderer.PushLight(lights[1]);
      renderer.PushLight(lights[2]);
    }

    /**
     * testScene.Update: the player moves, then the rest of the frame runs
     * (Frame); a panic in the player's collision test ends the frame there.
     * Returns the animation triggered.
     */
    method Update(input: Input, normalize: (real, real) -> (real, real), screenW: int, screenH: int,
                  renderer: Renderer, mixer: Sound.Mixer,
                  tileItems: seq<RenderItem>, playerItems: seq<RenderItem>, spriteItems: seq<RenderItem>,
                  exposureLoc: int)
      returns (r: Outcome<string>)
      requires mixer.Valid()
      modifies this, player, renderer, mixer, mixer.Controls(), renderer.PostCaches()
      ensures var u := PlayerUpdate(tileMap, old(player.pos), old(player.c), Velocity(Move(input, normalize), player.speed));
        (u.Panic? ==> r == Panic(u.fault)) && (u.Ok? ==> player.pos == u.value.0 && player.c == u.value.1) &&
        (r.Ok? <==> u.Ok? && renderer.CanBeginScene()) &&
        (u.Ok? && r.Panic? ==> r.fault == NilMapWrite)
      ensures r.Ok? ==> r.value == AnimationFor(input)
      ensures r.Ok? ==> invOpen == (old(invOpen) != (KeyI in input.once)) && isFunky == (old(isFunky) != (KeyC in input.once))
      ensures r.Ok? ==>
        var (mw, mh) := PixelSize(tileMap);
        camera == Camera2D(Clamp(Trunc(player.pos.x - 400.0), mw, screenW), Clamp(Trunc(player.pos.y - 300.0), mh, screenH))
      ensures r.Ok? ==> renderer.renderBuffer == AppendAll(AppendAll(AppendAll(map[], tileItems), playerItems), spriteItems)
      ensures r.Ok? ==> renderer.lights == FrameLights(player.pos) && renderer.uiBuffer == [] && renderer.activeCam == camera
      ensures r.Ok? && KeyC in input.once ==>
        renderer.postShader == PostShaderFor(renderer.registry.shaderMap, FunkyShaderName(old(isFunky)), renderer.defaultPostShader)
      ensures mixer.Valid()
      ensures PlayerUpdate(tileMap, old(player.pos), old(player.c), Velocity(Move(input, normalize), player.speed)).Ok? ==>
        KeysSounded(mixer, input)
    {
      var moved := player.Update(tileMap, input, normalize);
      if moved.Panic? {
        return Panic(moved.fault);
      }
      r := Frame(input, screenW, screenH, renderer, mixer, tileItems, playerItems, spriteItems, exposureLoc);
    }

    /**
     * The rest of testScene.Update once the player has moved: the camera
     * clamp, the sound keys, the toggles, the animation and the queued frame.
     * The sound keys touch only the mixer and its controls, which nothing
     * else in the frame reads or writes, so they are applied after the frame
     * is queued (Present); the state this reaches, a BeginScene panic
     * included, is the one Go reaches with the sounds first.
     */
    method Frame(input: Input, screenW: int, screenH: int, renderer: Renderer, mixer: Sound.Mixer,
                 tileItems: seq<RenderItem>, playerItems: seq<RenderItem>, spriteItems: seq<RenderItem>,
                 exposureLoc: int)
      returns (r: Outcome<string>)
      requires mixer.Valid()
      modifies this, renderer, mixer, mixer.Controls(), renderer.PostCaches()
      ensures r.Panic? <==> !renderer.CanBeginScene()
      ensures r.Panic? ==> r.fault == NilMapWrite
      ensures r.Ok? ==> r.value == AnimationFor(input)
      ensures invOpen == (old(invOpen) != (KeyI in input.once)) && isFunky == (old(isFunky) != (KeyC in input.once))
      ensures var (mw, mh) := PixelSize(tileMap);
        camera == Camera2D(Clamp(Trunc(player.pos.x - 400.0), mw, screenW), Clamp(Trunc(player.pos.y - 300.0), mh, screenH))
      ensures r.Ok? ==> renderer.renderBuffer == AppendAll(AppendAll(AppendAll(map[], tileItems), playerItems), spriteItems)
      ensures r.Ok? ==> renderer.lights == FrameLights(player.pos)
      ensures renderer.uiBuffer == [] && renderer.activeCam == camera
      ensures KeyC in input.once ==>
        renderer.postShader == PostShaderFor(renderer.registry.shaderMap, FunkyShaderName(old(isFunky)), renderer.defaultPostShader)
      ensures KeyC !in input.once ==> renderer.postShader == old(renderer.postShader)
      ensures mixer.Valid()
      ensures KeysSounded(mixer, input)
    {
      var (mw, mh) := PixelSize(tileMap);
      var camX, camY := ClampCamera(player.pos.x, player.pos.y, mw, mh, screenW, screenH);
      r := Present(input, renderer, Camera2D(camX, camY), tileItems, playerItems, spriteItems, exposureLoc);
      SoundKeys(input, mixer);
    }

    /**
     * The camera moved to `cam`, the I and C toggles, the animation, and the
     * frame queued on the renderer with the post shader the toggles leave
     * selected.
     */
    method Present(input: Input, renderer: Renderer, cam: Camera,
                   tileItems: seq<RenderItem>, playerItems: seq<RenderItem>, spriteItems: seq<RenderItem>,
                   exposureLoc: int)
      returns (r: Outcome<string>)
      modifies this, renderer, renderer.PostCaches()
      ensures r.Panic? <==> !renderer.CanBeginScene()
      ensures r.Panic? ==> r.fault == NilMapWrite
      ensures r.Ok? ==> r.value == AnimationFor(input)
      ensures invOpen == (old(invOpen) != (KeyI in input.once)) && isFunky == (old(isFunky) != (KeyC in input.once))
      ensures camera == cam
      ensures r.Ok? ==> renderer.renderBuffer == AppendAll(AppendAll(AppendAll(map[], tileItems), playerItems), spriteItems)
      ensures r.Ok? ==> renderer.lights == FrameLights(player.pos)
      ensures renderer.uiBuffer == [] && renderer.activeCam == camera
      ensures KeyC in input.once ==>
        renderer.postShader == PostShaderFor(renderer.registry.shaderMap, FunkyShaderName(old(isFunky)), renderer.defaultPostShader)
      ensures KeyC !in input.once ==> renderer.postShader == old(renderer.postShader)
    {
      camera := cam;
      Toggles(input, renderer);
      var pushed := PushFrame(renderer, tileItems, playerItems, spriteItems, exposureLoc);
      if pushed.Panic? {
        return Panic(pushed.fault);
      }
      r := Ok(AnimationFor(input));
    }
  }
}
