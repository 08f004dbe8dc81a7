/**
 * engine/shader.go: shader programs with a per-program cache from uniform
 * name to location, the named registry `shaderMap`, and the loading path
 * (read file, compile, link). The GPU calls are outside the model: the
 * location `gl.GetUniformLocation` would return, the shader ids a
 * successful compile yields and the link status are parameters.
 *
 * A Go `Shader` is a struct holding the program id and a map. Go maps are
 * references, so every copy of a Shader shares one cache; the model makes
 * the cache an object (`UniformCache`) and the nil map of `Shader{}` is `null`.
 */
module Shaders {
  import opened GoInt
  import opened Pixels

  class UniformCache {
    var entries: map<string, int>

    constructor ()
      ensures entries == map[]
    {
      entries := map[];
    }
  }

  datatype Shader = Shader(id: nat, uniforms: UniformCache?)

  /** Go's zero value `Shader{}`: program 0 and a nil uniform map. */
  const ZeroShader: Shader := Shader(0, null)

  /** The value `gl.TRUE` and `gl.FALSE` stand for. */
  const GlTrue: int := 1
  const GlFalse: int := 0

  /**
   * The lookup in UniformLoc as written: the location it returns and the
   * cache afterwards. On a miss the queried location is stored but the
   * zero value of the failed map read is returned.
   */
  function CacheLookup(entries: map<string, int>, name: string, queried: int): (int, map<string, int>)
  {
    if name in entries then (entries[name], entries) else (0, entries[name := queried])
  }

  /** The lookup UniformLoc evidently intends: a miss returns the location it stores. */
  function CacheLookupFixed(entries: map<string, int>, name: string, queried: int): (int, map<string, int>)
  {
    if name in entries then (entries[name], entries) else (queried, entries[name := queried])
  }

  /**
   * Both lookups cache exactly one entry per name: afterwards the name is in the
   * cache, no other entry changed, and a hit leaves the cache as it is (so GL is
   * queried at most once per name for a program's lifetime).
   */
  lemma CacheLookupCachesOnce(entries: map<string, int>, name: string, queried: int)
    ensures var (loc, e) := CacheLookup(entries, name, queried);
      name in e && e.Keys == entries.Keys + {name} &&
      (forall n :: n in entries ==> e[n] == entries[n]) &&
      (name !in entries ==> e[name] == queried)
    ensures CacheLookup(entries, name, queried).1 == CacheLookupFixed(entries, name, queried).1
    ensures name in entries ==> CacheLookupFixed(entries, name, queried) == (entries[name], entries)
  {}

  /** As written, the returned location differs from the stored one exactly on a miss with a non-zero location. */
  lemma CacheLookupMissReturnsZero(entries: map<string, int>, name: string, queried: int)
    ensures var (loc, e) := CacheLookup(entries, name, queried);
      loc != e[name] <==> (name !in entries && queried != 0)
  {}

  /** A concrete first lookup: GL places `u_model` at location 3, UniformLoc returns 0. */
  lemma CacheLookupCounterexample()
    ensures CacheLookup(map[], "u_model", 3).0 == 0
    ensures CacheLookup(map[], "u_model", 3).1["u_model"] == 3
  {}

  /** The corrected lookup always returns what the cache holds for the name afterwards, and repeating it changes nothing. */
  lemma CacheLookupFixedConsistent(entries: map<string, int>, name: string, queried: int, again: int)
    ensures var (loc, e) := CacheLookupFixed(entries, name, queried);
      name in e && loc == e[name] && CacheLookupFixed(e, name, again) == (loc, e)
  {}

  /**
   * UniformLoc as written. On a Shader{} whose map is nil the miss path writes to a nil
   * map, which panics in Go.
   */
  method UniformLoc(s: Shader, name: string, queried: int) returns (r: Outcome<int>)
    modifies if s.uniforms == null then {} else {s.uniforms}
    ensures s.uniforms == null ==> r == Panic(NilMapWrite)
    ensures s.uniforms != null ==>
      r == Ok(CacheLookup(old(s.uniforms.entries), name, queried).0) &&
      s.uniforms.entries == CacheLookup(old(s.uniforms.entries), name, queried).1
  {
    if s.uniforms == null {
      return Panic(NilMapWrite);
    }
    var (loc, e) := CacheLookup(s.uniforms.entries, name, queried);
    s.uniforms.entries := e;
    r := Ok(loc);
  }

  /** UniformLoc with the miss returning the queried location; SetBool uses this one. */
  method UniformLocFixed(s: Shader, name: string, queried: int) returns (r: Outcome<int>)
    modifies if s.uniforms == null then {} else {s.uniforms}
    ensures s.uniforms == null ==> r == Panic(NilMapWrite)
    ensures s.uniforms != null ==>
      r == Ok(CacheLookupFixed(old(s.uniforms.entries), name, queried).0) &&
      s.uniforms.entries == CacheLookupFixed(old(s.uniforms.entries), name, queried).1
  {
    if s.uniforms == null {
      return Panic(NilMapWrite);
    }
    var (loc, e) := CacheLookupFixed(s.uniforms.entries, name, queried);
    s.uniforms.entries := e;
    r := Ok(loc);
  }

  /** The `gl.Uniform1i` call SetBool issues. */
  datatype UniformCall = Uniform1i(location: int, value: int)

  /** SetBool: the uniform at the cached location receives gl.TRUE for true and gl.FALSE for false. */
  method SetBool(s: Shader, name: string, value: bool, queried: int) returns (r: Outcome<UniformCall>)
    modifies if s.uniforms == null then {} else {s.uniforms}
    ensures s.uniforms == null ==> r == Panic(NilMapWrite)
    ensures s.uniforms != null ==> r.Ok? && (r.value.value == GlTrue <==> value) && (r.value.value == GlFalse <==> !value)
    ensures s.uniforms != null ==> name in s.uniforms.entries && r.value.location == s.uniforms.entries[name]
  {
    var v := GlTrue;
    if !value {
      v := GlFalse;
    }
    var loc := UniformLocFixed(s, name, queried);
    if loc.Panic? {
      return Panic(loc.fault);
    }
    r := Ok(Uniform1i(loc.value, v));
  }

  /** readFile: the file's bytes followed by one NUL terminator; a read error panics. */
  function ReadFile(contents: Option<seq<byte>>): (r: Outcome<seq<byte>>)
    ensures contents.None? <==> r.Panic?
    ensures r.Ok? ==> |r.value| == |contents.value| + 1 && r.value[..|contents.value|] == contents.value
    ensures r.Ok? ==> r.value[|contents.value|] == 0
  {
    match contents
    case None => Panic(LoadFailed)
    case Some(text) => Ok(text + [0])
  }

  /**
   * loadShaderFile: reads and compiles one stage; `compile` stands for the GL
   * compiler (a shader id, or None when COMPILE_STATUS is false). Any failure
   * panics, so only a compiled stage comes back.
   */
  function LoadShaderFile(file: Option<seq<byte>>, compile: seq<byte> -> Option<nat>): (r: Outcome<nat>)
    ensures r.Ok? <==> file.Some? && compile(file.value + [0]).Some?
    ensures r.Ok? ==> r.value == compile(file.value + [0]).value
    ensures file.None? ==> r == Panic(LoadFailed)
    ensures file.Some? && compile(file.value + [0]).None? ==> r == Panic(CompileFailed)
  {
    match ReadFile(file)
    case Panic(f) => Panic(f)
    case Ok(src) =>
      match compile(src)
      case None => Panic(CompileFailed)
      case Some(id) => Ok(id)
  }

  /** What NewShader returns when it does not panic: a shader and whether an error came with it. */
  datatype NewShaderResult = NewShaderResult(shader: Shader, err: bool)

  /**
   * NewShader: both stages must load and compile (vertex first), or the call
   * panics. A failed link returns Shader{} with an error; a successful one the
   * program id and a fresh, empty uniform cache.
   */
  method NewShader(vertex: Option<seq<byte>>, fragment: Option<seq<byte>>, compile: seq<byte> -> Option<nat>,
                   programId: nat, linked: bool) returns (r: Outcome<NewShaderResult>)
    ensures LoadShaderFile(vertex, compile).Panic? ==> r == Panic(LoadShaderFile(vertex, compile).fault)
    ensures LoadShaderFile(vertex, compile).Ok? && LoadShaderFile(fragment, compile).Panic? ==>
      r == Panic(LoadShaderFile(fragment, compile).fault)
    ensures r.Ok? <==> LoadShaderFile(vertex, compile).Ok? && LoadShaderFile(fragment, compile).Ok?
    ensures r.Ok? && !linked ==> r.value == NewShaderResult(ZeroShader, true)
    ensures r.Ok? && linked ==>
      (!r.value.err && r.value.shader.id == programId && r.value.shader.uniforms != null &&
       fresh(r.value.shader.uniforms) && r.value.shader.uniforms.entries == map[])
  {
    var vShader := LoadShaderFile(vertex, compile);
    if vShader.Panic? {
      return Panic(vShader.fault);
    }
    var fShader := LoadShaderFile(fragment, compile);
    if fShader.Panic? {
      return Panic(fShader.fault);
    }
    if !linked {
      return Ok(NewShaderResult(ZeroShader, true));
    }
    var cache := new UniformCache();
    r := Ok(NewShaderResult(Shader(programId, cache), false));
  }

  /**
   * loadShader: NewShader's shader with the error only logged, so a failed
   * link hands back Shader{} (program 0, nil cache); a stage that fails to
   * load or compile still panics.
   */
  method LoadUnnamedShader(vertex: Option<seq<byte>>, fragment: Option<seq<byte>>, compile: seq<byte> -> Option<nat>,
                           programId: nat, linked: bool) returns (r: Outcome<Shader>)
    ensures r.Panic? <==> LoadShaderFile(vertex, compile).Panic? || LoadShaderFile(fragment, compile).Panic?
    ensures r.Ok? && !linked ==> r.value == ZeroShader
    ensures r.Ok? && linked ==>
      r.value.id == programId && r.value.uniforms != null && fresh(r.value.uniforms) && r.value.uniforms.entries == map[]
  {
    var s := NewShader(vertex, fragment, compile, programId, linked);
    if s.Panic? {
      return Panic(s.fault);
    }
    r := Ok(s.value.shader);
  }

  /** The package-level `shaderMap`: post-process shaders by name. */
  class ShaderRegistry {
    var shaderMap: map<string, Shader>

    constructor ()
      ensures shaderMap == map[]
    {
      shaderMap := map[];
    }

    /**
     * LoadShader: stores NewShader's shader under the name, even Shader{} after a
     * failed link, replacing any earlier entry; a panic in NewShader stores nothing.
     */
    method LoadShader(vertex: Option<seq<byte>>, fragment: Option<seq<byte>>, compile: seq<byte> -> Option<nat>,
                      programId: nat, linked: bool, name: string) returns (r: Outcome<()>)
      modifies this
      ensures r.Panic? <==> LoadShaderFile(vertex, compile).Panic? || LoadShaderFile(fragment, compile).Panic?
      ensures r.Panic? ==> shaderMap == old(shaderMap)
      ensures r.Ok? ==> name in shaderMap && shaderMap == old(shaderMap)[name := shaderMap[name]]
      ensures r.Ok? && !linked ==> shaderMap[name] == ZeroShader
      ensures r.Ok? && linked ==>
        (shaderMap[name].id == programId && shaderMap[name].uniforms != null &&
         fresh(shaderMap[name].uniforms) && shaderMap[name].uniforms.entries == map[])
    {
      var s := NewShader(vertex, fragment, compile, programId, linked);
      if s.Panic? {
        return Panic(s.fault);
      }
      shaderMap := shaderMap[name := s.value.shader];
      r := Ok(());
    }
  }
}
