/** The resource loader of the OpenGL pipeline generation
    (pipeline/ogl/Loader.cpp): caches of linked programs keyed by their
    `ShaderKey`, of compiled shaders keyed by file name, and of textures
    keyed by path, each object carrying a 32-bit (`GLuint`) reference
    count; material definitions; and the building and clean-up of
    materials.

    GL is an oracle: object ids come from a counter, and which shader
    files exist, which compile, which keys link and where each uniform
    lives are given by a `Gl` value. Objects are kept in stores keyed by
    `Handle`, as in the other resource modules.

    The state is gathered in a `LoaderState` value so that every loader
    operation has a functional specification (`ShaderLoad`, `ProgramLoad`,
    `TextureLoad`, ...) which the lemmas below reason about and which the
    methods of class `Loader` are proved to implement. */
module OglLoader {
  import opened Wrappers
  import opened DefinitionTypes
  import Resources

  type Handle = Resources.Handle

  /** A `GLuint` reference count. */
  type Count = x: nat | x < U32

  /** `GlShader`: a compiled shader object. */
  datatype GlShader = GlShader(refcnt: Count, glId: nat)

  /** `ShaderProgram`: a linked program and the shaders attached to it;
      `geom` is null for a program without a geometry shader. */
  datatype ShaderProgram = ShaderProgram(refcnt: Count, glId: nat, vert: Handle, geom: Option<Handle>, frag: Handle)

  /** A texture the loader hands out: a file texture, or a `Webview`,
      which the pipeline treats as one. A webview's reference count is
      left unset by its constructor; the model gives it 0. */
  datatype Texture =
    | FileTexture(refcnt: Count, name: string, hres: nat, vres: nat, biggestMipLoaded: nat, glId: nat)
    | WebviewTexture(refcnt: Count, page: string, hres: nat, vres: nat)

  /** The uniform kinds this loader dispatches on: the eight kinds of
      `UniformDef::Type`, plus the `Webview` kind this generation's
      definitions also carry. */
  datatype Kind = Plain(t: UniformType) | WebviewKind

  datatype GlUniformDef = GlUniformDef(kind: Kind, value: AnyValue)

  /** A material definition of this generation, uniforms in the order the
      hash map visits them. */
  datatype GlMaterialDef = GlMaterialDef(shaders: ShaderKey, uniforms: seq<(string, GlUniformDef)>)

  /** `Uniform` as `buildMaterial` fills it in: the location, the kind, and
      for a texture the texture it binds (an empty `any` otherwise). */
  datatype GlUniform = GlUniform(glId: int, kind: Kind, texture: Option<Handle>)

  /** `Material`: its program (null until built) and its uniforms. */
  datatype GlMaterial = GlMaterial(program: Option<Handle>, uniforms: seq<GlUniform>)

  /** What GL answers: the shader files present, those that compile, the
      keys whose shaders link, and `glGetUniformLocation`. */
  datatype Gl = Gl(
    shaderFiles: set<string>,
    compiles: set<string>,
    linkable: set<ShaderKey>,
    location: (nat, string) -> int)

  /** The loader's state: the `LoaderImpl` tables plus the material tables
      of `Loader`, the object stores and the two id counters. */
  datatype LoaderState = LoaderState(
    programs: Table<ShaderKey, Handle>,
    programStore: Table<Handle, ShaderProgram>,
    shaders: Table<string, Handle>,
    shaderStore: Table<Handle, GlShader>,
    textures: Table<string, Handle>,
    textureStore: Table<Handle, Texture>,
    materials: Table<string, Handle>,
    materialStore: Table<Handle, GlMaterial>,
    materialDefs: Table<string, GlMaterialDef>,
    next: Handle,
    nextGl: nat)

  /** A material's program exists, and each of its texture uniforms binds
      an existing texture. */
  predicate MaterialRefsIn(m: GlMaterial, programStore: map<Handle, ShaderProgram>, textureStore: map<Handle, Texture>)
  {
    (m.program.Some? ==> m.program.value in programStore) &&
    forall i :: 0 <= i < |m.uniforms| && m.uniforms[i].kind == Plain(Texture) ==>
      m.uniforms[i].texture.Some? && m.uniforms[i].texture.value in textureStore
  }

  /** Every material name resolves and every material refers only to
      existing programs and textures. */
  predicate MaterialsOk(materials: map<string, Handle>, materialStore: map<Handle, GlMaterial>,
                        programStore: map<Handle, ShaderProgram>, textureStore: map<Handle, Texture>)
  {
    (forall n :: n in materials ==> materials[n] in materialStore) &&
    forall h :: h in materialStore ==> MaterialRefsIn(materialStore[h], programStore, textureStore)
  }

  /** Every cached name resolves to an existing object, and every material
      refers only to existing objects. */
  predicate Consistent(s: LoaderState)
  {
    (forall k :: k in s.programs.m ==> s.programs.m[k] in s.programStore.m) &&
    (forall n :: n in s.shaders.m ==> s.shaders.m[n] in s.shaderStore.m) &&
    (forall n :: n in s.textures.m ==> s.textures.m[n] in s.textureStore.m) &&
    MaterialsOk(s.materials.m, s.materialStore.m, s.programStore.m, s.textureStore.m)
  }

  /** Every key of a store is below `n`. */
  predicate Below<V>(store: map<Handle, V>, n: nat)
  {
    forall h :: h in store ==> h < n
  }

  /** Every handle in use is below `next`, so `next` names a new object. */
  predicate Fresh(s: LoaderState)
  {
    Below(s.programStore.m, s.next) && Below(s.shaderStore.m, s.next) &&
    Below(s.textureStore.m, s.next) && Below(s.materialStore.m, s.next)
  }

  /** The texture and material tables are as they were. */
  predicate TexturesAndMaterialsKept(s: LoaderState, t: LoaderState)
  {
    t.textures.m == s.textures.m && t.textureStore.m == s.textureStore.m &&
    t.materials.m == s.materials.m && t.materialStore.m == s.materialStore.m && t.materialDefs.m == s.materialDefs.m
  }

  /** The program, shader and material tables are as they were. */
  predicate ProgramsAndMaterialsKept(s: LoaderState, t: LoaderState)
  {
    t.programs.m == s.programs.m && t.programStore.m == s.programStore.m &&
    t.shaders.m == s.shaders.m && t.shaderStore.m == s.shaderStore.m &&
    t.materials.m == s.materials.m && t.materialStore.m == s.materialStore.m && t.materialDefs.m == s.materialDefs.m
  }

  /** Adding or updating programs and textures never invalidates a
      material. */
  lemma MaterialsOkGrow(materials: map<string, Handle>, ms: map<Handle, GlMaterial>,
                        ps: map<Handle, ShaderProgram>, ts: map<Handle, Texture>,
                        ps': map<Handle, ShaderProgram>, ts': map<Handle, Texture>)
    requires MaterialsOk(materials, ms, ps, ts) && ps.Keys <= ps'.Keys && ts.Keys <= ts'.Keys
    ensures MaterialsOk(materials, ms, ps', ts')
  {
    forall h | h in ms
      ensures MaterialRefsIn(ms[h], ps', ts')
    {
      assert MaterialRefsIn(ms[h], ps, ts);
    }
  }

  /** The result of an operation that can throw, with the state it leaves
      behind either way. */
  datatype Step<T> = Step(result: Result<T>, state: LoaderState)

  /** An operation that cannot throw: the object it returns and the state. */
  datatype Got = Got(h: Handle, state: LoaderState)

  /** The outcome of an operation that returns nothing, with the state it
      leaves behind. */
  datatype Done = Done(outcome: Outcome, state: LoaderState)


  /** `refcnt++` on a shader. */
  function BumpShader(store: map<Handle, GlShader>, h: Handle): (r: map<Handle, GlShader>)
    requires h in store
    ensures r.Keys == store.Keys && r[h].refcnt == Inc32(store[h].refcnt) && r[h].glId == store[h].glId
    ensures forall x :: x in store && x != h ==> r[x] == store[x]
  {
    store[h := store[h].(refcnt := Inc32(store[h].refcnt))]
  }

  /** `loadShader` (lines 165-211). An empty path yields null. A cached
      shader has its count raised. Otherwise a GL shader id is taken, and
      a missing file or a failed compile throws; a compiled shader starts
      at count 1 and is not entered in `shaders`. */
  function ShaderLoad(s: LoaderState, path: string, gl: Gl): (r: Step<Option<Handle>>)
    requires Consistent(s)
    ensures Consistent(r.state)
    ensures r.result.Success? ==> (r.result.value.None? <==> path == "")
    ensures r.result.Success? && r.result.value.Some? ==> r.result.value.value in r.state.shaderStore.m
    ensures TexturesAndMaterialsKept(s, r.state)
    ensures r.state.programs.m == s.programs.m && r.state.programStore.m == s.programStore.m && r.state.shaders.m == s.shaders.m
    ensures s.shaderStore.m.Keys <= r.state.shaderStore.m.Keys && s.next <= r.state.next
  {
    if path == "" then Step(Success(None), s)
    else if path in s.shaders.m then
      var h := s.shaders.m[path];
      Step(Success(Some(h)), s.(shaderStore := Table(BumpShader(s.shaderStore.m, h))))
    else
      var s1 := s.(nextGl := s.nextGl + 1);
      if path !in gl.shaderFiles then Step(Failure(ShaderFileMissing(path)), s1)
      else if path !in gl.compiles then Step(Failure(CompileFailed(path)), s1)
      else Step(Success(Some(s.next)), s1.(shaderStore := Table(s.shaderStore.m[s.next := GlShader(1, s.nextGl)]), next := s.next + 1))
  }

  /** Whether `loadShader(path)` is a cache hit. */
  predicate ShaderCached(s: LoaderState, path: string)
  {
    path != "" && path in s.shaders.m
  }

  /** `loadShader`: the empty path is null and changes nothing; a cached
      name returns its shader one count higher; a new shader is a new
      object with count 1; a missing file or a failed compile throws with
      no shader added. In no case does `shaders` gain an entry. */
  lemma ShaderLoadCases(s: LoaderState, path: string, gl: Gl)
    requires Consistent(s)
    ensures var r := ShaderLoad(s, path, gl);
      (path == "" ==> r == Step(Success(None), s)) &&
      (ShaderCached(s, path) ==>
        r.result == Success(Some(s.shaders.m[path])) &&
        r.state.shaderStore.m[s.shaders.m[path]].refcnt == Inc32(s.shaderStore.m[s.shaders.m[path]].refcnt)) &&
      (path != "" && !ShaderCached(s, path) ==>
        (r.result.Success? <==> path in gl.shaderFiles && path in gl.compiles) &&
        (r.result.Success? ==>
          r.result.value == Some(s.next) && r.state.next == s.next + 1 &&
          r.state.shaderStore.m == s.shaderStore.m[s.next := GlShader(1, s.nextGl)]) &&
        (r.result.Failure? ==> r.state.shaderStore.m == s.shaderStore.m && r.state.next == s.next)) &&
      r.state.shaders.m == s.shaders.m
  {
  }

  /** The shaders of a program each gain a count as they are attached:
      the geometry shader if there is one, then the vertex shader, then
      the fragment shader. */
  function AttachShaders(st: map<Handle, GlShader>, fh: Handle, vh: Handle, gh: Option<Handle>): (r: map<Handle, GlShader>)
    requires fh in st && vh in st && (gh.Some? ==> gh.value in st)
    ensures r.Keys == st.Keys
    ensures forall x :: x in st && x != fh && x != vh && gh != Some(x) ==> r[x] == st[x]
    ensures fh != vh && gh != Some(fh) && gh != Some(vh) ==>
      r[fh].refcnt == Inc32(st[fh].refcnt) && r[vh].refcnt == Inc32(st[vh].refcnt) &&
      (gh.Some? ==> r[gh.value].refcnt == Inc32(st[gh.value].refcnt))
  {
    var st1 := if gh.Some? then BumpShader(st, gh.value) else st;
    BumpShader(BumpShader(st1, vh), fh)
  }

  /** `loadProgram` (lines 213-255). A cached key returns its program with
      the count raised; otherwise a GL program id is taken and the program
      is created. On success the key maps to the program returned; a
      program that throws is not cached. */
  function ProgramLoad(s: LoaderState, key: ShaderKey, gl: Gl): (r: Step<Handle>)
    requires Consistent(s)
    ensures Consistent(r.state)
    ensures key in s.programs.m ==> r.result == Success(s.programs.m[key])
    ensures r.result.Success? ==> r.result.value in r.state.programStore.m && r.state.programs.m == s.programs.m[key := r.result.value]
    ensures r.result.Failure? ==> r.state.programs.m == s.programs.m && r.state.programStore.m == s.programStore.m
    ensures TexturesAndMaterialsKept(s, r.state) && r.state.shaders.m == s.shaders.m
    ensures s.programStore.m.Keys <= r.state.programStore.m.Keys && s.shaderStore.m.Keys <= r.state.shaderStore.m.Keys
    ensures s.next <= r.state.next
  {
    if key in s.programs.m then
      var h := s.programs.m[key];
      Step(Success(h), s.(programStore := Table(s.programStore.m[h := s.programStore.m[h].(refcnt := Inc32(s.programStore.m[h].refcnt))])))
    else
      ProgramCreate(BumpGl(s), s.nextGl, key, gl)
  }

  /** The state after a GL program id is taken. */
  function BumpGl(s: LoaderState): (r: LoaderState)
    ensures Consistent(s) ==> Consistent(r)
  {
    s.(nextGl := s.nextGl + 1)
  }

  /** The shaders a program is linked from. */
  datatype ShaderSet = ShaderSet(frag: Handle, vert: Handle, geom: Option<Handle>)

  /** The shader part of the uncached path of `loadProgram`: an empty
      fragment name throws, then the fragment shader is loaded, then an
      empty vertex name throws, then the vertex shader is loaded, then the
      geometry shader when the key names one; any shader that throws
      aborts the load. */
  function ShadersLoad(s: LoaderState, key: ShaderKey, gl: Gl): (r: Step<ShaderSet>)
    requires Consistent(s)
    ensures Consistent(r.state)
    ensures r.result.Success? ==> var ss := r.result.value;
      ss.frag in r.state.shaderStore.m && ss.vert in r.state.shaderStore.m &&
      (ss.geom.Some? ==> ss.geom.value in r.state.shaderStore.m)
    ensures TexturesAndMaterialsKept(s, r.state)
    ensures r.state.programs.m == s.programs.m && r.state.programStore.m == s.programStore.m && r.state.shaders.m == s.shaders.m
    ensures s.shaderStore.m.Keys <= r.state.shaderStore.m.Keys && s.next <= r.state.next
  {
    if key.frag == "" then Step(Failure(MissingFragmentShader), s)
    else
      var f := ShaderLoad(s, key.frag + ".fs", gl);
      if f.result.Failure? then Step(Failure(f.result.error), f.state)
      else if key.vert == "" then Step(Failure(MissingVertexShader), f.state)
      else
        var v := ShaderLoad(f.state, key.vert + ".vs", gl);
        if v.result.Failure? then Step(Failure(v.result.error), v.state)
        else
          var g := if key.geom == "" then Step(Success(None), v.state) else ShaderLoad(v.state, key.geom + ".gs", gl);
          if g.result.Failure? then Step(Failure(g.result.error), g.state)
          else Step(Success(ShaderSet(f.result.value.value, v.result.value.value, g.result.value)), g.state)
  }

  /** The uncached path of `loadProgram`: the shaders are loaded, then the
      program is linked from them. */
  function ProgramCreate(s: LoaderState, glId: nat, key: ShaderKey, gl: Gl): (r: Step<Handle>)
    requires Consistent(s)
    ensures Consistent(r.state)
    ensures r.result.Success? ==> r.result.value in r.state.programStore.m && r.state.programs.m == s.programs.m[key := r.result.value]
    ensures r.result.Failure? ==> r.state.programs.m == s.programs.m && r.state.programStore.m == s.programStore.m
    ensures TexturesAndMaterialsKept(s, r.state) && r.state.shaders.m == s.shaders.m
    ensures s.programStore.m.Keys <= r.state.programStore.m.Keys && s.shaderStore.m.Keys <= r.state.shaderStore.m.Keys
    ensures s.next <= r.state.next
  {
    var sh := ShadersLoad(s, key, gl);
    if sh.result.Failure? then Step(Failure(sh.result.error), sh.state)
    else ProgramLink(sh.state, glId, key, sh.result.value.frag, sh.result.value.vert, sh.result.value.geom, gl)
  }

  /** The end of `loadProgram`: the shaders are attached, then a link
      failure throws, otherwise the new program, with count 1, is cached
      under its key. */
  function ProgramLink(s: LoaderState, glId: nat, key: ShaderKey, fh: Handle, vh: Handle, gh: Option<Handle>, gl: Gl): (r: Step<Handle>)
    requires Consistent(s)
    requires fh in s.shaderStore.m && vh in s.shaderStore.m && (gh.Some? ==> gh.value in s.shaderStore.m)
    ensures Consistent(r.state)
    ensures r.result.Success? <==> key in gl.linkable
    ensures r.result.Success? ==>
      r.result.value == s.next &&
      r.state.programStore.m == s.programStore.m[s.next := ShaderProgram(1, glId, vh, gh, fh)] &&
      r.state.programs.m == s.programs.m[key := s.next] && r.state.next == s.next + 1
    ensures r.result.Failure? ==>
      r.result.error == LinkFailed && r.state.programs.m == s.programs.m &&
      r.state.programStore.m == s.programStore.m && r.state.next == s.next
    ensures r.state.shaderStore.m == AttachShaders(s.shaderStore.m, fh, vh, gh)
    ensures TexturesAndMaterialsKept(s, r.state) && r.state.shaders.m == s.shaders.m && r.state.nextGl == s.nextGl
  {
    var s2 := s.(shaderStore := Table(AttachShaders(s.shaderStore.m, fh, vh, gh)));
    if key !in gl.linkable then Step(Failure(LinkFailed), s2)
    else
      var t := s2.(programStore := Table(s2.programStore.m[s2.next := ShaderProgram(1, glId, vh, gh, fh)]),
                   programs := Table(s2.programs.m[key := s2.next]), next := s2.next + 1);
      assert Consistent(t) by {
        MaterialsOkGrow(s.materials.m, s.materialStore.m, s.programStore.m, s.textureStore.m, t.programStore.m, t.textureStore.m);
      }
      Step(Success(s2.next), t)
  }

  /** A cached key returns the cached program one count higher and
      changes nothing else. */
  lemma ProgramCacheHit(s: LoaderState, key: ShaderKey, gl: Gl)
    requires Consistent(s) && key in s.programs.m
    ensures var r := ProgramLoad(s, key, gl); var h := s.programs.m[key];
      r.result == Success(h) && r.state.programs.m == s.programs.m &&
      r.state.programStore.m == s.programStore.m[h := s.programStore.m[h].(refcnt := Inc32(s.programStore.m[h].refcnt))] &&
      r.state.shaderStore.m == s.shaderStore.m
  {
  }

  /** For an uncached key the fragment shader is checked first: an empty
      fragment name throws whatever the vertex name is, and an empty
      vertex name throws only once the fragment shader has loaded. */
  lemma ProgramCheckOrder(s: LoaderState, key: ShaderKey, gl: Gl)
    requires Consistent(s) && key !in s.programs.m
    ensures key.frag == "" ==> ProgramLoad(s, key, gl).result == Failure(MissingFragmentShader)
    ensures key.frag != "" && key.vert == "" ==>
      var f := ShaderLoad(BumpGl(s), key.frag + ".fs", gl);
      ProgramLoad(s, key, gl).result == (if f.result.Failure? then Failure(f.result.error) else Failure(MissingVertexShader))
  {
  }

  /** A newly linked program, when no shader came from the shader cache
      (the cache is never filled): it is cached under its key with count
      1 in a new object; its vertex and fragment shaders, and its geometry
      shader exactly when the key names one, are new objects with count 2
      (1 at creation, 1 for the program); and it links exactly when GL
      says the key links. */
  lemma {:induction false} ProgramFreshlyLinked(s: LoaderState, key: ShaderKey, gl: Gl)
    requires Consistent(s) && Fresh(s) && key !in s.programs.m && s.shaders.m == map[]
    requires key.frag != "" && key.vert != ""
    requires key.frag + ".fs" in gl.shaderFiles && key.frag + ".fs" in gl.compiles
    requires key.vert + ".vs" in gl.shaderFiles && key.vert + ".vs" in gl.compiles
    requires key.geom != "" ==> key.geom + ".gs" in gl.shaderFiles && key.geom + ".gs" in gl.compiles
    ensures var r := ProgramLoad(s, key, gl);
      (r.result.Success? <==> key in gl.linkable) &&
      (r.result.Success? ==>
        var h := r.result.value;
        var p := r.state.programStore.m[h];
        h !in s.programStore.m && r.state.programs.m == s.programs.m[key := h] && p.refcnt == 1 &&
        (p.geom.Some? <==> key.geom != "") &&
        p.vert !in s.shaderStore.m && p.frag !in s.shaderStore.m && p.vert != p.frag &&
        r.state.shaderStore.m[p.vert].refcnt == 2 && r.state.shaderStore.m[p.frag].refcnt == 2 &&
        (p.geom.Some? ==> p.geom.value !in s.shaderStore.m && r.state.shaderStore.m[p.geom.value].refcnt == 2))
  {
    var s0 := BumpGl(s);
    var sh := ShadersLoad(s0, key, gl);
    ShadersLoadFresh(s0, key, gl);
    var ss := sh.result.value;
    assert sh.state.next !in s.programStore.m by {
      assert Below(s.programStore.m, s.next);
    }
    ProgramLoadLinks(s, key, gl);
    ProgramLinkFresh(sh.state, s.nextGl, key, ss.frag, ss.vert, ss.geom, gl);
  }

  /** Linking from shaders of count 1: the program, with count 1, records
      them, and each shader's count becomes 2. */
  lemma ProgramLinkFresh(s: LoaderState, glId: nat, key: ShaderKey, fh: Handle, vh: Handle, gh: Option<Handle>, gl: Gl)
    requires Consistent(s)
    requires fh in s.shaderStore.m && vh in s.shaderStore.m && (gh.Some? ==> gh.value in s.shaderStore.m)
    requires fh != vh && gh != Some(fh) && gh != Some(vh)
    requires s.shaderStore.m[fh].refcnt == 1 && s.shaderStore.m[vh].refcnt == 1 && (gh.Some? ==> s.shaderStore.m[gh.value].refcnt == 1)
    ensures var r := ProgramLink(s, glId, key, fh, vh, gh, gl);
      r.result.Success? ==>
        r.state.programStore.m[r.result.value] == ShaderProgram(1, glId, vh, gh, fh) &&
        r.state.shaderStore.m[fh].refcnt == 2 && r.state.shaderStore.m[vh].refcnt == 2 &&
        (gh.Some? ==> r.state.shaderStore.m[gh.value].refcnt == 2)
  {
  }

  /** An uncached key takes the next GL id and goes to `ProgramCreate`. */
  lemma ProgramLoadMiss(s: LoaderState, key: ShaderKey, gl: Gl)
    requires Consistent(s) && key !in s.programs.m
    ensures ProgramLoad(s, key, gl) == ProgramCreate(BumpGl(s), s.nextGl, key, gl)
  {
  }

  /** An uncached key whose shaders load is linked from them, with the GL
      id taken before the shaders were loaded. */
  lemma ProgramLoadLinks(s: LoaderState, key: ShaderKey, gl: Gl)
    requires Consistent(s) && key !in s.programs.m
    ensures var s0 := BumpGl(s); var sh := ShadersLoad(s0, key, gl);
      sh.result.Success? ==>
        ProgramLoad(s, key, gl) == ProgramLink(sh.state, s.nextGl, key, sh.result.value.frag, sh.result.value.vert, sh.result.value.geom, gl)
  {
    ProgramLoadMiss(s, key, gl);
  }

  /** Loading a key's shaders when none is cached and every file is
      present and compiles: the fragment, vertex and (when named) geometry
      shaders become the next new objects, in that order, each with
      count 1. */
  lemma {:induction false} ShadersLoadFresh(s: LoaderState, key: ShaderKey, gl: Gl)
    requires Consistent(s) && Below(s.shaderStore.m, s.next) && s.shaders.m == map[]
    requires key.frag != "" && key.vert != ""
    requires key.frag + ".fs" in gl.shaderFiles && key.frag + ".fs" in gl.compiles
    requires key.vert + ".vs" in gl.shaderFiles && key.vert + ".vs" in gl.compiles
    requires key.geom != "" ==> key.geom + ".gs" in gl.shaderFiles && key.geom + ".gs" in gl.compiles
    ensures var r := ShadersLoad(s, key, gl); var n := s.next;
      r.result == Success(ShaderSet(n, n + 1, if key.geom == "" then None else Some(n + 2))) &&
      r.state.next == (if key.geom == "" then n + 2 else n + 3)
    ensures var r := ShadersLoad(s, key, gl); var ss := r.result.value;
      r.result.Success? && ss.frag != ss.vert && ss.geom != Some(ss.frag) && ss.geom != Some(ss.vert) &&
      (ss.geom.Some? <==> key.geom != "") &&
      ss.frag !in s.shaderStore.m && ss.vert !in s.shaderStore.m && (ss.geom.Some? ==> ss.geom.value !in s.shaderStore.m) &&
      ss.frag in r.state.shaderStore.m && ss.vert in r.state.shaderStore.m &&
      r.state.shaderStore.m[ss.frag].refcnt == 1 && r.state.shaderStore.m[ss.vert].refcnt == 1 &&
      (ss.geom.Some? ==> ss.geom.value in r.state.shaderStore.m && r.state.shaderStore.m[ss.geom.value].refcnt == 1)
  {
    var n := s.next;
    var f := ShaderLoad(s, key.frag + ".fs", gl);
    ShaderLoadCases(s, key.frag + ".fs", gl);
    var v := ShaderLoad(f.state, key.vert + ".vs", gl);
    ShaderLoadCases(f.state, key.vert + ".vs", gl);
    if key.geom != "" {
      ShaderLoadCases(v.state, key.geom + ".gs", gl);
    }
  }

  /** `refcnt++` on a texture. */
  function BumpTexture(store: map<Handle, Texture>, h: Handle): (r: map<Handle, Texture>)
    requires h in store
    ensures r.Keys == store.Keys && r[h].refcnt == Inc32(store[h].refcnt)
    ensures forall x :: x in store && x != h ==> r[x] == store[x]
  {
    store[h := store[h].(refcnt := Inc32(store[h].refcnt))]
  }

  /** The path of the fallback texture. */
  const MissingPath: string := "__MISSING__"

  /** `loadTexture` (lines 133-157). A cached path returns its texture one
      count higher. The first request for `__MISSING__` creates it. Any
      other path is answered by `loadTexture("__MISSING__")`. */
  function TextureLoad(s: LoaderState, path: string): (r: Got)
    requires Consistent(s)
    ensures Consistent(r.state) && r.h in r.state.textureStore.m
    ensures ProgramsAndMaterialsKept(s, r.state)
    ensures s.textureStore.m.Keys <= r.state.textureStore.m.Keys && s.next <= r.state.next
    decreases if path == MissingPath then 0 else 1
  {
    if path in s.textures.m then
      var h := s.textures.m[path];
      var t := s.(textureStore := Table(BumpTexture(s.textureStore.m, h)));
      assert Consistent(t) by {
        MaterialsOkGrow(s.materials.m, s.materialStore.m, s.programStore.m, s.textureStore.m, t.programStore.m, t.textureStore.m);
      }
      Got(h, t)
    else if path == MissingPath then
      var t := s.(textureStore := Table(s.textureStore.m[s.next := FileTexture(1, path, 2, 2, 0, s.nextGl)]),
                  textures := Table(s.textures.m[path := s.next]), next := s.next + 1, nextGl := s.nextGl + 1);
      assert Consistent(t) by {
        MaterialsOkGrow(s.materials.m, s.materialStore.m, s.programStore.m, s.textureStore.m, t.programStore.m, t.textureStore.m);
      }
      Got(s.next, t)
    else
      TextureLoad(s, MissingPath)
  }

  /** A cached path returns the same texture, one count higher. */
  lemma TextureCacheHit(s: LoaderState, path: string)
    requires Consistent(s) && path in s.textures.m
    ensures var r := TextureLoad(s, path);
      r.h == s.textures.m[path] && r.state.textures.m == s.textures.m &&
      r.state.textureStore.m[r.h].refcnt == Inc32(s.textureStore.m[r.h].refcnt)
  {
  }

  /** The first request for `__MISSING__` creates a new 2x2 texture with
      count 1 and no mipmap beyond level 0, cached under that name. */
  lemma MissingTextureCreated(s: LoaderState)
    requires Consistent(s) && Fresh(s) && MissingPath !in s.textures.m
    ensures var r := TextureLoad(s, MissingPath);
      r.h !in s.textureStore.m && r.state.textures.m == s.textures.m[MissingPath := r.h] &&
      r.state.textureStore.m[r.h] == FileTexture(1, MissingPath, 2, 2, 0, s.nextGl)
  {
    assert Below(s.textureStore.m, s.next);
  }

  /** Any uncached path other than `__MISSING__` gets exactly what a
      request for `__MISSING__` gets, and is never cached under its own
      name: the only name `loadTexture` ever adds is `__MISSING__`. */
  lemma {:induction false} OtherPathsFallBack(s: LoaderState, path: string)
    requires Consistent(s) && path !in s.textures.m && path != MissingPath
    ensures TextureLoad(s, path) == TextureLoad(s, MissingPath)
    ensures path !in TextureLoad(s, path).state.textures.m
    ensures TextureLoad(s, path).state.textures.m.Keys <= s.textures.m.Keys + {MissingPath}
  {
    assert TextureLoad(s, path) == TextureLoad(s, MissingPath);
    if MissingPath in s.textures.m {
      TextureCacheHit(s, MissingPath);
    }
  }

  /** `loadWebview` (lines 159-163): a new 800x600 webview on every call,
      never cached. */
  function WebviewLoad(s: LoaderState, path: string): (r: Got)
    requires Consistent(s)
    ensures Consistent(r.state) && r.h in r.state.textureStore.m
    ensures r.state.textures.m == s.textures.m && r.state.textureStore.m == s.textureStore.m[r.h := WebviewTexture(0, path, 800, 600)]
    ensures ProgramsAndMaterialsKept(s, r.state) && r.h == s.next && r.state.next == s.next + 1 && r.state.nextGl == s.nextGl
    ensures Fresh(s) ==> r.h !in s.textureStore.m && Fresh(r.state)
  {
    var t := s.(textureStore := Table(s.textureStore.m[s.next := WebviewTexture(0, path, 800, 600)]), next := s.next + 1);
    assert Consistent(t) by {
      MaterialsOkGrow(s.materials.m, s.materialStore.m, s.programStore.m, s.textureStore.m, t.programStore.m, t.textureStore.m);
    }
    Got(s.next, t)
  }

  /** `mat->uniforms.push_back(u)`. */
  function AppendUniform(s: LoaderState, mat: Handle, u: GlUniform): (r: LoaderState)
    requires Consistent(s) && mat in s.materialStore.m
    requires u.kind == Plain(Texture) ==> u.texture.Some? && u.texture.value in s.textureStore.m
    ensures Consistent(r) && mat in r.materialStore.m
    ensures r == s.(materialStore := Table(r.materialStore.m))
    ensures r.materialStore.m == s.materialStore.m[mat := s.materialStore.m[mat].(uniforms := s.materialStore.m[mat].uniforms + [u])]
  {
    var m := s.materialStore.m[mat];
    var m' := m.(uniforms := m.uniforms + [u]);
    assert MaterialRefsIn(m', s.programStore.m, s.textureStore.m) by {
      assert MaterialRefsIn(m, s.programStore.m, s.textureStore.m);
      forall i | 0 <= i < |m'.uniforms| && m'.uniforms[i].kind == Plain(Texture)
        ensures m'.uniforms[i].texture.Some? && m'.uniforms[i].texture.value in s.textureStore.m
      {
        if i < |m.uniforms| {
          assert m'.uniforms[i] == m.uniforms[i];
        }
      }
    }
    s.(materialStore := Table(s.materialStore.m[mat := m']))
  }

  /** The kind a uniform is stored with: a webview is stored as a texture. */
  function StoredKind(k: Kind): Kind
  {
    if k == WebviewKind then Plain(Texture) else k
  }

  /** A texture uniform: the texture is resolved through `loadTexture`
      and bound by a new uniform at the end of the material's list. */
  function AddTextureUniform(s: LoaderState, mat: Handle, loc: int, path: string): (r: LoaderState)
    requires Consistent(s) && mat in s.materialStore.m
    ensures Consistent(r) && mat in r.materialStore.m
    ensures r.materials.m == s.materials.m && r.materialDefs.m == s.materialDefs.m && r.programs.m == s.programs.m
    ensures r.materialStore.m == s.materialStore.m[mat := s.materialStore.m[mat].(uniforms :=
      s.materialStore.m[mat].uniforms + [GlUniform(loc, Plain(Texture), Some(TextureLoad(s, path).h))])]
  {
    var t := TextureLoad(s, path);
    AppendUniform(t.state, mat, GlUniform(loc, Plain(Texture), Some(t.h)))
  }

  /** A webview uniform: a new webview is created and bound by a new
      texture uniform at the end of the material's list. */
  function AddWebviewUniform(s: LoaderState, mat: Handle, loc: int, page: string): (r: LoaderState)
    requires Consistent(s) && mat in s.materialStore.m
    ensures Consistent(r) && mat in r.materialStore.m
    ensures r.materials.m == s.materials.m && r.materialDefs.m == s.materialDefs.m && r.programs.m == s.programs.m
    ensures r.materialStore.m == s.materialStore.m[mat := s.materialStore.m[mat].(uniforms :=
      s.materialStore.m[mat].uniforms + [GlUniform(loc, Plain(Texture), Some(s.next))])]
  {
    var w := WebviewLoad(s, page);
    AppendUniform(w.state, mat, GlUniform(loc, Plain(Texture), Some(w.h)))
  }

  /** One iteration of the uniform loop of `buildMaterial` (lines 113-129).
      A uniform the program does not use (location -1) is skipped. A
      texture is resolved through `loadTexture`; a webview is created and
      stored as a texture; any other kind carries no value. A texture or
      webview whose value is not a string throws and changes nothing. */
  function UniformStep(s: LoaderState, mat: Handle, progGl: nat, e: (string, GlUniformDef), gl: Gl): (r: Done)
    requires Consistent(s) && mat in s.materialStore.m
    ensures Consistent(r.state) && mat in r.state.materialStore.m
    ensures r.state.materials.m == s.materials.m && r.state.materialDefs.m == s.materialDefs.m && r.state.programs.m == s.programs.m
    ensures r.state.materialStore.m.Keys == s.materialStore.m.Keys
    ensures r.state.materialStore.m[mat].program == s.materialStore.m[mat].program
  {
    var loc := gl.location(progGl, e.0);
    if loc == -1 then Done(Pass, s)
    else if e.1.kind == Plain(Texture) then
      if !e.1.value.Text? then Done(Fail(BadAnyCast), s)
      else Done(Pass, AddTextureUniform(s, mat, loc, e.1.value.s))
    else if e.1.kind == WebviewKind then
      if !e.1.value.Text? then Done(Fail(BadAnyCast), s)
      else Done(Pass, AddWebviewUniform(s, mat, loc, e.1.value.s))
    else
      Done(Pass, AppendUniform(s, mat, GlUniform(loc, e.1.kind, None)))
  }

  /** One pass of the loop: it throws, changing nothing, exactly when a
      used texture or webview uniform does not hold a string; an unused
      uniform changes nothing; a used one appends one uniform with its
      location and stored kind and keeps the ones before it. */
  lemma UniformStepEffect(s: LoaderState, mat: Handle, progGl: nat, e: (string, GlUniformDef), gl: Gl)
    requires Consistent(s) && mat in s.materialStore.m
    ensures var r := UniformStep(s, mat, progGl, e, gl); var loc := gl.location(progGl, e.0);
      (r.outcome.Fail? <==> loc != -1 && (e.1.kind == Plain(Texture) || e.1.kind == WebviewKind) && !e.1.value.Text?) &&
      (r.outcome.Fail? ==> r == Done(Fail(BadAnyCast), s)) &&
      (r.outcome.Pass? && loc == -1 ==> r.state == s)
    ensures var r := UniformStep(s, mat, progGl, e, gl); var loc := gl.location(progGl, e.0);
      var before := s.materialStore.m[mat].uniforms;
      var after := r.state.materialStore.m[mat].uniforms;
      r.outcome.Pass? && loc != -1 ==>
        |after| == |before| + 1 && after[..|before|] == before &&
        after[|before|].glId == loc && after[|before|].kind == StoredKind(e.1.kind)
  {
  }

  /** The loop over the first entries, stopping at the first throw. */
  function UniformsBuild(s: LoaderState, mat: Handle, progGl: nat, entries: seq<(string, GlUniformDef)>, gl: Gl): (r: Done)
    requires Consistent(s) && mat in s.materialStore.m
    ensures Consistent(r.state) && mat in r.state.materialStore.m
    ensures r.state.materials.m == s.materials.m && r.state.materialDefs.m == s.materialDefs.m && r.state.programs.m == s.programs.m
    ensures r.state.materialStore.m.Keys == s.materialStore.m.Keys
    ensures r.state.materialStore.m[mat].program == s.materialStore.m[mat].program
  {
    if entries == [] then Done(Pass, s)
    else
      var r := UniformsBuild(s, mat, progGl, entries[..|entries| - 1], gl);
      if r.outcome.Fail? then r
      else UniformStep(r.state, mat, progGl, entries[|entries| - 1], gl)
  }

  /** The loop over one more entry is one more step after the loop over
      the entries before it, unless that loop already threw. */
  lemma UniformsBuildSnoc(s: LoaderState, mat: Handle, progGl: nat, entries: seq<(string, GlUniformDef)>, i: nat, gl: Gl)
    requires Consistent(s) && mat in s.materialStore.m && i < |entries|
    ensures var r := UniformsBuild(s, mat, progGl, entries[..i], gl);
      UniformsBuild(s, mat, progGl, entries[..i + 1], gl) == if r.outcome.Fail? then r else UniformStep(r.state, mat, progGl, entries[i], gl)
  {
    assert entries[..i + 1][..i] == entries[..i];
  }

  /** Once the loop throws, the later entries are never reached. */
  lemma {:induction false} UniformsBuildStops(s: LoaderState, mat: Handle, progGl: nat, entries: seq<(string, GlUniformDef)>, i: nat, gl: Gl)
    requires Consistent(s) && mat in s.materialStore.m && i <= |entries|
    requires UniformsBuild(s, mat, progGl, entries[..i], gl).outcome.Fail?
    ensures UniformsBuild(s, mat, progGl, entries, gl) == UniformsBuild(s, mat, progGl, entries[..i], gl)
    decreases |entries| - i
  {
    if i < |entries| {
      UniformsBuildSnoc(s, mat, progGl, entries, i, gl);
      UniformsBuildStops(s, mat, progGl, entries, i + 1, gl);
    } else {
      assert entries[..i] == entries;
    }
  }

  /** The entries the loop keeps: those the program has a location for. */
  function Used(entries: seq<(string, GlUniformDef)>, progGl: nat, gl: Gl): (r: seq<(string, GlUniformDef)>)
    ensures |r| <= |entries|
    ensures forall e :: e in r ==> e in entries && gl.location(progGl, e.0) != -1
  {
    if entries == [] then []
    else
      var rest := Used(entries[..|entries| - 1], progGl, gl);
      var e := entries[|entries| - 1];
      if gl.location(progGl, e.0) == -1 then rest else rest + [e]
  }

  /** `after` is `before` followed by one uniform per entry of `used`,
      in order, each with the entry's location and stored kind. */
  predicate AppendedFor(before: seq<GlUniform>, after: seq<GlUniform>, used: seq<(string, GlUniformDef)>, progGl: nat, gl: Gl)
  {
    |after| == |before| + |used| && after[..|before|] == before &&
    forall i :: 0 <= i < |used| ==>
      after[|before| + i].glId == gl.location(progGl, used[i].0) &&
      after[|before| + i].kind == StoredKind(used[i].1.kind)
  }

  /** Appending one uniform for one more used entry extends `AppendedFor`. */
  lemma AppendedForStep(before: seq<GlUniform>, mid: seq<GlUniform>, after: seq<GlUniform>,
                        used: seq<(string, GlUniformDef)>, e: (string, GlUniformDef), progGl: nat, gl: Gl)
    requires AppendedFor(before, mid, used, progGl, gl)
    requires |after| == |mid| + 1 && after[..|mid|] == mid
    requires after[|mid|].glId == gl.location(progGl, e.0) && after[|mid|].kind == StoredKind(e.1.kind)
    ensures AppendedFor(before, after, used + [e], progGl, gl)
  {
    assert after[..|before|] == after[..|mid|][..|before|];
    forall i | 0 <= i < |used| + 1
      ensures after[|before| + i].glId == gl.location(progGl, (used + [e])[i].0)
      ensures after[|before| + i].kind == StoredKind((used + [e])[i].1.kind)
    {
      if i < |used| {
        assert after[|before| + i] == mid[|before| + i];
      }
    }
  }

  /** When no cast throws, the loop appends to the material's existing
      uniforms (it does not clear them) exactly one uniform per entry with
      a location, in definition order, each with that location and its
      stored kind. */
  lemma {:induction false} UniformsBuildAppends(s: LoaderState, mat: Handle, progGl: nat, entries: seq<(string, GlUniformDef)>, gl: Gl)
    requires Consistent(s) && mat in s.materialStore.m
    ensures var r := UniformsBuild(s, mat, progGl, entries, gl);
      r.outcome.Pass? ==>
        AppendedFor(s.materialStore.m[mat].uniforms, r.state.materialStore.m[mat].uniforms, Used(entries, progGl, gl), progGl, gl)
  {
    if entries == [] {
      var us := s.materialStore.m[mat].uniforms;
      assert us[..|us|] == us;
    } else {
      var init := entries[..|entries| - 1];
      var e := entries[|entries| - 1];
      var r0 := UniformsBuild(s, mat, progGl, init, gl);
      UniformsBuildAppends(s, mat, progGl, init, gl);
      if r0.outcome.Pass? {
        var r := UniformStep(r0.state, mat, progGl, e, gl);
        UniformStepEffect(r0.state, mat, progGl, e, gl);
        assert UniformsBuild(s, mat, progGl, entries, gl) == r;
        if r.outcome.Pass? && gl.location(progGl, e.0) != -1 {
          AppendedForStep(s.materialStore.m[mat].uniforms, r0.state.materialStore.m[mat].uniforms,
            r.state.materialStore.m[mat].uniforms, Used(init, progGl, gl), e, progGl, gl);
        }
      }
    }
  }

  /** `buildMaterial` (lines 109-131): the program is loaded and stored in
      the material, then the uniform loop runs. When the program throws,
      the material is left as it was; otherwise the material's program is
      the one now cached under its key. */
  function MaterialBuild(s: LoaderState, mat: Handle, def: GlMaterialDef, gl: Gl): (r: Done)
    requires Consistent(s) && mat in s.materialStore.m
    ensures Consistent(r.state) && mat in r.state.materialStore.m
    ensures r.state.materials.m == s.materials.m && r.state.materialDefs.m == s.materialDefs.m
    ensures r.state.materialStore.m.Keys == s.materialStore.m.Keys
    ensures ProgramLoad(s, def.shaders, gl).result.Failure? ==>
      r.outcome.Fail? && r.state.materialStore.m == s.materialStore.m
    ensures ProgramLoad(s, def.shaders, gl).result.Success? ==>
      def.shaders in r.state.programs.m && r.state.materialStore.m[mat].program == Some(r.state.programs.m[def.shaders])
  {
    var p := ProgramLoad(s, def.shaders, gl);
    if p.result.Failure? then Done(Fail(p.result.error), p.state)
    else
      var prog := p.result.value;
      UniformsBuild(SetProgram(p.state, mat, prog), mat, p.state.programStore.m[prog].glId, def.uniforms, gl)
  }

  /** `mat->shaders = program`. */
  function SetProgram(s: LoaderState, mat: Handle, prog: Handle): (r: LoaderState)
    requires Consistent(s) && mat in s.materialStore.m && prog in s.programStore.m
    ensures Consistent(r) && mat in r.materialStore.m
    ensures r == s.(materialStore := Table(s.materialStore.m[mat := s.materialStore.m[mat].(program := Some(prog))]))
  {
    assert MaterialRefsIn(s.materialStore.m[mat], s.programStore.m, s.textureStore.m);
    s.(materialStore := Table(s.materialStore.m[mat := s.materialStore.m[mat].(program := Some(prog))]))
  }

  /** `refcnt--` on a texture. */
  function DropTexture(store: map<Handle, Texture>, h: Handle): (r: map<Handle, Texture>)
    requires h in store
    ensures r.Keys == store.Keys && r[h].refcnt == Dec32(store[h].refcnt)
    ensures forall x :: x in store && x != h ==> r[x] == store[x]
  {
    store[h := store[h].(refcnt := Dec32(store[h].refcnt))]
  }

  /** Every texture uniform binds an existing texture. */
  predicate TexturesIn(us: seq<GlUniform>, store: map<Handle, Texture>)
  {
    forall i :: 0 <= i < |us| && us[i].kind == Plain(Texture) ==> us[i].texture.Some? && us[i].texture.value in store
  }

  /** The texture loop of `cleanupMaterial` (lines 262-265) over the first
      uniforms: each texture uniform takes one count off its texture. */
  function ReleaseTextures(store: map<Handle, Texture>, us: seq<GlUniform>): (r: map<Handle, Texture>)
    requires TexturesIn(us, store)
    ensures r.Keys == store.Keys
  {
    if us == [] then store
    else
      var r := ReleaseTextures(store, us[..|us| - 1]);
      var u := us[|us| - 1];
      if u.kind == Plain(Texture) then DropTexture(r, u.texture.value) else r
  }

  /** How many texture uniforms bind texture `h`. */
  function TextureUses(us: seq<GlUniform>, h: Handle): nat
  {
    if us == [] then 0
    else TextureUses(us[..|us| - 1], h) + (if us[|us| - 1].kind == Plain(Texture) && us[|us| - 1].texture == Some(h) then 1 else 0)
  }

  /** Clean-up takes exactly one count per binding off each texture, with
      `GLuint` wrap-around, and leaves every other field of the texture
      alone; nothing is freed. */
  lemma {:induction false} ReleaseCountsUses(store: map<Handle, Texture>, us: seq<GlUniform>, h: Handle)
    requires TexturesIn(us, store) && h in store
    ensures ReleaseTextures(store, us)[h].refcnt == Sub32(store[h].refcnt, TextureUses(us, h))
    ensures ReleaseTextures(store, us)[h] == store[h].(refcnt := ReleaseTextures(store, us)[h].refcnt)
  {
    if us != [] {
      var init := us[..|us| - 1];
      assert TexturesIn(init, store) by {
        forall i | 0 <= i < |init| && init[i].kind == Plain(Texture)
          ensures init[i].texture.Some? && init[i].texture.value in store
        {
          assert init[i] == us[i];
        }
      }
      ReleaseCountsUses(store, init, h);
      var u := us[|us| - 1];
      if u.kind == Plain(Texture) && u.texture == Some(h) {
        Sub32Step(store[h].refcnt, TextureUses(init, h));
      }
    }
  }

  /** `cleanupMaterial` (lines 257-266): one count off the program and
      `ReleaseTextures` on the textures; no table changes. */
  function MaterialCleanup(s: LoaderState, mat: Handle): (r: LoaderState)
    requires Consistent(s) && mat in s.materialStore.m && s.materialStore.m[mat].program.Some?
    ensures Consistent(r)
    ensures r == s.(programStore := Table(r.programStore.m), textureStore := Table(r.textureStore.m))
    ensures r.programStore.m.Keys == s.programStore.m.Keys && r.textureStore.m.Keys == s.textureStore.m.Keys
  {
    var p := s.materialStore.m[mat].program.value;
    assert MaterialRefsIn(s.materialStore.m[mat], s.programStore.m, s.textureStore.m);
    var t := s.(programStore := Table(s.programStore.m[p := s.programStore.m[p].(refcnt := Dec32(s.programStore.m[p].refcnt))]),
                textureStore := Table(ReleaseTextures(s.textureStore.m, s.materialStore.m[mat].uniforms)));
    assert Consistent(t) by {
      MaterialsOkGrow(s.materials.m, s.materialStore.m, s.programStore.m, s.textureStore.m, t.programStore.m, t.textureStore.m);
    }
    t
  }

  /** `Loader::addMaterial` (lines 72-80). The insert keeps an existing
      definition. Without a material of that name nothing else happens;
      with one, it is cleaned up and rebuilt from the definition now
      stored, which is the old one when there was one. */
  function MaterialAdd(s: LoaderState, def: GlMaterialDef, name: string, gl: Gl): (r: Done)
    requires Consistent(s)
    requires name in s.materials.m ==> s.materialStore.m[s.materials.m[name]].program.Some?
    ensures Consistent(r.state)
    ensures r.state.materialDefs.m == (if name in s.materialDefs.m then s.materialDefs.m else s.materialDefs.m[name := def])
    ensures name !in s.materials.m ==> r == Done(Pass, s.(materialDefs := Table(r.state.materialDefs.m)))
  {
    var s1 := if name in s.materialDefs.m then s else s.(materialDefs := Table(s.materialDefs.m[name := def]));
    if name in s.materials.m then
      var m := s.materials.m[name];
      MaterialBuild(MaterialCleanup(s1, m), m, s1.materialDefs.m[name], gl)
    else Done(Pass, s1)
  }

  /** The definition the constructor registers for `__MISSING__`: the
      `guiview` shaders, the model-view and projection matrices, and the
      `__MISSING__` texture. */
  const MissingMaterialDef: GlMaterialDef := GlMaterialDef(
    ShaderKey("guiview", "", "guiview"),
    [("modelview", GlUniformDef(Plain(ModelView), Empty)),
     ("projection", GlUniformDef(Plain(Projection), Empty)),
     ("guitex", GlUniformDef(Plain(Texture), Text(MissingPath)))])

  /** A loader with nothing loaded. */
  const EmptyState: LoaderState := LoaderState(Table(map[]), Table(map[]), Table(map[]), Table(map[]), Table(map[]), Table(map[]), Table(map[]), Table(map[]), Table(map[]), 0, 0)

  /** What the constructor's `addMaterial("__MISSING__", ...)` does to an
      empty loader: no material exists yet, so the definition is stored and
      nothing is built. */
  lemma LoaderRegistersMissing(gl: Gl)
    ensures MaterialAdd(EmptyState, MissingMaterialDef, MissingPath, gl) ==
      Done(Pass, EmptyState.(materialDefs := Table(map[MissingPath := MissingMaterialDef])))
  {
  }

  /** The loader object. Each method is proved to leave the state its
      specification function computes from the old state; `Valid` holds
      after each call because every specification function preserves
      `Consistent`. */
  class Loader {
    var programs: map<ShaderKey, Handle>
    var programStore: map<Handle, ShaderProgram>
    var shaders: map<string, Handle>
    var shaderStore: map<Handle, GlShader>
    var textures: map<string, Handle>
    var textureStore: map<Handle, Texture>
    var materials: map<string, Handle>
    var materialStore: map<Handle, GlMaterial>
    var materialDefs: map<string, GlMaterialDef>
    var next: Handle
    var nextGl: nat

    /** The fields as one value. */
    function State(): LoaderState
      reads this
    {
      LoaderState(Table(programs), Table(programStore), Table(shaders), Table(shaderStore), Table(textures), Table(textureStore),
                  Table(materials), Table(materialStore), Table(materialDefs), next, nextGl)
    }

    ghost predicate Valid()
      reads this
    {
      Consistent(State())
    }

    /** The constructor (lines 31-67): empty caches, then
        `addMaterial(__MISSING__)`, which only stores the definition since
        no material exists yet; the store is written directly and
        `LoaderRegistersMissing` shows it is what `MaterialAdd` does. */
    constructor (gl: Gl)
      ensures Valid()
      ensures State() == EmptyState.(materialDefs := Table(map[MissingPath := MissingMaterialDef]))
    {
      programs, programStore, shaders, shaderStore := map[], map[], map[], map[];
      textures, textureStore, materials, materialStore := map[], map[], map[], map[];
      materialDefs, next, nextGl := map[MissingPath := MissingMaterialDef], 0, 0;
    }

    /** `loadShader`, as `ShaderLoad` specifies it. */
    method LoadShader(path: string, gl: Gl) returns (r: Result<Option<Handle>>)
      requires Valid()
      modifies this
      ensures Step(r, State()) == ShaderLoad(old(State()), path, gl)
    {
      if path == "" {
        return Success(None);
      }
      if path in shaders {
        var h := shaders[path];
        shaderStore := shaderStore[h := shaderStore[h].(refcnt := Inc32(shaderStore[h].refcnt))];
        return Success(Some(h));
      }
      var glId := nextGl;
      nextGl := nextGl + 1;
      if path !in gl.shaderFiles {
        return Failure(ShaderFileMissing(path));
      }
      if path !in gl.compiles {
        return Failure(CompileFailed(path));
      }
      var h := next;
      next := next + 1;
      shaderStore := shaderStore[h := GlShader(1, glId)];
      return Success(Some(h));
    }

    /** `loadProgram`, as `ProgramLoad` specifies it. */
    method LoadProgram(key: ShaderKey, gl: Gl) returns (r: Result<Handle>)
      requires Valid()
      modifies this
      ensures Step(r, State()) == ProgramLoad(old(State()), key, gl)
    {
      ghost var s0 := State();
      if key in programs {
        r := ReuseProgram(key, gl);
        assert Step(r, State()) == ProgramLoad(s0, key, gl);
      } else {
        var glId := nextGl;
        nextGl := nextGl + 1;
        assert State() == BumpGl(s0);
        ProgramLoadMiss(s0, key, gl);
        r := CreateProgram(glId, key, gl);
        assert Step(r, State()) == ProgramLoad(s0, key, gl);
      }
    }

    /** A cached key: one more reference to its program. */
    method ReuseProgram(key: ShaderKey, gl: Gl) returns (r: Result<Handle>)
      requires Valid() && key in programs
      modifies this
      ensures Step(r, State()) == ProgramLoad(old(State()), key, gl)
    {
      var h := programs[key];
      programStore := programStore[h := programStore[h].(refcnt := Inc32(programStore[h].refcnt))];
      r := Success(h);
    }

    /** The uncached path of `loadProgram`, as `ProgramCreate` specifies
        it. */
    method CreateProgram(glId: nat, key: ShaderKey, gl: Gl) returns (r: Result<Handle>)
      requires Valid()
      modifies this
      ensures Step(r, State()) == ProgramCreate(old(State()), glId, key, gl)
    {
      var sh := LoadShaders(key, gl);
      if sh.Failure? {
        return Failure(sh.error);
      }
      r := LinkProgram(glId, key, sh.value.frag, sh.value.vert, sh.value.geom, gl);
    }

    /** The shader part of `loadProgram`, as `ShadersLoad` specifies it. */
    method LoadShaders(key: ShaderKey, gl: Gl) returns (r: Result<ShaderSet>)
      requires Valid()
      modifies this
      ensures Step(r, State()) == ShadersLoad(old(State()), key, gl)
    {
      if key.frag == "" {
        return Failure(MissingFragmentShader);
      }
      var frag := LoadShader(key.frag + ".fs", gl);
      if frag.Failure? {
        return Failure(frag.error);
      }
      if key.vert == "" {
        return Failure(MissingVertexShader);
      }
      var vert := LoadShader(key.vert + ".vs", gl);
      if vert.Failure? {
        return Failure(vert.error);
      }
      var geom: Result<Option<Handle>> := Success(None);
      if key.geom != "" {
        geom := LoadShader(key.geom + ".gs", gl);
      }
      if geom.Failure? {
        return Failure(geom.error);
      }
      return Success(ShaderSet(frag.value.value, vert.value.value, geom.value));
    }

    /** The end of `loadProgram`, as `ProgramLink` specifies it. */
    method LinkProgram(glId: nat, key: ShaderKey, fh: Handle, vh: Handle, gh: Option<Handle>, gl: Gl) returns (r: Result<Handle>)
      requires Valid()
      requires fh in shaderStore && vh in shaderStore && (gh.Some? ==> gh.value in shaderStore)
      modifies this
      ensures Step(r, State()) == ProgramLink(old(State()), glId, key, fh, vh, gh, gl)
    {
      if gh.Some? {
        shaderStore := shaderStore[gh.value := shaderStore[gh.value].(refcnt := Inc32(shaderStore[gh.value].refcnt))];
      }
      shaderStore := shaderStore[vh := shaderStore[vh].(refcnt := Inc32(shaderStore[vh].refcnt))];
      shaderStore := shaderStore[fh := shaderStore[fh].(refcnt := Inc32(shaderStore[fh].refcnt))];
      if key !in gl.linkable {
        return Failure(LinkFailed);
      }
      var h := next;
      programStore := programStore[h := ShaderProgram(1, glId, vh, gh, fh)];
      programs := programs[key := h];
      next := next + 1;
      return Success(h);
    }

    /** `loadTexture`, as `TextureLoad` specifies it; the fallback is the
        same recursive call the source makes. */
    method LoadTexture(path: string) returns (t: Handle)
      requires Valid()
      modifies this
      ensures Got(t, State()) == TextureLoad(old(State()), path)
      decreases if path == MissingPath then 0 else 1
    {
      if path in textures {
        t := textures[path];
        textureStore := textureStore[t := textureStore[t].(refcnt := Inc32(textureStore[t].refcnt))];
        return;
      }
      if path == MissingPath {
        t := next;
        textureStore := textureStore[t := FileTexture(1, path, 2, 2, 0, nextGl)];
        nextGl := nextGl + 1;
        textures := textures[path := t];
        next := next + 1;
        return;
      }
      t := LoadTexture(MissingPath);
    }

    /** `loadWebview`, as `WebviewLoad` specifies it. */
    method LoadWebview(path: string) returns (t: Handle)
      requires Valid()
      modifies this
      ensures Got(t, State()) == WebviewLoad(old(State()), path)
    {
      t := next;
      textureStore := textureStore[t := WebviewTexture(0, path, 800, 600)];
      next := next + 1;
    }

    /** `buildMaterial`, as `MaterialBuild` specifies it: the program is
        loaded and stored, then the loop runs entry by entry, appending to
        the material in place. */
    method BuildMaterial(mat: Handle, def: GlMaterialDef, gl: Gl) returns (r: Outcome)
      requires Valid() && mat in materialStore
      modifies this
      ensures Done(r, State()) == MaterialBuild(old(State()), mat, def, gl)
    {
      var prog := LoadProgram(def.shaders, gl);
      if prog.Failure? {
        return Fail(prog.error);
      }
      ghost var s0 := State();
      materialStore := materialStore[mat := materialStore[mat].(program := Some(prog.value))];
      assert State() == SetProgram(s0, mat, prog.value);
      r := BuildUniforms(mat, programStore[prog.value].glId, def.uniforms, gl);
    }

    /** The uniform loop of `buildMaterial`, as `UniformsBuild` specifies
        it: entry by entry, appending to the material in place. */
    method BuildUniforms(mat: Handle, progGl: nat, entries: seq<(string, GlUniformDef)>, gl: Gl) returns (r: Outcome)
      requires Valid() && mat in materialStore
      modifies this
      ensures Done(r, State()) == UniformsBuild(old(State()), mat, progGl, entries, gl)
    {
      ghost var s1 := State();
      var i := 0;
      while i < |entries|
        invariant 0 <= i <= |entries|
        invariant Valid() && mat in materialStore
        invariant UniformsBuild(s1, mat, progGl, entries[..i], gl).outcome.Pass?
        invariant UniformsBuild(s1, mat, progGl, entries[..i], gl).state == State()
      {
        UniformsBuildSnoc(s1, mat, progGl, entries, i, gl);
        r := AddUniform(mat, progGl, entries[i], gl);
        if r.Fail? {
          UniformsBuildStops(s1, mat, progGl, entries, i + 1, gl);
          return;
        }
        i := i + 1;
      }
      assert entries[..i] == entries;
      return Pass;
    }

    /** One pass of the uniform loop, as `UniformStep` specifies it. */
    method AddUniform(mat: Handle, progGl: nat, e: (string, GlUniformDef), gl: Gl) returns (r: Outcome)
      requires Valid() && mat in materialStore
      modifies this
      ensures Done(r, State()) == UniformStep(old(State()), mat, progGl, e, gl)
    {
      var (name, u) := e;
      var loc := gl.location(progGl, name);
      if loc == -1 {
        return Pass;
      }
      var stored := GlUniform(loc, u.kind, None);
      if u.kind == Plain(Texture) {
        if !u.value.Text? {
          return Fail(BadAnyCast);
        }
        var t := LoadTexture(u.value.s);
        stored := GlUniform(loc, Plain(Texture), Some(t));
      } else if u.kind == WebviewKind {
        if !u.value.Text? {
          return Fail(BadAnyCast);
        }
        var w := LoadWebview(u.value.s);
        stored := GlUniform(loc, Plain(Texture), Some(w));
      }
      materialStore := materialStore[mat := materialStore[mat].(uniforms := materialStore[mat].uniforms + [stored])];
      return Pass;
    }

    /** `cleanupMaterial`, as `MaterialCleanup` specifies it. */
    method CleanupMaterial(mat: Handle)
      requires Valid() && mat in materialStore && materialStore[mat].program.Some?
      modifies this
      ensures State() == MaterialCleanup(old(State()), mat)
    {
      assert MaterialRefsIn(materialStore[mat], programStore, textureStore);
      var p := materialStore[mat].program.value;
      programStore := programStore[p := programStore[p].(refcnt := Dec32(programStore[p].refcnt))];
      ghost var s1 := State();
      var us := materialStore[mat].uniforms;
      ghost var store0 := textureStore;
      var i := 0;
      while i < |us|
        invariant 0 <= i <= |us|
        invariant TexturesIn(us[..i], store0)
        invariant textureStore == ReleaseTextures(store0, us[..i])
        invariant State() == s1.(textureStore := Table(textureStore))
      {
        assert us[..i + 1][..i] == us[..i];
        if us[i].kind == Plain(Texture) {
          var t := us[i].texture.value;
          textureStore := textureStore[t := textureStore[t].(refcnt := Dec32(textureStore[t].refcnt))];
        }
        i := i + 1;
      }
      assert us[..i] == us;
    }

    /** `Loader::addMaterial`, as `MaterialAdd` specifies it. */
    method AddMaterial(def: GlMaterialDef, name: string, gl: Gl) returns (r: Outcome)
      requires Valid()
      requires name in materials ==> materialStore[materials[name]].program.Some?
      modifies this
      ensures Done(r, State()) == MaterialAdd(old(State()), def, name, gl)
    {
      if name !in materialDefs {
        materialDefs := materialDefs[name := def];
      }
      if name in materials {
        var m := materials[name];
        CleanupMaterial(m);
        r := BuildMaterial(m, materialDefs[name], gl);
      } else {
        r := Pass;
      }
    }
  }
}
