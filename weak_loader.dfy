/** The weak-pointer generation of the loader (pipeline/Loader.cpp). Each
    cache maps a name to a `weak_ptr`: an entry counts only while some
    `shared_ptr` still owns its object. Objects are handles, and the
    objects still owned somewhere form the set `live`; an entry whose
    handle is not in `live` has expired.

    Only `programs` and `material_defs` are ever written by this file; the
    material, mesh, texture and shader caches are read but never filled,
    and `loadShader` never creates a shader. */
module WeakLoader {
  import opened Wrappers
  import opened DefinitionTypes
  import Resources

  type Handle = Resources.Handle

  /** The three shaders a program is linked from. */
  datatype ShaderSet = ShaderSet(frag: Handle, vert: Handle, geom: Handle)

  /** A linked program: its GL id and its shaders. */
  datatype Program = Program(glId: nat, shaders: ShaderSet)

  /** A uniform of a built material: its location, its kind and, for a
      texture, the pointer `loadTexture` returned (possibly null). */
  datatype Uniform = Uniform(glId: int, kind: UniformType, texture: Option<Handle>)

  datatype Material = Material(program: Option<Handle>, uniforms: seq<Uniform>)

  /** GL as this loader sees it: the keys whose shaders link, and
      `glGetUniformLocation`. */
  datatype Gl = Gl(linkable: set<ShaderKey>, location: (nat, string) -> int)


  /** The loader's caches (each maps a name to a weak pointer), the
      program and material objects it has created, which objects are still
      owned somewhere, the next handle and the next GL program id. */
  datatype LoaderState = LoaderState(
    materials: Table<string, Handle>,
    materialDefs: Table<string, MaterialDef>,
    meshes: Table<string, Handle>,
    textures: Table<string, Handle>,
    shaders: Table<string, Handle>,
    programs: Table<ShaderKey, Handle>,
    programStore: Table<Handle, Program>,
    materialStore: Table<Handle, Material>,
    live: set<Handle>,
    next: Handle,
    nextGl: nat)

  /** Every handle of a cache lies below `n`. */
  predicate ValuesBelow<K>(cache: map<K, Handle>, n: nat)
  {
    forall k :: k in cache ==> cache[k] < n
  }

  /** Every live program and material entry names an existing object, and
      no handle at or above `next` is cached or owned, so `next` names a
      new object and an expired entry never comes back to life. */
  ghost predicate Valid(s: LoaderState)
  {
    (forall k :: k in s.programs.m && s.programs.m[k] in s.live ==> s.programs.m[k] in s.programStore.m) &&
    (forall n :: n in s.materials.m && s.materials.m[n] in s.live ==> s.materials.m[n] in s.materialStore.m) &&
    ValuesBelow(s.programs.m, s.next) && ValuesBelow(s.materials.m, s.next) &&
    (forall h :: h in s.live ==> h < s.next)
  }

  /** A weak-cache lookup (`find`, then `expired`, then `lock`): the
      entry's object while it is still owned, otherwise null. */
  function Cached<K>(cache: map<K, Handle>, live: set<Handle>, k: K): (r: Option<Handle>)
    ensures r.Some? <==> k in cache && cache[k] in live
    ensures r.Some? ==> r.value == cache[k]
  {
    if k in cache && cache[k] in live then Some(cache[k]) else None
  }

  /** The checks of the uncached path of `loadProgram` (lines 86-102), in
      order: an empty fragment name throws, an empty vertex name throws,
      then the three `glAttachShader` calls dereference the vertex,
      geometry and fragment shader pointers, and a null one crashes,
      which `NullShader` stands for; the geometry pointer is dereferenced
      even when the key names no geometry shader. Then the link must
      succeed. */
  function LinkCheck(key: ShaderKey, shaders: map<string, Handle>, live: set<Handle>, gl: Gl): (r: Result<ShaderSet>)
    ensures key.frag == "" ==> r == Failure(MissingFragmentShader)
    ensures key.frag != "" && key.vert == "" ==> r == Failure(MissingVertexShader)
    ensures r.Success? <==>
      key.frag != "" && key.vert != "" && key.geom != "" &&
      Cached(shaders, live, key.frag).Some? && Cached(shaders, live, key.vert).Some? &&
      Cached(shaders, live, key.geom).Some? && key in gl.linkable
    ensures r.Success? ==>
      r.value == ShaderSet(shaders[key.frag], shaders[key.vert], shaders[key.geom])
  {
    if key.frag == "" then Failure(MissingFragmentShader)
    else if key.vert == "" then Failure(MissingVertexShader)
    else
      var f := Cached(shaders, live, key.frag);
      var v := Cached(shaders, live, key.vert);
      var g := if key.geom == "" then None else Cached(shaders, live, key.geom);
      if v.None? || g.None? || f.None? then Failure(NullShader)
      else if key !in gl.linkable then Failure(LinkFailed)
      else Success(ShaderSet(f.value, v.value, g.value))
  }

  /** The result of an operation and the state it leaves. */
  datatype Step<T> = Step(result: Result<T>, state: LoaderState)

  datatype Done = Done(outcome: Outcome, state: LoaderState)

  /** `loadProgram` (lines 80-113). A live cached program is returned as
      it is. Otherwise a GL program id is taken, and when `LinkCheck`
      passes a new program is created, owned by the caller, and entered
      under its key by `insert`, which leaves an existing (expired) entry
      in place. */
  function ProgramLoad(s: LoaderState, key: ShaderKey, gl: Gl): (r: Step<Handle>)
    requires Valid(s)
    ensures Valid(r.state)
    ensures r.result.Success? ==> r.result.value in r.state.live && r.result.value in r.state.programStore.m
    ensures r.state.materialStore == s.materialStore
  {
    if Cached(s.programs.m, s.live, key).Some? then Step(Success(s.programs.m[key]), s)
    else
      var c := LinkCheck(key, s.shaders.m, s.live, gl);
      var s1 := s.(nextGl := s.nextGl + 1);
      if c.Failure? then Step(Failure(c.error), s1)
      else
        var h := s.next;
        Step(Success(h), s1.(programStore := Table(s.programStore.m[h := Program(s.nextGl, c.value)]),
                             programs := if key in s.programs.m then s.programs else Table(s.programs.m[key := h]),
                             live := s.live + {h}, next := h + 1))
  }

  /** What `loadProgram` promises. A live cached program is returned and
      nothing changes. Otherwise one GL program id is used up, the load
      succeeds exactly when `LinkCheck` passes (failing with its error
      otherwise), and a success returns a program no one owned before,
      linked from the checked shaders; the key is cached only when it had
      no entry at all. No other table changes. */
  lemma ProgramLoadSpec(s: LoaderState, key: ShaderKey, gl: Gl)
    requires Valid(s)
    ensures var r := ProgramLoad(s, key, gl);
      (Cached(s.programs.m, s.live, key).Some? ==> r == Step(Success(s.programs.m[key]), s)) &&
      (Cached(s.programs.m, s.live, key).None? ==>
        var c := LinkCheck(key, s.shaders.m, s.live, gl);
        r.state.nextGl == s.nextGl + 1 &&
        (r.result.Success? <==> c.Success?) &&
        (c.Failure? ==> r.result.error == c.error && r.state.live == s.live) &&
        (c.Success? ==>
          r.result == Success(s.next) && r.state.next == s.next + 1 &&
          s.next !in s.live && r.state.live == s.live + {s.next} &&
          r.state.programStore.m[r.result.value] == Program(s.nextGl, c.value)))
    ensures var r := ProgramLoad(s, key, gl);
      r.state.programs.m ==
        (if r.result.Success? && key !in s.programs.m then s.programs.m[key := r.result.value] else s.programs.m) &&
      r.state.materials == s.materials && r.state.materialDefs == s.materialDefs &&
      r.state.meshes == s.meshes && r.state.textures == s.textures && r.state.shaders == s.shaders
  {
    if Cached(s.programs.m, s.live, key).None? && LinkCheck(key, s.shaders.m, s.live, gl).Success? {
      assert s.next !in s.live;
    }
  }

  /** A key whose entry has expired is never entered again: after a
      successful load the entry is still the expired one, so the next
      load of the key misses again and creates yet another program. */
  lemma ExpiredProgramStaysExpired(s: LoaderState, key: ShaderKey, gl: Gl)
    requires Valid(s)
    requires key in s.programs.m && s.programs.m[key] !in s.live
    ensures var r := ProgramLoad(s, key, gl);
      r.state.programs.m[key] == s.programs.m[key] &&
      Cached(r.state.programs.m, r.state.live, key).None? &&
      (r.result.Success? ==> r.result.value != s.programs.m[key])
  {
    var r := ProgramLoad(s, key, gl);
    assert s.programs.m[key] < s.next;
    assert r.state.live <= s.live + {s.next};
  }

  /** What the uniform loop of `buildMaterial` appends, and whether it
      ends by a throw. */
  datatype Appended = Appended(us: seq<Uniform>, outcome: Outcome)

  /** The uniform loop of `buildMaterial` (lines 46-55): an entry whose
      location is -1 is skipped; a texture entry whose value is not a
      string throws `bad_any_cast`; a texture entry takes the pointer
      `loadTexture` returns; every other entry is appended with an empty
      value. */
  function UniformsFor(entries: seq<(string, UniformDef)>, progGl: nat, textures: map<string, Handle>,
                       live: set<Handle>, gl: Gl): (r: Appended)
    ensures |r.us| <= |entries|
    ensures forall i :: 0 <= i < |r.us| ==> r.us[i].glId != -1
    ensures r.outcome.Fail? ==> r.outcome.error == BadAnyCast
  {
    if entries == [] then Appended([], Pass)
    else
      var e := entries[0];
      var loc := gl.location(progGl, e.0);
      var rest := UniformsFor(entries[1..], progGl, textures, live, gl);
      if loc == -1 then rest
      else if e.1.kind == Texture && !e.1.value.Text? then Appended([], Fail(BadAnyCast))
      else
        var tex := if e.1.kind == Texture then Cached(textures, live, e.1.value.s) else None;
        Appended([Uniform(loc, e.1.kind, tex)] + rest.us, rest.outcome)
  }

  /** One step of the uniform loop, read off the entries from position i. */
  lemma UniformsForFrom(entries: seq<(string, UniformDef)>, i: nat, progGl: nat, textures: map<string, Handle>,
                        live: set<Handle>, gl: Gl)
    requires i < |entries|
    ensures var e := entries[i]; var loc := gl.location(progGl, e.0);
      var rest := UniformsFor(entries[i + 1..], progGl, textures, live, gl);
      UniformsFor(entries[i..], progGl, textures, live, gl) ==
        if loc == -1 then rest
        else if e.1.kind == Texture && !e.1.value.Text? then Appended([], Fail(BadAnyCast))
        else Appended([Uniform(loc, e.1.kind, if e.1.kind == Texture then Cached(textures, live, e.1.value.s) else None)] + rest.us, rest.outcome)
  {
    assert entries[i..][0] == entries[i] && entries[i..][1..] == entries[i + 1..];
  }

  /** Every texture entry carries a string. */
  predicate Castable(entries: seq<(string, UniformDef)>)
  {
    forall i :: 0 <= i < |entries| && entries[i].1.kind == Texture ==> entries[i].1.value.Text?
  }

  /** The entries whose location is not -1, in definition order. */
  function Located(entries: seq<(string, UniformDef)>, progGl: nat, gl: Gl): (r: seq<(string, UniformDef)>)
    ensures |r| <= |entries|
  {
    if entries == [] then []
    else if gl.location(progGl, entries[0].0) == -1 then Located(entries[1..], progGl, gl)
    else [entries[0]] + Located(entries[1..], progGl, gl)
  }

  /** When every texture entry carries a string the loop does not throw,
      and it appends exactly one uniform per located entry, in definition
      order, with that entry's location and kind, and for a texture the
      live cached texture of its path. */
  lemma {:induction false} UniformsForLocated(entries: seq<(string, UniformDef)>, progGl: nat,
                                              textures: map<string, Handle>, live: set<Handle>, gl: Gl)
    requires Castable(entries)
    ensures var r := UniformsFor(entries, progGl, textures, live, gl);
      var used := Located(entries, progGl, gl);
      r.outcome == Pass && |r.us| == |used| &&
      forall i :: 0 <= i < |used| ==>
        r.us[i].glId == gl.location(progGl, used[i].0) && r.us[i].kind == used[i].1.kind &&
        r.us[i].texture == (if used[i].1.kind == Texture && used[i].1.value.Text? then Cached(textures, live, used[i].1.value.s) else None)
  {
    if entries != [] {
      assert Castable(entries[1..]) by {
        forall i | 0 <= i < |entries[1..]| && entries[1..][i].1.kind == Texture
          ensures entries[1..][i].1.value.Text?
        {
          assert entries[1..][i] == entries[i + 1];
        }
      }
      UniformsForLocated(entries[1..], progGl, textures, live, gl);
    }
  }

  /** `buildMaterial` (lines 43-56): the program is loaded and set, then
      the uniform loop appends to the material's uniforms without clearing
      them. A program that throws leaves the material as it was. */
  function MaterialBuild(s: LoaderState, h: Handle, def: MaterialDef, gl: Gl): (r: Done)
    requires Valid(s) && h in s.materialStore.m
    ensures Valid(r.state)
    ensures r.state.materialStore.m.Keys == s.materialStore.m.Keys
  {
    var p := ProgramLoad(s, def.shaders, gl);
    if p.result.Failure? then Done(Fail(p.result.error), p.state)
    else
      var prog := p.result.value;
      var a := UniformsFor(def.uniforms, p.state.programStore.m[prog].glId, p.state.textures.m, p.state.live, gl);
      var m := p.state.materialStore.m[h];
      Done(a.outcome, p.state.(materialStore := Table(p.state.materialStore.m[h := Material(Some(prog), m.uniforms + a.us)])))
  }

  /** What `buildMaterial` promises. When the program cannot be loaded the
      build fails with its error and the material is untouched. Otherwise
      the material's program is set, its old uniforms stay in front of the
      new ones, and when every texture entry carries a string the build
      passes and adds exactly one uniform per located entry. No other
      material changes. */
  lemma MaterialBuildSpec(s: LoaderState, h: Handle, def: MaterialDef, gl: Gl)
    requires Valid(s) && h in s.materialStore.m
    ensures var p := ProgramLoad(s, def.shaders, gl); var r := MaterialBuild(s, h, def, gl);
      p.result.Failure? ==> r == Done(Fail(p.result.error), p.state) && r.state.materialStore == s.materialStore
    ensures var p := ProgramLoad(s, def.shaders, gl); var r := MaterialBuild(s, h, def, gl);
      p.result.Success? ==>
        var before := s.materialStore.m[h].uniforms;
        var after := r.state.materialStore.m[h].uniforms;
        r.state.materialStore.m[h].program == Some(p.result.value) &&
        |before| <= |after| && after[..|before|] == before &&
        (Castable(def.uniforms) ==>
          r.outcome == Pass &&
          |after| == |before| + |Located(def.uniforms, p.state.programStore.m[p.result.value].glId, gl)|)
    ensures var p := ProgramLoad(s, def.shaders, gl); var r := MaterialBuild(s, h, def, gl);
      r.state.(materialStore := p.state.materialStore) == p.state &&
      forall x :: x in s.materialStore.m && x != h ==> r.state.materialStore.m[x] == s.materialStore.m[x]
  {
    var p := ProgramLoad(s, def.shaders, gl);
    if p.result.Success? {
      var before := s.materialStore.m[h].uniforms;
      var a := UniformsFor(def.uniforms, p.state.programStore.m[p.result.value].glId, p.state.textures.m, p.state.live, gl);
      assert (before + a.us)[..|before|] == before;
      if Castable(def.uniforms) {
        UniformsForLocated(def.uniforms, p.state.programStore.m[p.result.value].glId, p.state.textures.m, p.state.live, gl);
      }
    }
  }

  /** `loadMaterial` (lines 15-27). A live cached material is returned.
      Otherwise, without a definition the result is null; with one a new
      material is built and returned to the caller, and never entered in
      `materials`. If the build throws, the new material and any program
      created for it lose their only owner. */
  function MaterialLoad(s: LoaderState, name: string, gl: Gl): (r: Step<Option<Handle>>)
    requires Valid(s)
    ensures Valid(r.state)
  {
    if Cached(s.materials.m, s.live, name).Some? then Step(Success(Some(s.materials.m[name])), s)
    else if name !in s.materialDefs.m then Step(Success(None), s)
    else
      var h := s.next;
      var s1 := s.(materialStore := Table(s.materialStore.m[h := Material(None, [])]), live := s.live + {h}, next := h + 1);
      var b := MaterialBuild(s1, h, s.materialDefs.m[name], gl);
      if b.outcome.Fail? then Step(Failure(b.outcome.error), b.state.(live := s.live))
      else Step(Success(Some(h)), b.state)
  }

  /** What `loadMaterial` promises. A live cached material is returned and
      nothing changes; a name without a definition gives null and nothing
      changes. A defined name gets a material no one owned before, with its
      program set; a build that throws leaves the same objects owned as
      before. The cache of materials is never written. */
  lemma MaterialLoadSpec(s: LoaderState, name: string, gl: Gl)
    requires Valid(s)
    ensures var r := MaterialLoad(s, name, gl);
      (Cached(s.materials.m, s.live, name).Some? ==> r == Step(Success(Some(s.materials.m[name])), s)) &&
      (Cached(s.materials.m, s.live, name).None? && name !in s.materialDefs.m ==> r == Step(Success(None), s))
    ensures var r := MaterialLoad(s, name, gl);
      Cached(s.materials.m, s.live, name).None? && name in s.materialDefs.m ==>
        (r.result.Success? ==>
          r.result == Success(Some(s.next)) && s.next !in s.live && s.next in r.state.live &&
          s.next in r.state.materialStore.m && r.state.materialStore.m[s.next].program.Some?) &&
        (r.result.Failure? ==> r.state.live == s.live)
    ensures MaterialLoad(s, name, gl).state.materials == s.materials
  {
    if Cached(s.materials.m, s.live, name).None? && name in s.materialDefs.m {
      var h := s.next;
      var s1 := s.(materialStore := Table(s.materialStore.m[h := Material(None, [])]), live := s.live + {h}, next := h + 1);
      MaterialBuildSpec(s1, h, s.materialDefs.m[name], gl);
      ProgramLoadSpec(s1, s.materialDefs.m[name].shaders, gl);
      assert s.next !in s.live;
    }
  }

  /** `loadMaterial` only ever adds owners to objects it creates: the next
      handle does not go down, and every object owned afterwards but not
      before has a handle at or above the old `next`. */
  lemma MaterialLoadOwnsOnlyNew(s: LoaderState, name: string, gl: Gl)
    requires Valid(s)
    ensures var r := MaterialLoad(s, name, gl);
      s.next <= r.state.next && forall x :: x in r.state.live && x !in s.live ==> s.next <= x
  {
    if Cached(s.materials.m, s.live, name).None? && name in s.materialDefs.m {
      var h := s.next;
      var s1 := s.(materialStore := Table(s.materialStore.m[h := Material(None, [])]), live := s.live + {h}, next := h + 1);
      MaterialBuildSpec(s1, h, s.materialDefs.m[name], gl);
      ProgramLoadSpec(s1, s.materialDefs.m[name].shaders, gl);
    }
  }

  /** A defined material that is not live in the cache is built afresh on
      every call: it is still not cached afterwards, and two loads in a row
      return two different materials. */
  lemma MaterialLoadNeverCaches(s: LoaderState, name: string, gl: Gl)
    requires Valid(s)
    requires name in s.materialDefs.m && Cached(s.materials.m, s.live, name).None?
    ensures var r1 := MaterialLoad(s, name, gl);
      Cached(r1.state.materials.m, r1.state.live, name).None? &&
      var r2 := MaterialLoad(r1.state, name, gl);
      r1.result.Success? && r2.result.Success? ==> r1.result.value.value != r2.result.value.value
  {
    var r1 := MaterialLoad(s, name, gl);
    MaterialLoadSpec(s, name, gl);
    MaterialLoadOwnsOnlyNew(s, name, gl);
    assert name in s.materials.m ==> s.materials.m[name] < s.next;
    if r1.result.Success? {
      MaterialLoadSpec(r1.state, name, gl);
    }
  }

  /** `addMaterial` (lines 36-41): `insert` keeps an existing definition;
      then a live cached material is rebuilt from the definition now
      stored. */
  function MaterialAdd(s: LoaderState, name: string, def: MaterialDef, gl: Gl): (r: Done)
    requires Valid(s)
    ensures Valid(r.state)
  {
    var s1 := s.(materialDefs := Table(DefsAfterAdd(s.materialDefs.m, name, def)));
    if Cached(s.materials.m, s.live, name).Some? then
      MaterialBuild(s1, s.materials.m[name], s1.materialDefs.m[name], gl)
    else Done(Pass, s1)
  }

  /** After `addMaterial` the definitions are those `insert` leaves, however
      the rebuild ends. */
  lemma MaterialAddDefs(s: LoaderState, name: string, def: MaterialDef, gl: Gl)
    requires Valid(s)
    ensures MaterialAdd(s, name, def, gl).state.materialDefs.m == DefsAfterAdd(s.materialDefs.m, name, def)
  {
    var s1 := s.(materialDefs := Table(DefsAfterAdd(s.materialDefs.m, name, def)));
    if Cached(s.materials.m, s.live, name).Some? {
      MaterialBuildSpec(s1, s.materials.m[name], s1.materialDefs.m[name], gl);
      ProgramLoadSpec(s1, s1.materialDefs.m[name].shaders, gl);
    }
  }

  /** A second `addMaterial` of a name changes no definition: the first
      definition stays in force, and a live material is rebuilt from it. */
  lemma SecondAddKeepsFirstDefinition(s: LoaderState, name: string, def1: MaterialDef, def2: MaterialDef, gl: Gl)
    requires Valid(s) && name !in s.materialDefs.m
    ensures var r1 := MaterialAdd(s, name, def1, gl);
      var r2 := MaterialAdd(r1.state, name, def2, gl);
      r1.state.materialDefs.m[name] == def1 && r2.state.materialDefs == r1.state.materialDefs &&
      (Cached(r1.state.materials.m, r1.state.live, name).Some? ==>
        r2 == MaterialBuild(r1.state, r1.state.materials.m[name], def1, gl))
  {
    var r1 := MaterialAdd(s, name, def1, gl);
    MaterialAddDefs(s, name, def1, gl);
    MaterialAddDefs(r1.state, name, def2, gl);
    assert r1.state.(materialDefs := Table(DefsAfterAdd(r1.state.materialDefs.m, name, def2))) == r1.state;
  }

  /** The definitions after `material_defs.insert(name, def)`. */
  function DefsAfterAdd(defs: map<string, MaterialDef>, name: string, def: MaterialDef): (r: map<string, MaterialDef>)
    ensures name in r && r[name] == (if name in defs then defs[name] else def)
    ensures forall n :: n != name ==> (n in r <==> n in defs) && (n in defs ==> r[n] == defs[n])
  {
    if name in defs then defs else defs[name := def]
  }

  /** The loader object. Each method that changes it is proved to leave the
      state its specification function computes from the old one. */
  class Loader {
    var materials: map<string, Handle>
    var materialDefs: map<string, MaterialDef>
    var meshes: map<string, Handle>
    var textures: map<string, Handle>
    var shaders: map<string, Handle>
    var programs: map<ShaderKey, Handle>
    var programStore: map<Handle, Program>
    var materialStore: map<Handle, Material>
    var live: set<Handle>
    var next: Handle
    var nextGl: nat

    /** The fields as one value. */
    function State(): LoaderState
      reads this
    {
      LoaderState(Table(materials), Table(materialDefs), Table(meshes), Table(textures), Table(shaders),
                  Table(programs), Table(programStore), Table(materialStore), live, next, nextGl)
    }

    /** Empty caches and no objects. */
    constructor ()
      ensures Valid(State())
      ensures State() == LoaderState(Table(map[]), Table(map[]), Table(map[]), Table(map[]), Table(map[]),
                                     Table(map[]), Table(map[]), Table(map[]), {}, 0, 0)
    {
      materials, materialDefs, meshes, textures, shaders := map[], map[], map[], map[], map[];
      programs, programStore, materialStore, live, next, nextGl := map[], map[], map[], {}, 0, 0;
    }

    /** `loadMesh` (lines 29-34): the live cached mesh, otherwise null. */
    method LoadMesh(model: string) returns (r: Option<Handle>)
      ensures r.Some? <==> model in meshes && meshes[model] in live
      ensures r.Some? ==> r.value == meshes[model]
    {
      if model in meshes && meshes[model] in live {
        return Some(meshes[model]);
      }
      return None;
    }

    /** `loadTexture` (lines 58-63): the live cached texture, otherwise
        null. */
    method LoadTexture(path: string) returns (r: Option<Handle>)
      ensures r.Some? <==> path in textures && textures[path] in live
      ensures r.Some? ==> r.value == textures[path]
    {
      if path in textures && textures[path] in live {
        return Some(textures[path]);
      }
      return None;
    }

    /** `loadShader` (lines 65-78): the live cached shader, otherwise null;
        the shader type only picks a GL constant that is never used. */
    method LoadShader(path: string) returns (r: Option<Handle>)
      ensures r.Some? <==> path in shaders && shaders[path] in live
      ensures r.Some? ==> r.value == shaders[path]
    {
      if path in shaders && shaders[path] in live {
        return Some(shaders[path]);
      }
      return None;
    }

    /** `loadProgram`, as `ProgramLoad` specifies it. */
    method LoadProgram(key: ShaderKey, gl: Gl) returns (r: Result<Handle>)
      requires Valid(State())
      modifies this
      ensures Step(r, State()) == ProgramLoad(old(State()), key, gl)
    {
      if key in programs && programs[key] in live {
        return Success(programs[key]);
      }
      r := CreateProgram(key, gl);
    }

    /** The uncached path of `loadProgram` (lines 84-112). */
    method CreateProgram(key: ShaderKey, gl: Gl) returns (r: Result<Handle>)
      requires Valid(State()) && Cached(programs, live, key).None?
      modifies this
      ensures Step(r, State()) == ProgramLoad(old(State()), key, gl)
    {
      var glId := nextGl;
      nextGl := nextGl + 1;
      var c := CheckShaders(key, gl);
      if c.Failure? {
        return Failure(c.error);
      }
      r := AddProgram(key, Program(glId, c.value));
    }

    /** A linked program enters the store, owned by the caller, and is
        cached under its key unless the key already has an entry. */
    method AddProgram(key: ShaderKey, prog: Program) returns (r: Result<Handle>)
      modifies this
      ensures r == Success(old(next))
      ensures State() == old(State()).(programStore := Table(old(programStore)[old(next) := prog]),
                                       programs := if key in old(programs) then old(State()).programs else Table(old(programs)[key := old(next)]),
                                       live := old(live) + {old(next)}, next := old(next) + 1)
    {
      var h := next;
      programStore := programStore[h := prog];
      if key !in programs {
        programs := programs[key := h];
      }
      live := live + {h};
      next := next + 1;
      r := Success(h);
    }

    /** The shader lookups and checks of lines 86-102, as `LinkCheck`
        specifies them. */
    method CheckShaders(key: ShaderKey, gl: Gl) returns (r: Result<ShaderSet>)
      ensures r == LinkCheck(key, shaders, live, gl)
    {
      if key.frag == "" {
        return Failure(MissingFragmentShader);
      }
      var frag := LoadShader(key.frag);
      if key.vert == "" {
        return Failure(MissingVertexShader);
      }
      var vert := LoadShader(key.vert);
      var geom: Option<Handle> := None;
      if key.geom != "" {
        geom := LoadShader(key.geom);
      }
      if vert.None? || geom.None? || frag.None? {
        return Failure(NullShader);
      }
      if key !in gl.linkable {
        return Failure(LinkFailed);
      }
      r := Success(ShaderSet(frag.value, vert.value, geom.value));
    }

    /** `buildMaterial`, as `MaterialBuild` specifies it. */
    method BuildMaterial(h: Handle, def: MaterialDef, gl: Gl) returns (r: Outcome)
      requires Valid(State()) && h in materialStore
      modifies this
      ensures Done(r, State()) == MaterialBuild(old(State()), h, def, gl)
    {
      var p := LoadProgram(def.shaders, gl);
      if p.Failure? {
        return Fail(p.error);
      }
      var prog := p.value;
      materialStore := materialStore[h := materialStore[h].(program := Some(prog))];
      r := AppendUniforms(h, programStore[prog].glId, def.uniforms, gl);
    }

    /** The uniform loop of `buildMaterial` (lines 46-55): the material's
        uniforms grow by what `UniformsFor` computes, and nothing else
        changes. */
    method AppendUniforms(h: Handle, progGl: nat, entries: seq<(string, UniformDef)>, gl: Gl) returns (r: Outcome)
      requires h in materialStore
      modifies this`materialStore
      ensures var a := UniformsFor(entries, progGl, textures, live, gl);
        r == a.outcome &&
        materialStore == old(materialStore)[h := old(materialStore)[h].(uniforms := old(materialStore)[h].uniforms + a.us)]
    {
      ghost var s0 := State();
      var m := materialStore[h];
      ghost var full := UniformsFor(entries, progGl, textures, live, gl);
      var done: seq<Uniform> := [];
      assert m.uniforms + done == m.uniforms;
      var i := 0;
      while i < |entries|
        invariant 0 <= i <= |entries|
        invariant materialStore == s0.materialStore.m[h := m.(uniforms := m.uniforms + done)]
        invariant var a := UniformsFor(entries[i..], progGl, s0.textures.m, s0.live, gl);
          full.us == done + a.us && full.outcome == a.outcome
      {
        var (name, u) := entries[i];
        UniformsForFrom(entries, i, progGl, s0.textures.m, s0.live, gl);
        ghost var rest := UniformsFor(entries[i + 1..], progGl, s0.textures.m, s0.live, gl);
        var loc := gl.location(progGl, name);
        if loc != -1 {
          var tex: Option<Handle> := None;
          if u.kind == Texture {
            if !u.value.Text? {
              assert done + [] == done;
              return Fail(BadAnyCast);
            }
            tex := LoadTexture(u.value.s);
          }
          assert done + ([Uniform(loc, u.kind, tex)] + rest.us) == (done + [Uniform(loc, u.kind, tex)]) + rest.us;
          done := done + [Uniform(loc, u.kind, tex)];
          materialStore := materialStore[h := m.(uniforms := m.uniforms + done)];
        }
        i := i + 1;
      }
      assert entries[i..] == [];
      assert done + [] == done;
      r := Pass;
    }

    /** `loadMaterial`, as `MaterialLoad` specifies it. */
    method LoadMaterial(name: string, gl: Gl) returns (r: Result<Option<Handle>>)
      requires Valid(State())
      modifies this
      ensures Step(r, State()) == MaterialLoad(old(State()), name, gl)
    {
      if name in materials && materials[name] in live {
        return Success(Some(materials[name]));
      }
      if name !in materialDefs {
        return Success(None);
      }
      var live0 := live;
      var h := NewMaterial();
      var b := BuildMaterial(h, materialDefs[name], gl);
      if b.Fail? {
        live := live0;
        return Failure(b.error);
      }
      r := Success(Some(h));
    }

    /** `new Material` held by a `shared_ptr`: an empty material under a
        new handle, owned by the caller. */
    method NewMaterial() returns (h: Handle)
      modifies this
      ensures h == old(next)
      ensures State() == old(State()).(materialStore := Table(old(materialStore)[h := Material(None, [])]),
                                       live := old(live) + {h}, next := h + 1)
    {
      h := next;
      materialStore := materialStore[h := Material(None, [])];
      live := live + {h};
      next := next + 1;
    }

    /** `addMaterial`, as `MaterialAdd` specifies it. */
    method AddMaterial(name: string, def: MaterialDef, gl: Gl) returns (r: Outcome)
      requires Valid(State())
      modifies this
      ensures Done(r, State()) == MaterialAdd(old(State()), name, def, gl)
    {
      if name !in materialDefs {
        materialDefs := materialDefs[name := def];
      }
      if name in materials && materials[name] in live {
        r := BuildMaterial(materials[name], materialDefs[name], gl);
      } else {
        r := Pass;
      }
    }
  }
}
