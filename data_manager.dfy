/** The data manager of world/DataManager.cpp: the name-keyed tables of
    materials, material definitions, meshes, images and shader sources, and
    the two job queues it feeds (world/DataManager.hpp:53-70).

    Materials, meshes and images are heap objects shared by pointer; each
    kind lives in a store keyed by `Handle`, and the tables map names to
    handles. The pipeline loader it calls, the shader directory and the
    texture directory are parameters. */
module World {
  import opened Wrappers
  import opened DefinitionTypes
  import opened Resources
  import opened JobQueue
  import Builtins
  import PngLayout

  /** The job kinds of lines 29-34, each with its payload. */
  datatype Job = BuildMaterialJob(name: string) | LoadTextureJob(name: string) | FinishMeshLoad(mesh: Handle)

  /** The calls the data manager makes into the pipeline `Loader`
      (pipeline/interface.hpp:44-57), in the order it makes them. */
  datatype LoaderCall =
    | LoadMeshCall(mesh: Handle)
    | LoadProgramCall(vert: string, frag: string, geom: string)
    | ReleaseProgramCall(program: Option<ProgramRef>)
    | LoadTextureCall(image: Handle)

  /** What the pipeline loader answers: the program it links for three
      shader sources, and the location it reports for a uniform name. */
  datatype PipelineLoader = PipelineLoader(
    program: (string, string, string) -> Option<ProgramRef>,
    queryUniform: (Option<ProgramRef>, string) -> int)

  /** `../data/shaders`: file name to contents. */
  type ShaderDir = map<string, string>

  /** `../data/textures`: file name to the header libpng reads, or `None`
      for a file that does not carry the PNG signature. */
  type TextureDir = map<string, Option<PngLayout.PngHeader>>

  /** The shader name built from an empty base name: ".vs", ".fs" or ".gs"
      (lines 175-176). */
  predicate IsEmptyShaderName(name: string)
  {
    |name| == 3 && name[0] == '.' && name[2] == 's' && (name[1] == 'f' || name[1] == 'v' || name[1] == 'g')
  }

  /** The character test of lines 175-176 accepts exactly the three names
      an empty base name produces. */
  lemma EmptyShaderNamesExactly(name: string)
    ensures IsEmptyShaderName(name) <==> name == ".vs" || name == ".fs" || name == ".gs"
  {
    if IsEmptyShaderName(name) {
      assert name == [name[0], name[1], name[2]];
    }
  }

  /** The definition `m_matdefs[name]` yields: the stored one, or the
      empty one `operator[]` inserts. */
  function DefOf(defs: map<string, MaterialDef>, name: string): MaterialDef
  {
    if name in defs then defs[name] else EmptyDef
  }

  /** What `loadShaderString` returns for `name` given the cache and the
      shader directory. */
  function ShaderText(cache: map<string, string>, dir: ShaderDir, name: string): (r: Result<string>)
    ensures r.Failure? <==> !IsEmptyShaderName(name) && name !in cache && name !in dir
    ensures r.Failure? ==> r.error == ShaderFileMissing(name)
  {
    if IsEmptyShaderName(name) then Success("")
    else if name in cache then Success(cache[name])
    else if name in dir then Success(dir[name])
    else Failure(ShaderFileMissing(name))
  }

  /** The shader cache after `loadShaderString(name)`: only a file read
      from the directory is added (line 189). */
  function Remember(cache: map<string, string>, dir: ShaderDir, name: string): (c: map<string, string>)
    ensures forall n :: n in cache ==> n in c && c[n] == cache[n]
    ensures forall n :: n in c && n !in cache ==> n == name && n in dir && c[n] == dir[n]
  {
    if !IsEmptyShaderName(name) && name !in cache && name in dir then cache[name := dir[name]] else cache
  }

  /** The cache is invisible to callers: after any load, every name reads
      as it did before, so loading a shader twice gives the same text. */
  lemma ShaderCacheTransparent(cache: map<string, string>, dir: ShaderDir, name: string, other: string)
    ensures ShaderText(Remember(cache, dir, name), dir, other) == ShaderText(cache, dir, other)
  {
  }

  /** The three file names `buildMaterial` asks for (lines 127-129). */
  function ShaderNames(k: ShaderKey): (string, string, string)
  {
    (k.vert + ".vs", k.frag + ".fs", k.geom + ".gs")
  }

  /** The three names always differ, whatever the definition says, so the
      three loads never see each other's cache entries. */
  lemma ShaderNamesDistinct(k: ShaderKey)
    ensures var (v, f, g) := ShaderNames(k); v != f && f != g && v != g
  {
    var (v, f, g) := ShaderNames(k);
    assert v[|v| - 2] == 'v' && f[|f| - 2] == 'f' && g[|g| - 2] == 'g';
  }

  /** The vertex, fragment and geometry sources `buildMaterial` obtains,
      or the error of the first load that throws. */
  function ShaderSources(cache: map<string, string>, dir: ShaderDir, k: ShaderKey): (r: Result<(string, string, string)>)
    ensures r.Success? <==> (ShaderText(cache, dir, ShaderNames(k).0).Success? &&
      ShaderText(cache, dir, ShaderNames(k).1).Success? && ShaderText(cache, dir, ShaderNames(k).2).Success?)
    ensures r.Success? ==> r.value == (ShaderText(cache, dir, ShaderNames(k).0).value,
      ShaderText(cache, dir, ShaderNames(k).1).value, ShaderText(cache, dir, ShaderNames(k).2).value)
  {
    var (vn, fn, gn) := ShaderNames(k);
    match ShaderText(cache, dir, vn)
    case Failure(e) => Failure(e)
    case Success(v) =>
      match ShaderText(cache, dir, fn)
      case Failure(e) => Failure(e)
      case Success(f) =>
        match ShaderText(cache, dir, gn)
        case Failure(e) => Failure(e)
        case Success(g) => Success((v, f, g))
  }

  /** The cache after the three loads, which stop at the first failure. */
  function RememberSources(cache: map<string, string>, dir: ShaderDir, k: ShaderKey): map<string, string>
  {
    var (vn, fn, gn) := ShaderNames(k);
    if ShaderText(cache, dir, vn).Failure? then cache
    else if ShaderText(cache, dir, fn).Failure? then Remember(cache, dir, vn)
    else Remember(Remember(Remember(cache, dir, vn), dir, fn), dir, gn)
  }

  /** A texture uniform's value as line 149 writes it for a texture that
      is already known: the `UniformDef` itself (`i->second`) rather than
      the cached `Image*`. */
  function TextureUniformAsWritten(images: map<string, Handle>, def: UniformDef, next: Handle): UniformValue
    requires def.value.Text?
  {
    if def.value.s in images then DefinitionRef(def) else ImageRef(next)
  }

  /** A texture uniform's value with line 149 taking the cached image
      (`j->second`), as the allocation branch does. The rest of the model
      uses this one. */
  function TextureUniform(images: map<string, Handle>, def: UniformDef, next: Handle): UniformValue
    requires def.value.Text?
  {
    if def.value.s in images then ImageRef(images[def.value.s]) else ImageRef(next)
  }

  /** With line 149 as written, a material built after another one already
      requested its texture carries a value the pipeline cannot cast to an
      `Image*`; with `j->second` it carries the cached image. */
  lemma CachedTextureUniform(images: map<string, Handle>, def: UniformDef, next: Handle)
    requires def.kind == Texture && def.value.Text? && def.value.s in images
    ensures ImageCast(TextureUniformAsWritten(images, def, next)) == Failure(BadAnyCast)
    ensures ImageCast(TextureUniform(images, def, next)) == Success(images[def.value.s])
  {
  }

  /** A texture entry whose value is not a string makes
      `any_cast<std::string>` throw (line 137). */
  predicate Castable(e: (string, UniformDef))
  {
    e.1.kind == Texture ==> e.1.value.Text?
  }

  /** The index of the first entry whose cast throws, or the length. */
  function FirstUncastable(entries: seq<(string, UniformDef)>): (k: nat)
    ensures k <= |entries|
    ensures forall i :: 0 <= i < k ==> Castable(entries[i])
    ensures k < |entries| ==> !Castable(entries[k])
  {
    if entries == [] then 0
    else if !Castable(entries[0]) then 0
    else
      var k := FirstUncastable(entries[1..]);
      assert forall i :: 1 <= i < k + 1 ==> entries[i] == entries[1..][i - 1];
      1 + k
  }

  /** The state the uniform loop of `buildMaterial` (lines 133-156)
      carries: the uniforms so far, the image table and store, the next
      free handle, and the texture names it queued, in order. */
  datatype Built = Built(
    uniforms: seq<Uniform>,
    images: map<string, Handle>,
    imageStore: map<Handle, Image>,
    next: Handle,
    queued: seq<string>)

  /** Every named image is in the store, and every stored handle is below
      the next free one. */
  predicate Closed(b: Built)
  {
    (forall t :: t in b.images ==> b.images[t] in b.imageStore) &&
    (forall h :: h in b.imageStore ==> h < b.next)
  }

  /** One iteration: a texture entry resolves its image, allocating a
      placeholder and queueing a load for an unseen name; any other entry
      copies its value. Each gets the location the loader reports. */
  function ResolveUniform(b: Built, e: (string, UniformDef), s: Option<ProgramRef>, pl: PipelineLoader): Built
    requires Castable(e)
  {
    var loc := pl.queryUniform(s, e.0);
    if e.1.kind != Texture then
      b.(uniforms := b.uniforms + [Uniform(e.1.kind, Held(e.1.value), loc)])
    else
      var u := Uniform(Texture, TextureUniform(b.images, e.1, b.next), loc);
      if e.1.value.s in b.images then
        b.(uniforms := b.uniforms + [u])
      else
        Built(b.uniforms + [u], b.images[e.1.value.s := b.next], b.imageStore[b.next := PlaceholderImage],
              b.next + 1, b.queued + [e.1.value.s])
  }

  /** The loop run over a sequence of entries. */
  function ResolveAll(b: Built, entries: seq<(string, UniformDef)>, s: Option<ProgramRef>, pl: PipelineLoader): Built
    requires forall i :: 0 <= i < |entries| ==> Castable(entries[i])
    decreases |entries|
  {
    if entries == [] then b
    else ResolveAll(ResolveUniform(b, entries[0], s, pl), entries[1..], s, pl)
  }

  /** The uniform an entry ends up as, once its texture (if any) is named
      in `images`. */
  function UniformFor(e: (string, UniformDef), images: map<string, Handle>, s: Option<ProgramRef>, pl: PipelineLoader): Uniform
    requires Castable(e) && (e.1.kind == Texture ==> e.1.value.s in images)
  {
    Uniform(e.1.kind, if e.1.kind == Texture then ImageRef(images[e.1.value.s]) else Held(e.1.value), pl.queryUniform(s, e.0))
  }

  /** The texture names among the entries. */
  function TextureNames(entries: seq<(string, UniformDef)>): set<string>
    requires forall i :: 0 <= i < |entries| ==> Castable(entries[i])
  {
    set i | 0 <= i < |entries| && entries[i].1.kind == Texture && entries[i].1.value.Text? :: entries[i].1.value.s
  }

  /** With line 149 corrected, every texture uniform the loop produces
      casts to an `Image*`, and that image exists: what `endFrame` and
      `useMaterial` rely on when they bind textures. */
  lemma ResolveAllTexturesCast(b: Built, entries: seq<(string, UniformDef)>, s: Option<ProgramRef>, pl: PipelineLoader)
    requires Closed(b)
    requires forall i :: 0 <= i < |entries| ==> Castable(entries[i])
    ensures var r := ResolveAll(b, entries, s, pl);
      |r.uniforms| == |b.uniforms| + |entries| &&
      forall i :: 0 <= i < |entries| && entries[i].1.kind == Texture ==>
        ImageCast(r.uniforms[|b.uniforms| + i].value).Success? &&
        ImageCast(r.uniforms[|b.uniforms| + i].value).value in r.imageStore
  {
    ResolveAllKeeps(b, entries, s, pl);
    ResolveAllUniforms(b, entries, s, pl);
  }

  /** Dropping the first entry keeps every entry castable. */
  lemma CastableTail(entries: seq<(string, UniformDef)>)
    requires entries != [] && forall i :: 0 <= i < |entries| ==> Castable(entries[i])
    ensures Castable(entries[0]) && forall i :: 0 <= i < |entries[1..]| ==> Castable(entries[1..][i])
  {
  }

  /** The shape of the loop's result: one uniform appended per entry,
      the state stays closed, handles only grow, and every image, name
      and queued job that existed before is kept as it was. */
  lemma {:induction false} ResolveAllKeeps(b: Built, entries: seq<(string, UniformDef)>, s: Option<ProgramRef>, pl: PipelineLoader)
    requires Closed(b)
    requires forall i :: 0 <= i < |entries| ==> Castable(entries[i])
    ensures var r := ResolveAll(b, entries, s, pl);
      Closed(r) && r.next >= b.next &&
      |r.uniforms| == |b.uniforms| + |entries| && r.uniforms[..|b.uniforms|] == b.uniforms &&
      (forall t :: t in b.images ==> t in r.images && r.images[t] == b.images[t]) &&
      (forall h :: h in b.imageStore ==> h in r.imageStore && r.imageStore[h] == b.imageStore[h]) &&
      |r.queued| >= |b.queued| && r.queued[..|b.queued|] == b.queued
    decreases |entries|
  {
    if entries != [] {
      CastableTail(entries);
      var b1 := ResolveUniform(b, entries[0], s, pl);
      ResolveAllKeeps(b1, entries[1..], s, pl);
      var r := ResolveAll(b1, entries[1..], s, pl);
      assert r.uniforms[..|b.uniforms|] == b.uniforms by {
        assert r.uniforms[..|b1.uniforms|] == b1.uniforms;
        assert b1.uniforms[..|b.uniforms|] == b.uniforms;
      }
      assert r.queued[..|b.queued|] == b.queued by {
        assert r.queued[..|b1.queued|] == b1.queued;
        assert b1.queued[..|b.queued|] == b.queued;
      }
    }
  }

  /** Entry i of the definition becomes uniform i of the material: its
      kind, the location the loader reports for its name, and for a
      texture the image the finished table names for that texture. */
  lemma {:induction false} ResolveAllUniforms(b: Built, entries: seq<(string, UniformDef)>, s: Option<ProgramRef>, pl: PipelineLoader)
    requires Closed(b)
    requires forall i :: 0 <= i < |entries| ==> Castable(entries[i])
    ensures var r := ResolveAll(b, entries, s, pl);
      |r.uniforms| == |b.uniforms| + |entries| &&
      (forall i :: 0 <= i < |entries| ==> entries[i].1.kind == Texture ==> entries[i].1.value.s in r.images) &&
      (forall i :: 0 <= i < |entries| ==> r.uniforms[|b.uniforms| + i] == UniformFor(entries[i], r.images, s, pl))
    decreases |entries|
  {
    ResolveAllKeeps(b, entries, s, pl);
    if entries != [] {
      CastableTail(entries);
      var e := entries[0];
      var b1 := ResolveUniform(b, e, s, pl);
      ResolveAllKeeps(b1, entries[1..], s, pl);
      ResolveAllUniforms(b1, entries[1..], s, pl);
      var r := ResolveAll(b1, entries[1..], s, pl);
      forall i | 0 <= i < |entries|
        ensures entries[i].1.kind == Texture ==> entries[i].1.value.s in r.images
        ensures r.uniforms[|b.uniforms| + i] == UniformFor(entries[i], r.images, s, pl)
      {
        if i == 0 {
          assert r.uniforms[..|b1.uniforms|] == b1.uniforms;
          assert r.uniforms[|b.uniforms|] == b1.uniforms[|b.uniforms|];
        } else {
          assert entries[1..][i - 1] == entries[i];
        }
      }
    }
  }

  /** The texture names of a list are those of its first entry and of the
      rest. */
  lemma TextureNamesCons(entries: seq<(string, UniformDef)>)
    requires entries != [] && forall i :: 0 <= i < |entries| ==> Castable(entries[i])
    ensures var e := entries[0];
      TextureNames(entries) == (if e.1.kind == Texture then {e.1.value.s} else {}) + TextureNames(entries[1..])
  {
    var e := entries[0];
    forall t | t in TextureNames(entries)
      ensures t in (if e.1.kind == Texture then {e.1.value.s} else {}) + TextureNames(entries[1..])
    {
      var i :| 0 <= i < |entries| && entries[i].1.kind == Texture && entries[i].1.value.Text? && entries[i].1.value.s == t;
      if i > 0 {
        assert entries[1..][i - 1] == entries[i];
      }
    }
    forall t | t in TextureNames(entries[1..]) ensures t in TextureNames(entries) {
      var i :| 0 <= i < |entries[1..]| && entries[1..][i].1.kind == Texture && entries[1..][i].1.value.Text? && entries[1..][i].1.value.s == t;
      assert entries[i + 1] == entries[1..][i];
    }
  }

  /** The names that gain an image are exactly the entries' texture names
      not seen before. */
  lemma {:induction false} ResolveAllImageNames(b: Built, entries: seq<(string, UniformDef)>, s: Option<ProgramRef>, pl: PipelineLoader)
    requires forall i :: 0 <= i < |entries| ==> Castable(entries[i])
    ensures ResolveAll(b, entries, s, pl).images.Keys == b.images.Keys + TextureNames(entries)
    decreases |entries|
  {
    if entries != [] {
      CastableTail(entries);
      TextureNamesCons(entries);
      var e := entries[0];
      var b1 := ResolveUniform(b, e, s, pl);
      ResolveAllImageNames(b1, entries[1..], s, pl);
      ResolveUniformImages(b, e, s, pl);
    }
  }

  /** Each name that gains an image gets a fresh handle holding a
      placeholder image. */
  lemma {:induction false} ResolveAllNewImages(b: Built, entries: seq<(string, UniformDef)>, s: Option<ProgramRef>, pl: PipelineLoader)
    requires Closed(b)
    requires forall i :: 0 <= i < |entries| ==> Castable(entries[i])
    ensures var r := ResolveAll(b, entries, s, pl);
      forall t :: t in r.images && t !in b.images ==>
        r.images[t] >= b.next && r.images[t] in r.imageStore && r.imageStore[r.images[t]] == PlaceholderImage
    decreases |entries|
  {
    if entries != [] {
      CastableTail(entries);
      var e := entries[0];
      var b1 := ResolveUniform(b, e, s, pl);
      ResolveAllKeeps(b1, entries[1..], s, pl);
      ResolveAllNewImages(b1, entries[1..], s, pl);
      ResolveUniformImages(b, e, s, pl);
    }
  }

  /** One iteration adds an image exactly for a texture name not seen
      before: a placeholder under the next handle. */
  lemma ResolveUniformImages(b: Built, e: (string, UniformDef), s: Option<ProgramRef>, pl: PipelineLoader)
    requires Castable(e)
    ensures var b1 := ResolveUniform(b, e, s, pl);
      if e.1.kind == Texture && e.1.value.s !in b.images then
        b1.images == b.images[e.1.value.s := b.next] && b1.imageStore == b.imageStore[b.next := PlaceholderImage] &&
        b1.next == b.next + 1
      else
        b1.images == b.images && b1.imageStore == b.imageStore && b1.next == b.next
  {
  }

  /** No name occurs twice. */
  predicate Distinct(names: seq<string>)
  {
    forall i, j :: 0 <= i < j < |names| ==> names[i] != names[j]
  }

  /** Putting a name in front of a duplicate-free list of new names that
      excludes it gives the duplicate-free list of names new relative to
      one name fewer. */
  lemma QueuedCons(t0: string, rest: seq<string>, known: set<string>, seen: set<string>)
    requires t0 in known && t0 !in seen
    requires forall t :: t in rest <==> t in known && t !in seen + {t0}
    requires Distinct(rest)
    ensures forall t :: t in [t0] + rest <==> t in known && t !in seen
    ensures Distinct([t0] + rest)
  {
    var q := [t0] + rest;
    forall i, j | 0 <= i < j < |q| ensures q[i] != q[j] {
      if i == 0 {
        assert q[j] == rest[j - 1];
      } else {
        assert q[i] == rest[i - 1] && q[j] == rest[j - 1];
      }
    }
  }

  /** The loop queues a `LOAD_TEXTURE` for exactly the names that gained an
      image, each once. */
  lemma {:induction false} ResolveAllQueued(b: Built, entries: seq<(string, UniformDef)>, s: Option<ProgramRef>, pl: PipelineLoader)
    requires Closed(b)
    requires forall i :: 0 <= i < |entries| ==> Castable(entries[i])
    ensures var r := ResolveAll(b, entries, s, pl);
      |r.queued| >= |b.queued| &&
      (forall t :: t in r.queued[|b.queued|..] <==> t in r.images && t !in b.images) &&
      Distinct(r.queued[|b.queued|..])
    decreases |entries|
  {
    if entries != [] {
      CastableTail(entries);
      var e := entries[0];
      var b1 := ResolveUniform(b, e, s, pl);
      var r := ResolveAll(b1, entries[1..], s, pl);
      assert r == ResolveAll(b, entries, s, pl);
      assert Closed(b1);
      ResolveAllQueued(b1, entries[1..], s, pl);
      var q1 := r.queued[|b1.queued|..];
      if e.1.kind == Texture && e.1.value.s !in b.images {
        var t0 := e.1.value.s;
        assert b1.images.Keys == b.images.Keys + {t0} && b1.queued == b.queued + [t0];
        assert t0 in r.images && r.queued[..|b1.queued|] == b1.queued by {
          ResolveAllKeeps(b1, entries[1..], s, pl);
        }
        assert r.queued[|b.queued|..] == [t0] + q1;
        QueuedCons(t0, q1, r.images.Keys, b.images.Keys);
      } else {
        assert b1.images == b.images && b1.queued == b.queued;
      }
    }
  }

  /** The jobs a LIFO queue holds after the loop queued `names`, newest
      first. */
  function TextureJobs(names: seq<string>): (jobs: seq<Job>)
    ensures |jobs| == |names|
    ensures forall i :: 0 <= i < |names| ==> jobs[i] == LoadTextureJob(names[|names| - 1 - i])
  {
    if names == [] then [] else [LoadTextureJob(names[|names| - 1])] + TextureJobs(names[..|names| - 1])
  }

  /** The attributes both built-in meshes declare (lines 292-310):
      position at byte 0 with 3 floats, texcoord 0 at byte 12 with 2. */
  const BuiltinAttributes: seq<Attribute> :=
    [Attribute(Float, Pos, 0, 3, NoSpecial), Attribute(Float, Te0, 12, 2, NoSpecial)]

  /** `__quad__` as `loadBuiltinData` fills it in; its `index_count` and
      `index_type` are left unset by the source. */
  const QuadMesh: DrawableMesh :=
    DrawableMesh(1, Builtins.QuadData, 120, 20, None, 0, None, BuiltinAttributes, None)

  /** `__missing__` as `loadBuiltinData` fills it in. */
  const MissingMesh: DrawableMesh :=
    DrawableMesh(1, Builtins.MissingData, 480, 20, Some(Builtins.MissingIndices), 36, Some(UShort), BuiltinAttributes, None)

  /** The descriptors agree with the tables in pipeline/Builtins.cpp: the
      byte sizes and strides match the float arrays, the index count is
      the table's, every index names a vertex of the mesh, and both
      attributes lie inside one vertex without overlapping. */
  lemma BuiltinMeshesMatchTables()
    ensures QuadMesh.dataSize == |QuadMesh.data| * Builtins.FloatSize && QuadMesh.dataStride == Builtins.VertexStride
    ensures QuadMesh.dataSize / QuadMesh.dataStride == 6
    ensures MissingMesh.dataSize == |MissingMesh.data| * Builtins.FloatSize && MissingMesh.dataStride == Builtins.VertexStride
    ensures MissingMesh.indexData.Some? && MissingMesh.indexCount == |MissingMesh.indexData.value| == Builtins.MissingIdxCount
    ensures forall i :: 0 <= i < MissingMesh.indexCount ==>
      0 <= MissingMesh.indexData.value[i] < MissingMesh.dataSize / MissingMesh.dataStride
    ensures forall a :: a in BuiltinAttributes ==> a.start + a.size * Builtins.FloatSize <= Builtins.VertexStride
    ensures BuiltinAttributes[0].start + BuiltinAttributes[0].size * Builtins.FloatSize <= BuiltinAttributes[1].start
  {
    Builtins.MissingDataSize();
    Builtins.QuadDataSize();
    Builtins.MissingIndexLayout();
    Builtins.MissingIndicesInRange();
  }

  class DataManager {
    var materials: map<string, Handle>
    var materialStore: map<Handle, Material>
    var matdefs: map<string, MaterialDef>
    var shaderStrings: map<string, string>
    var meshes: map<string, Handle>
    var meshStore: map<Handle, DrawableMesh>
    var images: map<string, Handle>
    var imageStore: map<Handle, Image>
    /** The next handle `new` hands out, shared by all three stores. */
    var nextHandle: Handle
    /** Calls made into the pipeline loader so far. */
    var loaderCalls: seq<LoaderCall>
    /** `m_jobs`, run on the worker thread. */
    const jobs: Queue<Job>
    /** `m_main_thread_jobs`, run by `mainThreadTick`. */
    const mainThreadJobs: Queue<Job>

    /** Every named object exists, and every handle in use is below
        `nextHandle`. */
    ghost predicate StoresClosed()
      reads this
    {
      (forall n :: n in materials ==> materials[n] in materialStore) &&
      (forall n :: n in meshes ==> meshes[n] in meshStore) &&
      (forall n :: n in images ==> images[n] in imageStore) &&
      (forall h :: h in materialStore ==> h < nextHandle) &&
      (forall h :: h in meshStore ==> h < nextHandle) &&
      (forall h :: h in imageStore ==> h < nextHandle)
    }

    ghost predicate Valid()
      reads this, jobs, mainThreadJobs, jobs.Repr, mainThreadJobs.Repr
    {
      jobs.Valid() && mainThreadJobs.Valid() &&
      jobs.Repr !! mainThreadJobs.Repr &&
      this !in jobs.Repr && this !in mainThreadJobs.Repr &&
      StoresClosed()
    }

    /** The constructor: empty tables and queues, then `loadBuiltinData`.
        Both meshes end up on the main-thread queue with `__missing__`
        first, since that queue hands back the last job pushed. */
    constructor ()
      ensures Valid() && fresh(jobs.Repr) && fresh(mainThreadJobs.Repr)
      ensures materials == map[] && materialStore == map[] && matdefs == map[]
      ensures shaderStrings == map[] && images == map[] && imageStore == map[]
      ensures meshes == map["__quad__" := 0, "__missing__" := 1]
      ensures meshStore == map[0 := QuadMesh, 1 := MissingMesh] && nextHandle == 2
      ensures loaderCalls == [LoadMeshCall(0), LoadMeshCall(1)]
      ensures jobs.Contents == [] && mainThreadJobs.Contents == [FinishMeshLoad(1), FinishMeshLoad(0)]
    {
      jobs := new LocklessQueue<Job>();
      mainThreadJobs := new LocklessQueue<Job>();
      materials, materialStore, matdefs, shaderStrings := map[], map[], map[], map[];
      meshes, meshStore, images, imageStore := map[], map[], map[], map[];
      nextHandle := 0;
      loaderCalls := [];
      new;
      var quad, missing := LoadBuiltinData();
    }

    /** One half of `loadBuiltinData` (lines 295-314 and 316-337): a new
        mesh is registered under `name` unless the name is taken (the
        insert keeps an existing entry), handed to the loader, and queued
        as a `FINISH_MESH_LOAD` on the main-thread queue. */
    method RegisterBuiltin(name: string, mesh: DrawableMesh) returns (h: Handle)
      requires Valid()
      modifies this, mainThreadJobs.Repr
      ensures Valid() && fresh(mainThreadJobs.Repr - old(mainThreadJobs.Repr))
      ensures h == old(nextHandle) && h !in old(meshStore) && nextHandle == h + 1
      ensures meshStore == old(meshStore)[h := mesh]
      ensures meshes == if name in old(meshes) then old(meshes) else old(meshes)[name := h]
      ensures loaderCalls == old(loaderCalls) + [LoadMeshCall(h)]
      ensures mainThreadJobs.Contents == [FinishMeshLoad(h)] + old(mainThreadJobs.Contents)
      ensures materials == old(materials) && materialStore == old(materialStore) && matdefs == old(matdefs)
      ensures shaderStrings == old(shaderStrings) && images == old(images) && imageStore == old(imageStore)
      ensures jobs.Contents == old(jobs.Contents)
    {
      h := nextHandle;
      nextHandle := nextHandle + 1;
      meshStore := meshStore[h := mesh];
      if name !in meshes {
        meshes := meshes[name := h];
      }
      loaderCalls := loaderCalls + [LoadMeshCall(h)];
      mainThreadJobs.Push(FinishMeshLoad(h));
    }

    /** `loadBuiltinData` (lines 287-338): `__quad__` then `__missing__`,
        each as `RegisterBuiltin` does it. */
    method LoadBuiltinData() returns (quad: Handle, missing: Handle)
      requires Valid()
      modifies this, mainThreadJobs.Repr
      ensures Valid() && fresh(mainThreadJobs.Repr - old(mainThreadJobs.Repr))
      ensures quad == old(nextHandle) && missing == quad + 1 && nextHandle == missing + 1
      ensures meshStore == old(meshStore)[quad := QuadMesh][missing := MissingMesh]
      ensures meshes == (if "__missing__" in old(meshes) then map[] else map["__missing__" := missing]) +
        (if "__quad__" in old(meshes) then old(meshes) else old(meshes)["__quad__" := quad])
      ensures loaderCalls == old(loaderCalls) + [LoadMeshCall(quad), LoadMeshCall(missing)]
      ensures mainThreadJobs.Contents == [FinishMeshLoad(missing), FinishMeshLoad(quad)] + old(mainThreadJobs.Contents)
      ensures materials == old(materials) && materialStore == old(materialStore) && matdefs == old(matdefs)
      ensures shaderStrings == old(shaderStrings) && images == old(images) && imageStore == old(imageStore)
      ensures jobs.Contents == old(jobs.Contents)
    {
      quad := RegisterBuiltin("__quad__", QuadMesh);
      missing := RegisterBuiltin("__missing__", MissingMesh);
    }

    /** `loadMaterial` (lines 85-99). A known name returns the same
        material with its count raised by one and queues nothing; a new
        name gets an unbuilt material with count 0, registered under the
        name, and exactly one `BUILD_MATERIAL` job for it. */
    method LoadMaterial(name: string) returns (m: Handle)
      requires Valid()
      modifies this, jobs.Repr
      ensures Valid() && fresh(jobs.Repr - old(jobs.Repr))
      ensures old(name in materials) ==>
        m == old(materials[name]) && materials == old(materials) &&
        materialStore == old(materialStore)[m := old(materialStore[m]).(refcnt := old(materialStore[m].refcnt) + 1)] &&
        nextHandle == old(nextHandle) && jobs.Contents == old(jobs.Contents)
      ensures old(name !in materials) ==>
        m == old(nextHandle) && m !in old(materialStore) && nextHandle == m + 1 &&
        materials == old(materials)[name := m] &&
        materialStore == old(materialStore)[m := Material(None, 0, [])] &&
        jobs.Contents == [BuildMaterialJob(name)] + old(jobs.Contents)
      ensures matdefs == old(matdefs) && shaderStrings == old(shaderStrings)
      ensures meshes == old(meshes) && meshStore == old(meshStore)
      ensures images == old(images) && imageStore == old(imageStore)
      ensures loaderCalls == old(loaderCalls) && mainThreadJobs.Contents == old(mainThreadJobs.Contents)
    {
      if name in materials {
        m := materials[name];
        materialStore := materialStore[m := materialStore[m].(refcnt := materialStore[m].refcnt + 1)];
      } else {
        m := nextHandle;
        nextHandle := nextHandle + 1;
        materialStore := materialStore[m := Material(None, 0, [])];
        materials := materials[name := m];
        jobs.Push(BuildMaterialJob(name));
      }
    }

    /** `addMaterial` (lines 101-111). The definition is stored either way.
        A first definition queues nothing, even if a material of that name
        is already waiting; a redefinition queues one `BUILD_MATERIAL` if a
        material of that name exists. */
    method AddMaterial(def: MaterialDef, name: string)
      requires Valid()
      modifies this, jobs.Repr
      ensures Valid() && fresh(jobs.Repr - old(jobs.Repr))
      ensures matdefs == old(matdefs)[name := def]
      ensures jobs.Contents ==
        if old(name in matdefs) && old(name in materials) then [BuildMaterialJob(name)] + old(jobs.Contents)
        else old(jobs.Contents)
      ensures materials == old(materials) && materialStore == old(materialStore) && nextHandle == old(nextHandle)
      ensures shaderStrings == old(shaderStrings) && meshes == old(meshes) && meshStore == old(meshStore)
      ensures images == old(images) && imageStore == old(imageStore)
      ensures loaderCalls == old(loaderCalls) && mainThreadJobs.Contents == old(mainThreadJobs.Contents)
    {
      var inserted := name !in matdefs;
      if inserted {
        matdefs := matdefs[name := def];
      } else {
        matdefs := matdefs[name := def];
        if name in materials {
          jobs.Push(BuildMaterialJob(name));
        }
      }
    }

    /** `loadMesh` (lines 113-121): a known name returns its mesh with the
        count raised by one; an unknown one returns null and changes
        nothing. */
    method LoadMesh(name: string) returns (r: Option<Handle>)
      requires Valid()
      modifies this
      ensures Valid()
      ensures r.Some? <==> old(name in meshes)
      ensures r.Some? ==> r.value == old(meshes[name])
      ensures r.Some? ==> meshStore == old(meshStore)[r.value := old(meshStore[r.value]).(refcnt := old(meshStore[r.value].refcnt) + 1)]
      ensures r.None? ==> meshStore == old(meshStore)
      ensures meshes == old(meshes) && nextHandle == old(nextHandle)
      ensures materials == old(materials) && materialStore == old(materialStore) && matdefs == old(matdefs)
      ensures shaderStrings == old(shaderStrings) && images == old(images) && imageStore == old(imageStore)
      ensures loaderCalls == old(loaderCalls)
    {
      if name in meshes {
        var h := meshes[name];
        meshStore := meshStore[h := meshStore[h].(refcnt := meshStore[h].refcnt + 1)];
        return Some(h);
      }
      return None;
    }

    /** `loadShaderString` (lines 173-191). The result is `ShaderText`;
        only a successful read from the directory adds to the cache, so an
        empty name or a cached one never consults the directory. */
    method LoadShaderString(name: string, dir: ShaderDir) returns (r: Result<string>)
      requires Valid()
      modifies this
      ensures Valid()
      ensures r == ShaderText(old(shaderStrings), dir, name)
      ensures shaderStrings == Remember(old(shaderStrings), dir, name)
      ensures materials == old(materials) && materialStore == old(materialStore) && matdefs == old(matdefs)
      ensures meshes == old(meshes) && meshStore == old(meshStore) && nextHandle == old(nextHandle)
      ensures images == old(images) && imageStore == old(imageStore) && loaderCalls == old(loaderCalls)
    {
      if IsEmptyShaderName(name) {
        return Success("");
      }
      if name in shaderStrings {
        return Success(shaderStrings[name]);
      }
      if name !in dir {
        return Failure(ShaderFileMissing(name));
      }
      var shader := dir[name];
      shaderStrings := shaderStrings[name := shader];
      return Success(shader);
    }

    /** Lines 127-129: the three `loadShaderString` calls. The sources are
        `ShaderSources` of the cache before the first call, and the cache
        remembers what was read from the directory. */
    method LoadShaderSources(k: ShaderKey, dir: ShaderDir) returns (r: Result<(string, string, string)>)
      requires Valid()
      modifies this
      ensures Valid()
      ensures r == ShaderSources(old(shaderStrings), dir, k)
      ensures shaderStrings == RememberSources(old(shaderStrings), dir, k)
      ensures materials == old(materials) && materialStore == old(materialStore) && matdefs == old(matdefs)
      ensures meshes == old(meshes) && meshStore == old(meshStore) && nextHandle == old(nextHandle)
      ensures images == old(images) && imageStore == old(imageStore) && loaderCalls == old(loaderCalls)
    {
      var (vn, fn, gn) := ShaderNames(k);
      ShaderNamesDistinct(k);
      ghost var c0 := shaderStrings;
      var vert := LoadShaderString(vn, dir);
      if vert.Failure? {
        return Failure(vert.error);
      }
      ghost var c1 := shaderStrings;
      var frag := LoadShaderString(fn, dir);
      ShaderCacheTransparent(c0, dir, vn, fn);
      if frag.Failure? {
        return Failure(frag.error);
      }
      ghost var c2 := shaderStrings;
      var geom := LoadShaderString(gn, dir);
      ShaderCacheTransparent(c0, dir, vn, gn);
      ShaderCacheTransparent(c1, dir, fn, gn);
      if geom.Failure? {
        return Failure(geom.error);
      }
      return Success((vert.value, frag.value, geom.value));
    }

    /** Lines 158-170: the material registered under `name` gets the new
        program and uniforms after its old program is released; a name
        with no material gets a new one with count 0. */
    method StoreMaterial(name: string, prog: Option<ProgramRef>, uniforms: seq<Uniform>) returns (h: Handle)
      requires Valid()
      modifies this
      ensures Valid()
      ensures old(name in materials) ==>
        h == old(materials[name]) && materials == old(materials) && nextHandle == old(nextHandle) &&
        materialStore == old(materialStore)[h := old(materialStore[h]).(shaders := prog, uniforms := uniforms)] &&
        loaderCalls == old(loaderCalls) + [ReleaseProgramCall(old(materialStore[h].shaders))]
      ensures old(name !in materials) ==>
        h == old(nextHandle) && h !in old(materialStore) && nextHandle == h + 1 &&
        materials == old(materials)[name := h] &&
        materialStore == old(materialStore)[h := Material(prog, 0, uniforms)] &&
        loaderCalls == old(loaderCalls)
      ensures matdefs == old(matdefs) && shaderStrings == old(shaderStrings)
      ensures meshes == old(meshes) && meshStore == old(meshStore)
      ensures images == old(images) && imageStore == old(imageStore)
    {
      if name in materials {
        h := materials[name];
        loaderCalls := loaderCalls + [ReleaseProgramCall(materialStore[h].shaders)];
        materialStore := materialStore[h := materialStore[h].(shaders := prog, uniforms := uniforms)];
      } else {
        h := nextHandle;
        nextHandle := nextHandle + 1;
        materialStore := materialStore[h := Material(prog, 0, uniforms)];
        materials := materials[name := h];
      }
    }

    /** `buildMaterial` (lines 123-171). Looking the definition up inserts
        an empty one for an unknown name. A shader file that cannot be
        found aborts before the loader is called. Otherwise the program is
        linked, the uniform loop runs as `ResolveUniforms` describes, and
        if no cast throws the material named `name` is updated in place
        (or created) with the program and the uniforms. */
    method BuildMaterial(name: string, dir: ShaderDir, pl: PipelineLoader) returns (r: Result<()>)
      requires Valid()
      modifies this, jobs.Repr
      ensures Valid() && fresh(jobs.Repr - old(jobs.Repr))
      ensures matdefs == if name in old(matdefs) then old(matdefs) else old(matdefs)[name := EmptyDef]
      ensures shaderStrings == RememberSources(old(shaderStrings), dir, DefOf(old(matdefs), name).shaders)
      ensures var src := ShaderSources(old(shaderStrings), dir, DefOf(old(matdefs), name).shaders);
        src.Failure? ==>
          r == Failure(src.error) && loaderCalls == old(loaderCalls) &&
          materials == old(materials) && materialStore == old(materialStore) && nextHandle == old(nextHandle) &&
          images == old(images) && imageStore == old(imageStore) && jobs.Contents == old(jobs.Contents)
      ensures var def := DefOf(old(matdefs), name);
        var src := ShaderSources(old(shaderStrings), dir, def.shaders);
        src.Success? ==>
          var (vert, frag, geom) := src.value;
          var prog := pl.program(vert, frag, geom);
          var k := FirstUncastable(def.uniforms);
          var b := ResolveAll(Built([], old(images), old(imageStore), old(nextHandle), []), def.uniforms[..k], prog, pl);
          images == b.images && imageStore == b.imageStore &&
          jobs.Contents == TextureJobs(b.queued) + old(jobs.Contents) &&
          (r.Success? <==> k == |def.uniforms|) &&
          (r.Failure? ==>
            r.error == BadAnyCast && nextHandle == b.next &&
            materials == old(materials) && materialStore == old(materialStore) &&
            loaderCalls == old(loaderCalls) + [LoadProgramCall(vert, frag, geom)]) &&
          (r.Success? && name in old(materials) ==>
            var h := old(materials[name]);
            materials == old(materials) && nextHandle == b.next &&
            materialStore == old(materialStore)[h := old(materialStore[h]).(shaders := prog, uniforms := b.uniforms)] &&
            loaderCalls == old(loaderCalls) + [LoadProgramCall(vert, frag, geom), ReleaseProgramCall(old(materialStore[h].shaders))]) &&
          (r.Success? && name !in old(materials) ==>
            materials == old(materials)[name := b.next] && nextHandle == b.next + 1 &&
            materialStore == old(materialStore)[b.next := Material(prog, 0, b.uniforms)] &&
            loaderCalls == old(loaderCalls) + [LoadProgramCall(vert, frag, geom)])
      ensures meshes == old(meshes) && meshStore == old(meshStore)
      ensures mainThreadJobs.Contents == old(mainThreadJobs.Contents)
    {
      var def := DefOf(matdefs, name);
      if name !in matdefs {
        matdefs := matdefs[name := EmptyDef];
      }
      var src := LoadShaderSources(def.shaders, dir);
      if src.Failure? {
        return Failure(src.error);
      }
      var (vert, frag, geom) := src.value;
      r := LinkMaterial(name, def, vert, frag, geom, pl);
    }

    /** The rest of `buildMaterial` once the shader sources are read: the
        program is linked, the uniform loop runs, and if no cast throws the
        material named `name` is updated in place (or created). */
    method LinkMaterial(name: string, def: MaterialDef, vert: string, frag: string, geom: string, pl: PipelineLoader)
      returns (r: Result<()>)
      requires Valid()
      modifies this, jobs.Repr
      ensures Valid() && fresh(jobs.Repr - old(jobs.Repr))
      ensures matdefs == old(matdefs) && shaderStrings == old(shaderStrings)
      ensures var prog := pl.program(vert, frag, geom);
        var k := FirstUncastable(def.uniforms);
        var b := ResolveAll(Built([], old(images), old(imageStore), old(nextHandle), []), def.uniforms[..k], prog, pl);
        images == b.images && imageStore == b.imageStore &&
        jobs.Contents == TextureJobs(b.queued) + old(jobs.Contents) &&
        (r.Success? <==> k == |def.uniforms|) &&
        (r.Failure? ==>
          r.error == BadAnyCast && nextHandle == b.next &&
          materials == old(materials) && materialStore == old(materialStore) &&
          loaderCalls == old(loaderCalls) + [LoadProgramCall(vert, frag, geom)]) &&
        (r.Success? && name in old(materials) ==>
          var h := old(materials[name]);
          materials == old(materials) && nextHandle == b.next &&
          materialStore == old(materialStore)[h := old(materialStore[h]).(shaders := prog, uniforms := b.uniforms)] &&
          loaderCalls == old(loaderCalls) + [LoadProgramCall(vert, frag, geom), ReleaseProgramCall(old(materialStore[h].shaders))]) &&
        (r.Success? && name !in old(materials) ==>
          materials == old(materials)[name := b.next] && nextHandle == b.next + 1 &&
          materialStore == old(materialStore)[b.next := Material(prog, 0, b.uniforms)] &&
          loaderCalls == old(loaderCalls) + [LoadProgramCall(vert, frag, geom)])
      ensures meshes == old(meshes) && meshStore == old(meshStore)
      ensures mainThreadJobs.Contents == old(mainThreadJobs.Contents)
    {
      var prog := pl.program(vert, frag, geom);
      loaderCalls := loaderCalls + [LoadProgramCall(vert, frag, geom)];
      var uniforms := ResolveUniforms(def.uniforms, prog, pl);
      if uniforms.Failure? {
        return Failure(uniforms.error);
      }
      var h := StoreMaterial(name, prog, uniforms.value);
      return Success(());
    }

    /** `loadTexture` (lines 200-285). The checks come in the source's
        order: the file exists, it is a PNG, an image was created for the
        name. The image's size is recorded before the bit depth is checked.
        On success the buffer holds `height` rows of `width * channels`
        bytes, mipmaps are requested, the format follows the channel count
        (unchanged for a count outside 1..4), and the image goes to the
        loader. The layout is the corrected `PngLayout.DecodedLayout`, and
        the buffer size and row offsets are exact, as `size_t` arithmetic
        gives them; line 266 as written wraps them modulo 2^32
        (`PngLayout.BufferSizeAsWritten`). */
    method LoadTexture(name: string, dir: TextureDir) returns (r: Result<()>)
      requires Valid()
      modifies this
      ensures Valid()
      ensures name + ".png" !in dir ==>
        r == Failure(TextureFileMissing(name)) && imageStore == old(imageStore) && loaderCalls == old(loaderCalls)
      ensures name + ".png" in dir && dir[name + ".png"].None? ==>
        r == Failure(NotPng(name)) && imageStore == old(imageStore) && loaderCalls == old(loaderCalls)
      ensures name + ".png" in dir && dir[name + ".png"].Some? && old(name !in images) ==>
        r == Failure(ImageNotCreated(name)) && imageStore == old(imageStore) && loaderCalls == old(loaderCalls)
      ensures name + ".png" in dir && dir[name + ".png"].Some? && old(name in images) ==>
        var hdr := dir[name + ".png"].value;
        var img := old(images[name]);
        var sized := old(imageStore[img]).(width := hdr.width, height := hdr.height);
        match PngLayout.DecodedLayout(hdr)
        case Failure(e) =>
          r == Failure(e) && imageStore == old(imageStore)[img := sized] && loaderCalls == old(loaderCalls)
        case Success(l) =>
          r == Success(()) && loaderCalls == old(loaderCalls) + [LoadTextureCall(img)] &&
          imageStore == old(imageStore)[img := sized.(
            dataSize := Some(hdr.height * PngLayout.Stride(hdr, l)),
            buildMips := true,
            format := if PngLayout.FormatOf(l.channels).Some? then PngLayout.FormatOf(l.channels) else sized.format)]
      ensures images == old(images) && nextHandle == old(nextHandle)
      ensures materials == old(materials) && materialStore == old(materialStore) && matdefs == old(matdefs)
      ensures shaderStrings == old(shaderStrings) && meshes == old(meshes) && meshStore == old(meshStore)
    {
      var file := name + ".png";
      if file !in dir {
        return Failure(TextureFileMissing(name));
      }
      if dir[file].None? {
        return Failure(NotPng(name));
      }
      var hdr := dir[file].value;
      if name !in images {
        return Failure(ImageNotCreated(name));
      }
      var img := images[name];
      imageStore := imageStore[img := imageStore[img].(width := hdr.width, height := hdr.height)];
      var layout := PngLayout.DecodedLayout(hdr);
      if layout.Failure? {
        return Failure(layout.error);
      }
      var channels := layout.value.channels;
      var stride := hdr.width * channels;
      var rows := PngLayout.RowPointers(hdr.height, stride);
      var format := PngLayout.FormatOf(channels);
      var image := imageStore[img].(dataSize := Some(hdr.width * hdr.height * channels), buildMips := true);
      if format.Some? {
        image := image.(format := format);
      }
      assert hdr.width * hdr.height * channels == hdr.height * PngLayout.Stride(hdr, layout.value);
      imageStore := imageStore[img := image];
      loaderCalls := loaderCalls + [LoadTextureCall(img)];
      return Success(());
    }

    /** Lines 140-145: a new, unloaded image registered under `name`. */
    method AddPlaceholderImage(name: string) returns (img: Handle)
      requires Valid() && name !in images
      modifies this
      ensures Valid()
      ensures img == old(nextHandle) && img !in old(imageStore) && nextHandle == img + 1
      ensures images == old(images)[name := img] && imageStore == old(imageStore)[img := PlaceholderImage]
      ensures materials == old(materials) && materialStore == old(materialStore) && matdefs == old(matdefs)
      ensures shaderStrings == old(shaderStrings) && meshes == old(meshes) && meshStore == old(meshStore)
      ensures loaderCalls == old(loaderCalls)
    {
      img := nextHandle;
      nextHandle := nextHandle + 1;
      imageStore := imageStore[img := PlaceholderImage];
      images := images[name := img];
    }

    /** One iteration of the uniform loop of `buildMaterial` (lines
        134-155) on an entry whose cast succeeds: it does what
        `ResolveUniform` describes to the image table, the image store, the
        next handle and the job queue, and returns the uniform. */
    method ResolveEntry(e: (string, UniformDef), s: Option<ProgramRef>, pl: PipelineLoader,
                        ghost before: Built, ghost base: seq<Job>) returns (u: Uniform)
      requires Valid() && Castable(e)
      requires before.images == images && before.imageStore == imageStore && before.next == nextHandle
      requires jobs.Contents == TextureJobs(before.queued) + base
      modifies this, jobs.Repr
      ensures Valid() && fresh(jobs.Repr - old(jobs.Repr))
      ensures var a := ResolveUniform(before, e, s, pl);
        a.uniforms == before.uniforms + [u] && images == a.images && imageStore == a.imageStore &&
        nextHandle == a.next && jobs.Contents == TextureJobs(a.queued) + base
      ensures materials == old(materials) && materialStore == old(materialStore) && matdefs == old(matdefs)
      ensures shaderStrings == old(shaderStrings) && meshes == old(meshes) && meshStore == old(meshStore)
      ensures loaderCalls == old(loaderCalls) && mainThreadJobs.Contents == old(mainThreadJobs.Contents)
    {
      var (uname, def) := e;
      var value: UniformValue;
      if def.kind == Texture {
        var texName := def.value.s;
        value := TextureUniform(images, def, nextHandle);
        if texName !in images {
          var img := AddPlaceholderImage(texName);
          jobs.Push(LoadTextureJob(texName));
          assert (before.queued + [texName])[..|before.queued|] == before.queued;
        }
      } else {
        value := Held(def.value);
      }
      u := Uniform(def.kind, value, pl.queryUniform(s, uname));
    }

    /** The uniform loop of `buildMaterial` (lines 132-156): its result and
        the image table, image store and job queue afterwards are those of
        `ResolveAll`; it stops at the first texture entry whose value is
        not a string, with the state the entries before it produced. */
    method ResolveUniforms(entries: seq<(string, UniformDef)>, s: Option<ProgramRef>, pl: PipelineLoader)
      returns (r: Result<seq<Uniform>>)
      requires Valid()
      modifies this, jobs.Repr
      ensures Valid() && fresh(jobs.Repr - old(jobs.Repr))
      ensures var k := FirstUncastable(entries);
        var b := ResolveAll(Built([], old(images), old(imageStore), old(nextHandle), []), entries[..k], s, pl);
        images == b.images && imageStore == b.imageStore && nextHandle == b.next &&
        jobs.Contents == TextureJobs(b.queued) + old(jobs.Contents) &&
        (r.Success? <==> k == |entries|) &&
        (r.Success? ==> r.value == b.uniforms) &&
        (r.Failure? ==> r.error == BadAnyCast)
      ensures materials == old(materials) && materialStore == old(materialStore) && matdefs == old(matdefs)
      ensures shaderStrings == old(shaderStrings) && meshes == old(meshes) && meshStore == old(meshStore)
      ensures loaderCalls == old(loaderCalls) && mainThreadJobs.Contents == old(mainThreadJobs.Contents)
    {
      var k := FirstUncastable(entries);
      ghost var b0 := Built([], images, imageStore, nextHandle, []);
      ghost var base := jobs.Contents;
      var uniforms: seq<Uniform> := [];
      ghost var queued: seq<string> := [];
      var i := 0;
      while i < |entries|
        invariant 0 <= i <= k
        invariant Valid() && fresh(jobs.Repr - old(jobs.Repr))
        invariant ResolveAll(b0, entries[..i], s, pl) == Built(uniforms, images, imageStore, nextHandle, queued)
        invariant jobs.Contents == TextureJobs(queued) + base
        invariant materials == old(materials) && materialStore == old(materialStore) && matdefs == old(matdefs)
        invariant shaderStrings == old(shaderStrings) && meshes == old(meshes) && meshStore == old(meshStore)
        invariant loaderCalls == old(loaderCalls) && mainThreadJobs.Contents == old(mainThreadJobs.Contents)
      {
        if !Castable(entries[i]) {
          return Failure(BadAnyCast);
        }
        ghost var before := Built(uniforms, images, imageStore, nextHandle, queued);
        var u := ResolveEntry(entries[i], s, pl, before, base);
        uniforms := uniforms + [u];
        queued := ResolveUniform(before, entries[i], s, pl).queued;
        ResolveAllSnoc(b0, entries, i, s, pl);
        i := i + 1;
      }
      return Success(uniforms);
    }
  }

  /** Extending the processed prefix by one entry is one more
      `ResolveUniform` step. */
  lemma {:induction false} ResolveAllSnoc(b: Built, entries: seq<(string, UniformDef)>, i: nat, s: Option<ProgramRef>, pl: PipelineLoader)
    requires i < |entries| && forall j :: 0 <= j <= i ==> Castable(entries[j])
    ensures ResolveAll(b, entries[..i + 1], s, pl) == ResolveUniform(ResolveAll(b, entries[..i], s, pl), entries[i], s, pl)
    decreases i
  {
    if i > 0 {
      var b1 := ResolveUniform(b, entries[0], s, pl);
      assert entries[..i + 1][1..] == entries[1..][..i];
      assert entries[..i][1..] == entries[1..][..i - 1];
      ResolveAllSnoc(b1, entries[1..], i - 1, s, pl);
    }
  }
}
