/** The frame and render-target bookkeeping of the OpenGL pipeline
    (pipeline/ogl/Pipeline.cpp): the FSAA levels found at start-up, the
    per-frame list of draw tasks and the draws `endFrame` issues for it,
    and the textures and framebuffers behind each render target.

    GL is an oracle here: `glGen*` hands out names from counters, a
    multisample texture allocation is recorded with its sample count,
    format and size, and the draws and texture bindings `endFrame` issues
    are returned as values. The meshes, materials and images a task points
    to belong to the data manager and are passed in as stores. */
module OglPipeline {
  import opened Wrappers
  import opened DefinitionTypes
  import opened Resources

  /** The constructor's FSAA set-up (lines 28-36): the smaller of the two
      sample limits is the current level, and the do-while loop inserts it
      and then it less 2, less 4, ... while that is still above 1. Both
      fields are unsigned 32-bit, so a limit below 0 is stored wrapped. */
  method FsaaLevels(dsamples: int, csamples: int) returns (cur: nat, levels: set<nat>)
    requires -0x8000_0000 <= dsamples < 0x8000_0000 && -0x8000_0000 <= csamples < 0x8000_0000
    ensures var m := if dsamples < csamples then dsamples else csamples;
      cur == m % U32 && cur in levels &&
      forall x :: x in levels <==> x == m % U32 || (1 < x < m && (m - x) % 2 == 0)
  {
    var fsaa := if dsamples < csamples then dsamples else csamples;
    ghost var m := fsaa;
    cur := fsaa % U32;
    levels := {fsaa % U32};
    fsaa := fsaa - 2;
    while fsaa > 1
      invariant fsaa <= m - 2 && (m - fsaa) % 2 == 0
      invariant forall x :: x in levels <==> x == m % U32 || (fsaa < x < m && 1 < x && (m - x) % 2 == 0)
      decreases fsaa
    {
      levels := levels + {fsaa % U32};
      fsaa := fsaa - 2;
    }
  }

  /** A multisample texture allocation: samples, internal format and size. */
  datatype TexImage = TexImage(samples: nat, format: TexFormat, width: nat, height: nat)

  /** `RenderTarget` of implementation.hpp, with the `matprop_id` the
      source file also writes. */
  datatype RenderTarget = RenderTarget(
    lbufferId: nat, gbufferId: nat,
    depthId: nat, colorId: nat, normalId: nat, matpropId: nat, lightingId: nat,
    buildMips: bool, dirty: bool, width: nat, height: nat)

  /** The five textures `createRenderTarget` generates for a target. */
  function TargetTextures(rt: RenderTarget): set<nat>
  {
    {rt.depthId, rt.colorId, rt.normalId, rt.matpropId, rt.lightingId}
  }

  /** The four textures `destroyRenderTarget` deletes as written (lines
      174-182): `matprop_id` is missing. */
  function DeletedTextures(rt: RenderTarget): set<nat>
  {
    {rt.depthId, rt.colorId, rt.normalId, rt.lightingId}
  }

  /** The allocations `createRenderTarget` makes for a target (lines
      144-159): the lighting buffer in RGBA16F, depth-stencil, colour and
      normals in RGBA8 and material properties in RG16F, all with the
      current sample count and the target's size. */
  function TargetImages(rt: RenderTarget, samples: nat): map<nat, TexImage>
  {
    map[rt.lightingId := TexImage(samples, Rgba16f, rt.width, rt.height),
        rt.depthId := TexImage(samples, Depth24Stencil8, rt.width, rt.height),
        rt.colorId := TexImage(samples, Rgba8, rt.width, rt.height),
        rt.normalId := TexImage(samples, Rgba8, rt.width, rt.height),
        rt.matpropId := TexImage(samples, Rg16f, rt.width, rt.height)]
  }

  /** The five texture names of a target are pairwise distinct. */
  predicate DistinctTextures(rt: RenderTarget)
  {
    rt.depthId != rt.colorId && rt.depthId != rt.normalId && rt.depthId != rt.matpropId && rt.depthId != rt.lightingId &&
    rt.colorId != rt.normalId && rt.colorId != rt.matpropId && rt.colorId != rt.lightingId &&
    rt.normalId != rt.matpropId && rt.normalId != rt.lightingId && rt.matpropId != rt.lightingId
  }

  /** Creating a target on fresh texture names and destroying it as
      written does not give back the texture table: the material-property
      texture stays allocated. */
  lemma DestroyAsWrittenLeaksMatprop(texs: map<nat, TexImage>, rt: RenderTarget, samples: nat)
    requires DistinctTextures(rt) && TargetTextures(rt) !! texs.Keys
    ensures var after := (texs + TargetImages(rt, samples)) - DeletedTextures(rt);
      after == texs[rt.matpropId := TexImage(samples, Rg16f, rt.width, rt.height)] &&
      rt.matpropId in after && after != texs
  {
    var after := (texs + TargetImages(rt, samples)) - DeletedTextures(rt);
    assert after == texs[rt.matpropId := TexImage(samples, Rg16f, rt.width, rt.height)];
    assert rt.matpropId !in texs;
  }

  /** Deleting all five textures of a target created on fresh names gives
      back exactly the texture table from before its creation. */
  lemma ReleasingAllTexturesRestores(texs: map<nat, TexImage>, rt: RenderTarget, samples: nat)
    requires TargetTextures(rt) !! texs.Keys
    ensures (texs + TargetImages(rt, samples)) - TargetTextures(rt) == texs
  {
    assert TargetImages(rt, samples).Keys == TargetTextures(rt);
  }

  /** A draw task: the mesh and material `addDrawTask` was given. */
  datatype DrawTask = DrawTask(mesh: Handle, mat: Handle)

  /** A texture bound for a draw: texture unit, texture id and the uniform
      location it is assigned to. */
  datatype Binding = Binding(unit: nat, texture: nat, location: int)

  /** `glDrawArrays` with a vertex count or `glDrawElements` with an index
      count and type. */
  datatype DrawKind = Arrays(vertices: nat) | Elements(indices: nat, indexType: nat)

  /** A draw `endFrame` issues: vertex array, program, texture bindings and
      the draw call. */
  datatype DrawCall = DrawCall(vao: nat, program: nat, bindings: seq<Binding>, kind: DrawKind)

  datatype Bound = Bound(bindings: seq<Binding>, outcome: Outcome)

  datatype Frame = Frame(draws: seq<DrawCall>, outcome: Outcome)

  /** Every image a texture uniform points to exists. */
  ghost predicate ImagesResolve(us: seq<Uniform>, images: map<Handle, Image>)
  {
    forall u :: u in us && u.kind == Texture && u.value.ImageRef? ==> u.value.image in images
  }

  /** The texture loop of `endFrame` (lines 84-97) from texture unit `unit`
      on: uniforms other than textures are skipped; a texture uniform whose
      value is not an `Image*` throws `bad_any_cast`; an image without a
      texture is skipped; any other texture is bound to the next unit. */
  function TextureBindings(us: seq<Uniform>, images: map<Handle, Image>, unit: nat): (r: Bound)
    requires ImagesResolve(us, images)
    ensures |r.bindings| <= |us|
    ensures r.outcome.Fail? ==> r.outcome.error == BadAnyCast
  {
    if us == [] then Bound([], Pass)
    else
      var u := us[0];
      if u.kind != Texture then TextureBindings(us[1..], images, unit)
      else if !u.value.ImageRef? then Bound([], Fail(BadAnyCast))
      else if images[u.value.image].tex.None? then TextureBindings(us[1..], images, unit)
      else
        var rest := TextureBindings(us[1..], images, unit + 1);
        Bound([Binding(unit, images[u.value.image].tex.value, u.pipeId)] + rest.bindings, rest.outcome)
  }

  /** The texture uniforms whose image has been uploaded, in order. */
  function Uploaded(us: seq<Uniform>, images: map<Handle, Image>): (r: seq<Uniform>)
    requires ImagesResolve(us, images)
    ensures |r| <= |us|
    ensures forall u :: u in r ==> u in us && u.kind == Texture && u.value.ImageRef? && images[u.value.image].tex.Some?
  {
    if us == [] then []
    else if us[0].kind == Texture && us[0].value.ImageRef? && images[us[0].value.image].tex.Some? then
      [us[0]] + Uploaded(us[1..], images)
    else Uploaded(us[1..], images)
  }

  /** Every texture uniform holds an `Image*`. */
  predicate TexturesAreImages(us: seq<Uniform>)
  {
    forall i :: 0 <= i < |us| && us[i].kind == Texture ==> us[i].value.ImageRef?
  }

  /** When every texture uniform holds an image, the loop does not throw
      and binds exactly the uploaded textures, in order, to consecutive
      units from `unit` on, each to its own uniform's location. */
  lemma {:induction false} BindingsAreUploadedTextures(us: seq<Uniform>, images: map<Handle, Image>, unit: nat)
    requires ImagesResolve(us, images) && TexturesAreImages(us)
    ensures var r := TextureBindings(us, images, unit); var up := Uploaded(us, images);
      r.outcome == Pass && |r.bindings| == |up| &&
      forall i :: 0 <= i < |up| ==>
        r.bindings[i] == Binding(unit + i, images[up[i].value.image].tex.value, up[i].pipeId)
  {
    if us != [] {
      assert TexturesAreImages(us[1..]) by {
        forall i | 0 <= i < |us[1..]|
          ensures us[1..][i] == us[i + 1]
        {
        }
      }
      var u := us[0];
      if u.kind == Texture && images[u.value.image].tex.Some? {
        BindingsAreUploadedTextures(us[1..], images, unit + 1);
      } else {
        BindingsAreUploadedTextures(us[1..], images, unit);
      }
    }
  }

  /** One step of the texture loop, read off the uniforms from position i. */
  lemma TextureBindingsFrom(us: seq<Uniform>, i: nat, images: map<Handle, Image>, unit: nat)
    requires i < |us| && ImagesResolve(us, images)
    ensures ImagesResolve(us[i..], images) && ImagesResolve(us[i + 1..], images)
    ensures var u := us[i]; var rest := TextureBindings(us[i + 1..], images, unit);
      TextureBindings(us[i..], images, unit) ==
        if u.kind != Texture then rest
        else if !u.value.ImageRef? then Bound([], Fail(BadAnyCast))
        else if images[u.value.image].tex.None? then rest
        else
          var rest1 := TextureBindings(us[i + 1..], images, unit + 1);
          Bound([Binding(unit, images[u.value.image].tex.value, u.pipeId)] + rest1.bindings, rest1.outcome)
  {
    assert us[i..][0] == us[i] && us[i..][1..] == us[i + 1..];
  }

  /** The mesh has a buffer with a vertex array (line 76). */
  predicate HasVao(m: DrawableMesh)
  {
    m.buffer.Some? && m.buffer.value.vao != 0
  }

  /** Whether `endFrame` draws a task: the mesh has a vertex array and the
      material has a program with a GL id (lines 76-79). */
  predicate Drawn(m: DrawableMesh, mat: Material)
  {
    HasVao(m) && mat.shaders.Some? && mat.shaders.value.glId != 0
  }

  /** What `endFrame` dereferences exists: each task's mesh; the material
      of a task whose mesh has a vertex array; and, for a task it draws,
      the images of the material's texture uniforms and a non-zero stride
      when the mesh has no indices. */
  ghost predicate Resolves(tasks: seq<DrawTask>, meshes: map<Handle, DrawableMesh>,
                           materials: map<Handle, Material>, images: map<Handle, Image>)
  {
    forall t :: t in tasks ==>
      t.mesh in meshes &&
      (HasVao(meshes[t.mesh]) ==>
        t.mat in materials &&
        (Drawn(meshes[t.mesh], materials[t.mat]) ==>
          ImagesResolve(materials[t.mat].uniforms, images) &&
          (meshes[t.mesh].indexData.None? ==> meshes[t.mesh].dataStride > 0)))
  }

  /** The draw call of a drawn mesh (lines 99-103): without index data,
      `data_size / data_stride` vertices; with index data, `index_count`
      indices of the buffer's index type. */
  function DrawOf(m: DrawableMesh): (k: DrawKind)
    requires m.buffer.Some? && (m.indexData.None? ==> m.dataStride > 0)
    ensures k.Arrays? <==> m.indexData.None?
  {
    if m.indexData.None? then Arrays(m.dataSize / m.dataStride) else Elements(m.indexCount, m.buffer.value.idxType)
  }

  /** The task loop of `endFrame` (lines 75-104): tasks that are not drawn
      are skipped without error; a drawn task binds its textures from unit
      1 on and issues its draw call; a failing texture cast ends the
      frame. */
  function FrameDraws(tasks: seq<DrawTask>, meshes: map<Handle, DrawableMesh>,
                      materials: map<Handle, Material>, images: map<Handle, Image>): (r: Frame)
    requires Resolves(tasks, meshes, materials, images)
    ensures |r.draws| <= |tasks|
  {
    if tasks == [] then Frame([], Pass)
    else
      var t := tasks[0];
      var rest := FrameDraws(tasks[1..], meshes, materials, images);
      var m := meshes[t.mesh];
      if !HasVao(m) || !Drawn(m, materials[t.mat]) then rest
      else
        var mat := materials[t.mat];
        var b := TextureBindings(mat.uniforms, images, 1);
        if b.outcome.Fail? then Frame([], b.outcome)
        else Frame([DrawCall(m.buffer.value.vao, mat.shaders.value.glId, b.bindings, DrawOf(m))] + rest.draws, rest.outcome)
  }

  /** The tasks `endFrame` draws, in order. */
  function DrawnTasks(tasks: seq<DrawTask>, meshes: map<Handle, DrawableMesh>,
                      materials: map<Handle, Material>, images: map<Handle, Image>): (r: seq<DrawTask>)
    requires Resolves(tasks, meshes, materials, images)
    ensures |r| <= |tasks|
    ensures forall t :: t in r ==> t in tasks && HasVao(meshes[t.mesh]) && Drawn(meshes[t.mesh], materials[t.mat])
  {
    if tasks == [] then []
    else
      var t := tasks[0];
      var m := meshes[t.mesh];
      if HasVao(m) && Drawn(m, materials[t.mat]) then
        [t] + DrawnTasks(tasks[1..], meshes, materials, images)
      else DrawnTasks(tasks[1..], meshes, materials, images)
  }

  /** Every drawn task's material holds images in its texture uniforms. */
  ghost predicate DrawnCastable(tasks: seq<DrawTask>, meshes: map<Handle, DrawableMesh>,
                                materials: map<Handle, Material>, images: map<Handle, Image>)
    requires Resolves(tasks, meshes, materials, images)
  {
    forall t :: t in tasks && HasVao(meshes[t.mesh]) && Drawn(meshes[t.mesh], materials[t.mat]) ==>
      TexturesAreImages(materials[t.mat].uniforms)
  }

  /** When the drawn materials' texture uniforms all hold images, the frame
      ends without error and issues one draw per drawn task, in task order,
      with that task's vertex array, program, uploaded textures bound from
      unit 1 on and its mesh's draw call; nothing is drawn for any other
      task. */
  lemma {:induction false} FrameDrawsDrawnTasks(tasks: seq<DrawTask>, meshes: map<Handle, DrawableMesh>,
                                                materials: map<Handle, Material>, images: map<Handle, Image>)
    requires Resolves(tasks, meshes, materials, images) && DrawnCastable(tasks, meshes, materials, images)
    ensures var r := FrameDraws(tasks, meshes, materials, images); var dt := DrawnTasks(tasks, meshes, materials, images);
      r.outcome == Pass && |r.draws| == |dt| &&
      forall i :: 0 <= i < |dt| ==> IssuedFor(r.draws[i], dt[i], meshes, materials, images)
  {
    if tasks != [] {
      FrameDrawsDrawnTasks(tasks[1..], meshes, materials, images);
      var t := tasks[0];
      var m := meshes[t.mesh];
      if HasVao(m) && Drawn(m, materials[t.mat]) {
        var mat := materials[t.mat];
        BindingsAreUploadedTextures(mat.uniforms, images, 1);
        var r := FrameDraws(tasks, meshes, materials, images);
        var rest := FrameDraws(tasks[1..], meshes, materials, images);
        var dt := DrawnTasks(tasks, meshes, materials, images);
        var dtRest := DrawnTasks(tasks[1..], meshes, materials, images);
        var b := TextureBindings(mat.uniforms, images, 1);
        assert r.draws == [DrawCall(m.buffer.value.vao, mat.shaders.value.glId, b.bindings, DrawOf(m))] + rest.draws;
        assert dt == [t] + dtRest;
        assert r.draws[1..] == rest.draws && dt[1..] == dtRest;
        assert IssuedFor(r.draws[0], dt[0], meshes, materials, images);
        forall i | 1 <= i < |dt|
          ensures IssuedFor(r.draws[i], dt[i], meshes, materials, images)
        {
          assert r.draws[i] == r.draws[1..][i - 1];
          assert dt[i] == dt[1..][i - 1];
        }
      }
    }
  }

  /** `d` is the draw `endFrame` issues for task `t`: its vertex array,
      program, one binding per uploaded texture, and the mesh's draw
      call. */
  ghost predicate IssuedFor(d: DrawCall, t: DrawTask, meshes: map<Handle, DrawableMesh>,
                            materials: map<Handle, Material>, images: map<Handle, Image>)
  {
    t.mesh in meshes && t.mat in materials && Drawn(meshes[t.mesh], materials[t.mat]) &&
    ImagesResolve(materials[t.mat].uniforms, images) &&
    (meshes[t.mesh].indexData.None? ==> meshes[t.mesh].dataStride > 0) &&
    d.vao == meshes[t.mesh].buffer.value.vao && d.program == materials[t.mat].shaders.value.glId &&
    |d.bindings| == |Uploaded(materials[t.mat].uniforms, images)| && d.kind == DrawOf(meshes[t.mesh])
  }

  /** One step of the task loop, read off the tasks from position i. */
  lemma FrameDrawsFrom(tasks: seq<DrawTask>, i: nat, meshes: map<Handle, DrawableMesh>,
                       materials: map<Handle, Material>, images: map<Handle, Image>)
    requires i < |tasks| && Resolves(tasks, meshes, materials, images)
    ensures Resolves(tasks[i..], meshes, materials, images) && Resolves(tasks[i + 1..], meshes, materials, images)
    ensures var t := tasks[i]; var m := meshes[t.mesh]; var rest := FrameDraws(tasks[i + 1..], meshes, materials, images);
      FrameDraws(tasks[i..], meshes, materials, images) ==
        if !HasVao(m) || !Drawn(m, materials[t.mat]) then rest
        else
          var b := TextureBindings(materials[t.mat].uniforms, images, 1);
          if b.outcome.Fail? then Frame([], b.outcome)
          else Frame([DrawCall(m.buffer.value.vao, materials[t.mat].shaders.value.glId, b.bindings, DrawOf(m))] + rest.draws, rest.outcome)
  {
    assert tasks[i..][0] == tasks[i] && tasks[i..][1..] == tasks[i + 1..];
  }

  /** `PipelineImpl` together with the GL objects it owns. */
  class Pipeline {
    var currentFramebuffer: Option<Handle>
    var targets: map<Handle, RenderTarget>
    var curFsaa: nat
    var fsaaLevels: set<nat>
    var width: nat
    var height: nat
    var tasks: seq<DrawTask>
    var glTextures: map<nat, TexImage>
    var framebuffers: set<nat>
    var nextTexture: nat
    var nextFramebuffer: nat
    var nextTarget: Handle

    /** The current level is one of the levels, and no texture,
        framebuffer or target name at or above its counter is in use. */
    ghost predicate Valid()
      reads this
    {
      curFsaa in fsaaLevels &&
      (forall t :: t in glTextures ==> t < nextTexture) &&
      (forall f :: f in framebuffers ==> f < nextFramebuffer) &&
      (forall h :: h in targets ==> h < nextTarget)
    }

    /** `Pipeline()` (lines 24-44). The FSAA fields are set as
        `FsaaLevels` computes them; the current framebuffer and the
        viewport, which the source leaves uninitialised, start out null
        and 0 by 0. */
    constructor (dsamples: int, csamples: int)
      requires -0x8000_0000 <= dsamples < 0x8000_0000 && -0x8000_0000 <= csamples < 0x8000_0000
      ensures Valid()
      ensures var m := if dsamples < csamples then dsamples else csamples;
        curFsaa == m % U32 &&
        forall x :: x in fsaaLevels <==> x == m % U32 || (1 < x < m && (m - x) % 2 == 0)
      ensures currentFramebuffer == None && targets == map[] && tasks == [] && glTextures == map[] && framebuffers == {}
    {
      var cur, levels := FsaaLevels(dsamples, csamples);
      curFsaa, fsaaLevels := cur, levels;
      currentFramebuffer, targets, width, height, tasks := None, map[], 0, 0, [];
      glTextures, framebuffers, nextTexture, nextFramebuffer, nextTarget := map[], {}, 0, 0, 0;
    }

    /** `addDrawTask` (lines 49-55): one task per call, in call order; the
        transform and the instancing flag are not used. */
    method AddDrawTask(mesh: Handle, mat: Handle, transform: seq<real>, instance: bool)
      modifies this`tasks
      ensures tasks == old(tasks) + [DrawTask(mesh, mat)]
    {
      tasks := tasks + [DrawTask(mesh, mat)];
    }

    /** `render` (lines 58-69): without a current framebuffer nothing
        happens; otherwise that target is marked dirty. */
    method Render()
      requires currentFramebuffer.Some? ==> currentFramebuffer.value in targets
      modifies this`targets
      ensures currentFramebuffer.None? ==> targets == old(targets)
      ensures currentFramebuffer.Some? ==>
        var h := currentFramebuffer.value;
        targets == old(targets)[h := old(targets)[h].(dirty := true)]
    {
      if currentFramebuffer.None? {
        return;
      }
      var h := currentFramebuffer.value;
      targets := targets[h := targets[h].(dirty := true)];
    }

    /** The texture loop of `endFrame` for one material, as
        `TextureBindings` specifies it from unit 1. */
    static method BindTextures(us: seq<Uniform>, images: map<Handle, Image>) returns (b: Bound)
      requires ImagesResolve(us, images)
      ensures b == TextureBindings(us, images, 1)
    {
      ghost var full := TextureBindings(us, images, 1);
      var done: seq<Binding> := [];
      var texid: nat := 1;
      var i := 0;
      while i < |us|
        invariant 0 <= i <= |us|
        invariant ImagesResolve(us[i..], images)
        invariant var rest := TextureBindings(us[i..], images, texid);
          full.bindings == done + rest.bindings && full.outcome == rest.outcome
      {
        TextureBindingsFrom(us, i, images, texid);
        var u := us[i];
        if u.kind == Texture {
          if !u.value.ImageRef? {
            assert done + [] == done;
            return Bound(done, Fail(BadAnyCast));
          }
          var img := images[u.value.image];
          if img.tex.Some? {
            ghost var rest1 := TextureBindings(us[i + 1..], images, texid + 1);
            assert done + ([Binding(texid, img.tex.value, u.pipeId)] + rest1.bindings)
                == (done + [Binding(texid, img.tex.value, u.pipeId)]) + rest1.bindings;
            done := done + [Binding(texid, img.tex.value, u.pipeId)];
            texid := texid + 1;
          }
        }
        i := i + 1;
      }
      assert us[i..] == [];
      assert done + [] == done;
      b := Bound(done, Pass);
    }

    /** `endFrame` (lines 71-108): the draws are those `FrameDraws`
        computes for the task list; a frame that ends normally empties the
        list, one that throws leaves it as it was. A current framebuffer
        must be set, since its buffer is bound first. */
    method EndFrame(meshes: map<Handle, DrawableMesh>, materials: map<Handle, Material>, images: map<Handle, Image>)
      returns (r: Outcome, draws: seq<DrawCall>)
      requires currentFramebuffer.Some? && currentFramebuffer.value in targets
      requires Resolves(tasks, meshes, materials, images)
      modifies this`tasks
      ensures Frame(draws, r) == FrameDraws(old(tasks), meshes, materials, images)
      ensures tasks == if r.Pass? then [] else old(tasks)
    {
      var ts := tasks;
      ghost var full := FrameDraws(ts, meshes, materials, images);
      draws := [];
      var i := 0;
      while i < |ts|
        invariant 0 <= i <= |ts|
        invariant tasks == ts
        invariant Resolves(ts[i..], meshes, materials, images)
        invariant var rest := FrameDraws(ts[i..], meshes, materials, images);
          full.draws == draws + rest.draws && full.outcome == rest.outcome
      {
        FrameDrawsFrom(ts, i, meshes, materials, images);
        var d := ts[i];
        var m := meshes[d.mesh];
        if HasVao(m) && Drawn(m, materials[d.mat]) {
          var mat := materials[d.mat];
          var b := BindTextures(mat.uniforms, images);
          if b.outcome.Fail? {
            assert draws + [] == draws;
            return b.outcome, draws;
          }
          var call := DrawCall(m.buffer.value.vao, mat.shaders.value.glId, b.bindings, DrawOf(m));
          ghost var rest1 := FrameDraws(ts[i + 1..], meshes, materials, images);
          assert draws + ([call] + rest1.draws) == (draws + [call]) + rest1.draws;
          draws := draws + [call];
        }
        i := i + 1;
      }
      assert ts[i..] == [];
      assert draws + [] == draws;
      tasks := [];
      r := Pass;
    }

    /** `createRenderTarget` (lines 122-170): two new framebuffers and five
        new textures, allocated with the current sample count at the
        requested size; the target is dirty and builds mipmaps as asked. */
    method CreateRenderTarget(w: nat, h: nat, mipmap: bool) returns (t: Handle)
      requires Valid()
      modifies this`targets, this`glTextures, this`framebuffers, this`nextTexture, this`nextFramebuffer, this`nextTarget
      ensures Valid()
      ensures t == old(nextTarget) && t !in old(targets) && t in targets
      ensures var rt := targets[t];
        rt == RenderTarget(old(nextFramebuffer), old(nextFramebuffer) + 1,
                           old(nextTexture), old(nextTexture) + 1, old(nextTexture) + 2, old(nextTexture) + 3,
                           old(nextTexture) + 4, mipmap, true, w, h) &&
        DistinctTextures(rt) && TargetTextures(rt) !! old(glTextures).Keys &&
        glTextures == old(glTextures) + TargetImages(rt, curFsaa) &&
        framebuffers == old(framebuffers) + {rt.lbufferId, rt.gbufferId}
      ensures targets == old(targets)[t := targets[t]]
    {
      var fbo := nextFramebuffer;
      var tex := nextTexture;
      nextFramebuffer := nextFramebuffer + 2;
      nextTexture := nextTexture + 5;
      var rt := RenderTarget(fbo, fbo + 1, tex, tex + 1, tex + 2, tex + 3, tex + 4, mipmap, true, w, h);
      glTextures := glTextures + TargetImages(rt, curFsaa);
      framebuffers := framebuffers + {fbo, fbo + 1};
      t := nextTarget;
      targets := targets[t := rt];
      nextTarget := nextTarget + 1;
    }

    /** `destroyRenderTarget` (lines 172-185) with the missing deletion of
        the material-property texture restored: all five textures and both
        framebuffers are deleted and the target is freed, so a target's
        whole allocation is given back (`ReleasingAllTexturesRestores`). */
    method DestroyRenderTarget(t: Handle)
      requires t in targets
      modifies this`targets, this`glTextures, this`framebuffers
      ensures var rt := old(targets)[t];
        glTextures == old(glTextures) - TargetTextures(rt) &&
        framebuffers == old(framebuffers) - {rt.lbufferId, rt.gbufferId} &&
        targets == old(targets) - {t}
    {
      var rt := targets[t];
      glTextures := glTextures - {rt.depthId, rt.colorId, rt.normalId, rt.matpropId, rt.lightingId};
      framebuffers := framebuffers - {rt.lbufferId, rt.gbufferId};
      targets := targets - {t};
    }

    /** `setRenderTarget` (lines 187-190): any pointer, null included,
        becomes current. */
    method SetRenderTarget(t: Option<Handle>)
      modifies this`currentFramebuffer
      ensures currentFramebuffer == t
    {
      currentFramebuffer := t;
    }

    /** `setViewport` (lines 192-198): records the window size. */
    method SetViewport(w: nat, h: nat)
      modifies this`width, this`height
      ensures width == w && height == h
    {
      width, height := w, h;
    }
  }
}
