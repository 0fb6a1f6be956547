/** The render-target, panel and material bookkeeping of the second
    pipeline generation (pipeline/Pipeline.cpp, pipeline/Pipeline.hpp).

    Render targets and textures are `shared_ptr`s; here each is a handle
    into a table of the pipeline. A target records its framebuffer id, the
    textures bound to it in order and whether `render` builds their
    mipmaps. Texture ids come from a counter, and the storage GL is asked
    to allocate for each texture is recorded. The loader the panels come
    from is the weak-pointer loader of `WeakLoader`. */
module Pipeline {
  import opened Wrappers
  import opened DefinitionTypes
  import Resources
  import WeakLoader

  type Handle = Resources.Handle

  /** `fsaa /= 2` on an `int`: C++ division truncates toward zero. */
  function Halve(x: int): (r: int)
    ensures 0 <= x ==> 2 * r <= x < 2 * r + 2
    ensures x < 0 ==> x <= 0 && r <= 0
  {
    if x >= 0 then x / 2 else -((-x) / 2)
  }

  /** The levels the constructor's do-while loop inserts (lines 81-86):
      `m` itself and then its repeated integer halvings while they stay
      above 1. */
  function HalvingLevels(m: int): set<int>
    decreases if m > 0 then m else 0
  {
    {m} + (if Halve(m) > 1 then HalvingLevels(Halve(m)) else {})
  }

  /** The constructor's FSAA set-up: the current level is the smaller
      sample limit, and the level set is its halvings. */
  method FsaaHalvings(dsamples: int, csamples: int) returns (cur: int, levels: set<int>)
    ensures var m := if dsamples < csamples then dsamples else csamples;
      cur == m && levels == HalvingLevels(m)
  {
    var fsaa := if dsamples < csamples then dsamples else csamples;
    ghost var m := fsaa;
    cur := fsaa;
    levels := {fsaa};
    fsaa := Halve(fsaa);
    while fsaa > 1
      invariant HalvingLevels(m) == levels + (if fsaa > 1 then HalvingLevels(fsaa) else {})
      decreases fsaa
    {
      levels := levels + {fsaa};
      fsaa := Halve(fsaa);
    }
  }

  /** The limit itself is a level; every other level is above 1 and at
      most half of it. */
  lemma {:induction false} HalvingLevelsBounds(m: int)
    ensures m in HalvingLevels(m)
    ensures forall x :: x in HalvingLevels(m) ==> x == m || (1 < x && 2 * x <= m)
    decreases if m > 0 then m else 0
  {
    if Halve(m) > 1 {
      HalvingLevelsBounds(Halve(m));
    }
  }

  /** Halving a level gives a level again, unless the result is 1 or
      less. */
  lemma {:induction false} HalvingLevelsClosed(m: int)
    ensures forall x :: x in HalvingLevels(m) && Halve(x) > 1 ==> Halve(x) in HalvingLevels(m)
    decreases if m > 0 then m else 0
  {
    if Halve(m) > 1 {
      HalvingLevelsClosed(Halve(m));
      HalvingLevelsBounds(Halve(m));
    }
  }

  /** The levels are the least such set: any set that holds the limit and
      is closed under halving above 1 holds every level. */
  lemma {:induction false} HalvingLevelsLeast(m: int, s: set<int>)
    requires m in s
    requires forall x :: x in s && Halve(x) > 1 ==> Halve(x) in s
    ensures HalvingLevels(m) <= s
    decreases if m > 0 then m else 0
  {
    if Halve(m) > 1 {
      HalvingLevelsLeast(Halve(m), s);
    }
  }

  /** Texture storage as GL is asked to allocate it: a multisample 2D
      texture, a plain 2D texture with a linear or mipmapped minifying
      filter, or a 2D texture array. */
  datatype Alloc =
    | Multisample(samples: int, format: Resources.TexFormat, width: int, height: int)
    | Plain(format: Resources.TexFormat, width: int, height: int, mipmapFilter: bool)
    | Layered(format: Resources.TexFormat, width: int, height: int, layers: int)

  /** `RenderTarget`: framebuffer id, bound textures in order, and whether
      `render` builds their mipmaps. */
  datatype Target = Target(fbo: nat, boundTextures: seq<nat>, buildMips: bool)

  /** The targets, the texture allocations and the next texture id. */
  datatype Attachments = Attachments(targets: map<Handle, Target>, allocations: map<nat, Alloc>, next: nat)

  /** `setupRenderTargets` (lines 131-166) on the default target `d` and
      the g-buffer target `g`. */
  function TargetsSetUp(a: Attachments, d: Option<Handle>, g: Option<Handle>, samples: int, w: int, h: int): Attachments
    requires d.Some? ==> d.value in a.targets
    requires g.Some? ==> g.value in a.targets
  {
    if d.None? || g.None? then a
    else
      var main := a.next;
      var depth := a.next + 1;
      var rgbm := a.next + 2;
      var nor := a.next + 3;
      var c1 := a.targets[d.value := a.targets[d.value].(boundTextures := [])];
      var c2 := c1[g.value := c1[g.value].(boundTextures := [])];
      var t1 := c2[d.value := c2[d.value].(boundTextures := c2[d.value].boundTextures + [depth, main])];
      var t2 := t1[g.value := t1[g.value].(boundTextures := t1[g.value].boundTextures + [depth, rgbm, nor])];
      Attachments(t2,
        a.allocations[main := Multisample(samples, Resources.Rgba16f, w, h)]
                     [depth := Multisample(samples, Resources.Depth24Stencil8, w, h)]
                     [rgbm := Multisample(samples, Resources.Rgba8, w, h)]
                     [nor := Multisample(samples, Resources.Rg16f, w, h)],
        a.next + 4)
  }

  /** What `setupRenderTargets` promises. With either target missing it
      changes nothing. Otherwise four fresh textures are allocated at the
      given sample count and size; the default target's list becomes
      [depth, main plane] and the g-buffer's [depth, colour, normals]
      (when the two are different targets), the depth texture being the
      same one; the lists are replaced, not extended; no other target and
      no earlier allocation changes. */
  lemma TargetsSetUpSpec(a: Attachments, d: Option<Handle>, g: Option<Handle>, samples: int, w: int, h: int)
    requires d.Some? ==> d.value in a.targets
    requires g.Some? ==> g.value in a.targets
    requires forall t :: t in a.allocations ==> t < a.next
    ensures d.None? || g.None? ==> TargetsSetUp(a, d, g, samples, w, h) == a
    ensures d.Some? && g.Some? && d != g ==>
      var r := TargetsSetUp(a, d, g, samples, w, h);
      var dl := r.targets[d.value].boundTextures; var gl := r.targets[g.value].boundTextures;
      r.next == a.next + 4 && r.targets.Keys == a.targets.Keys &&
      |dl| == 2 && |gl| == 3 && dl[0] == gl[0] &&
      {dl[0], dl[1], gl[1], gl[2]} == {a.next, a.next + 1, a.next + 2, a.next + 3} &&
      (forall t :: t in {dl[0], dl[1], gl[1], gl[2]} ==> t !in a.allocations) &&
      r.allocations[dl[1]] == Multisample(samples, Resources.Rgba16f, w, h) &&
      r.allocations[dl[0]] == Multisample(samples, Resources.Depth24Stencil8, w, h) &&
      r.allocations[gl[1]] == Multisample(samples, Resources.Rgba8, w, h) &&
      r.allocations[gl[2]] == Multisample(samples, Resources.Rg16f, w, h) &&
      r.targets[d.value] == a.targets[d.value].(boundTextures := dl) &&
      r.targets[g.value] == a.targets[g.value].(boundTextures := gl) &&
      (forall t :: t in a.allocations ==> r.allocations[t] == a.allocations[t]) &&
      (forall k :: k in a.targets && k != d.value && k != g.value ==> r.targets[k] == a.targets[k])
  {
  }

  /** `glm::mat4(xscale, 0, ..., 1)` of `createPanel`, column-major. */
  function Diag(x: real, y: real): (r: seq<real>)
    ensures |r| == 16 && r[0] == x && r[5] == y && r[10] == 1.0 && r[15] == 1.0
    ensures forall i :: 0 <= i < 16 && i % 5 != 0 ==> r[i] == 0.0
  {
    [x, 0.0, 0.0, 0.0,
     0.0, y, 0.0, 0.0,
     0.0, 0.0, 1.0, 0.0,
     0.0, 0.0, 0.0, 1.0]
  }

  /** `Panel`: its material, its draw buffer and its transform. */
  datatype Panel = Panel(mat: Option<Handle>, buf: Option<Handle>, matrix: seq<real>)

  /** What `useMaterial` did: the ModelView location it found, the
      locations it bound the projection to, and whether it threw. */
  datatype Used = Used(mv: Option<int>, projections: seq<int>, outcome: Outcome)

  /** The uniform loop of `useMaterial` (lines 277-290) over the given
      uniforms: uniforms at location -1 are skipped; ModelView records its
      location; Projection binds the projection matrix there; any other
      kind throws, which ends the loop. */
  function MaterialUse(us: seq<WeakLoader.Uniform>): (r: Used)
    ensures |r.projections| <= |us|
    decreases |us|
  {
    if us == [] then Used(None, [], Pass)
    else
      var prev := MaterialUse(us[..|us| - 1]);
      var u := us[|us| - 1];
      if prev.outcome.Fail? || u.glId == -1 then prev
      else match u.kind
        case ModelView => prev.(mv := Some(u.glId))
        case Projection => prev.(projections := prev.projections + [u.glId])
        case _ => prev.(outcome := Fail(UnimplementedUniformType))
  }

  /** Every uniform with a location is a ModelView or a Projection. */
  predicate Dispatchable(us: seq<WeakLoader.Uniform>)
  {
    forall i :: 0 <= i < |us| && us[i].glId != -1 ==> us[i].kind == ModelView || us[i].kind == Projection
  }

  /** `useMaterial` throws exactly when some uniform with a location has a
      kind other than ModelView and Projection, and then with the
      unimplemented-type error. */
  lemma {:induction false} MaterialUseThrowsIff(us: seq<WeakLoader.Uniform>)
    ensures MaterialUse(us).outcome.Pass? <==> Dispatchable(us)
    ensures MaterialUse(us).outcome.Fail? ==> MaterialUse(us).outcome.error == UnimplementedUniformType
    decreases |us|
  {
    if us != [] {
      var init := us[..|us| - 1];
      MaterialUseThrowsIff(init);
      assert forall i :: 0 <= i < |init| ==> init[i] == us[i];
    }
  }

  /** Once the loop has thrown, later uniforms change nothing. */
  lemma {:induction false} MaterialUseFailSticks(us: seq<WeakLoader.Uniform>, i: nat)
    requires i <= |us| && MaterialUse(us[..i]).outcome.Fail?
    ensures MaterialUse(us) == MaterialUse(us[..i])
    decreases |us| - i
  {
    if i < |us| {
      assert us[..i + 1][..i] == us[..i];
      MaterialUseFailSticks(us, i + 1);
    } else {
      assert us[..i] == us;
    }
  }

  /** Uniform `u` is a ModelView with a location. */
  predicate LocatedModelView(u: WeakLoader.Uniform)
  {
    u.glId != -1 && u.kind == ModelView
  }

  /** When no uniform is unsupported, the ModelView location returned is
      that of the last ModelView uniform with a location, and there is
      none (the source returns an uninitialised value) when no such
      uniform exists. */
  lemma {:induction false} MaterialUseModelView(us: seq<WeakLoader.Uniform>)
    requires Dispatchable(us)
    ensures MaterialUse(us).mv.None? <==> forall i :: 0 <= i < |us| ==> !LocatedModelView(us[i])
    ensures MaterialUse(us).mv.Some? ==>
      exists j :: 0 <= j < |us| && LocatedModelView(us[j]) && MaterialUse(us).mv.value == us[j].glId &&
        forall k :: j < k < |us| ==> !LocatedModelView(us[k])
    decreases |us|
  {
    if us != [] {
      var init := us[..|us| - 1];
      assert forall i :: 0 <= i < |init| ==> init[i] == us[i];
      MaterialUseModelView(init);
      MaterialUseThrowsIff(init);
      if LocatedModelView(us[|us| - 1]) {
        assert MaterialUse(us).mv.value == us[|us| - 1].glId;
      } else if MaterialUse(init).mv.Some? {
        var j :| 0 <= j < |init| && LocatedModelView(init[j]) && MaterialUse(init).mv.value == init[j].glId &&
          forall k :: j < k < |init| ==> !LocatedModelView(init[k]);
        assert forall k :: j < k < |us| ==> !LocatedModelView(us[k]);
      }
    }
  }

  /** The locations of the Projection uniforms that have one, in order. */
  function ProjectionSlots(us: seq<WeakLoader.Uniform>): (r: seq<int>)
    ensures |r| <= |us|
  {
    if us == [] then []
    else (if us[0].glId != -1 && us[0].kind == Projection then [us[0].glId] else []) + ProjectionSlots(us[1..])
  }

  /** One more uniform adds its location at the end exactly when it is a
      Projection uniform with a location. */
  lemma {:induction false} ProjectionSlotsAppend(us: seq<WeakLoader.Uniform>, u: WeakLoader.Uniform)
    ensures ProjectionSlots(us + [u]) == ProjectionSlots(us) + (if u.glId != -1 && u.kind == Projection then [u.glId] else [])
  {
    if us == [] {
      assert [] + [u] == [u];
    } else {
      var whole := us + [u];
      assert whole[0] == us[0] && whole[1..] == us[1..] + [u];
      ProjectionSlotsAppend(us[1..], u);
      assert ProjectionSlots(whole) == (if us[0].glId != -1 && us[0].kind == Projection then [us[0].glId] else []) + ProjectionSlots(us[1..] + [u]);
    }
  }

  /** When no uniform is unsupported, the projection is bound at the
      location of every Projection uniform that has one, in uniform
      order. */
  lemma {:induction false} MaterialUseProjections(us: seq<WeakLoader.Uniform>)
    requires Dispatchable(us)
    ensures MaterialUse(us).projections == ProjectionSlots(us)
    decreases |us|
  {
    if us != [] {
      var init := us[..|us| - 1];
      assert forall i :: 0 <= i < |init| ==> init[i] == us[i];
      MaterialUseProjections(init);
      MaterialUseThrowsIff(init);
      ProjectionSlotsAppend(init, us[|us| - 1]);
      assert init + [us[|us| - 1]] == us;
    }
  }

  /** `Pipeline` of the second generation, with the GL objects it owns. */
  class Pipeline {
    var targets: map<Handle, Target>
    var allocations: map<nat, Alloc>
    var nextTexture: nat
    var nextTarget: Handle
    var nextFbo: nat
    var defaultTarget: Option<Handle>
    var gbufferTarget: Option<Handle>
    var currentTarget: Option<Handle>
    var fsaaLevels: set<int>
    var curFsaa: int
    var width: int
    var height: int
    var csmTexArray: nat
    var shadowmap: nat
    var panels: set<Handle>
    var panelStore: map<Handle, Panel>
    var nextPanel: Handle

    /** The current level is a level; the default, g-buffer and current
        targets exist; no id at or above its counter is in use; every
        panel in the set has been created. */
    ghost predicate Valid()
      reads this
    {
      curFsaa in fsaaLevels &&
      defaultTarget.Some? && defaultTarget.value in targets &&
      gbufferTarget.Some? && gbufferTarget.value in targets &&
      currentTarget.Some? && currentTarget.value in targets &&
      (forall t :: t in allocations ==> t < nextTexture) &&
      (forall k :: k in targets ==> k < nextTarget) &&
      (forall p :: p in panelStore ==> p < nextPanel) &&
      panels <= panelStore.Keys
    }

    function Attached(): Attachments
      reads this
    {
      Attachments(targets, allocations, nextTexture)
    }

    /** `Pipeline()` (lines 63-118), after the platform and loader-thread
        set-up: the FSAA levels, the default and g-buffer targets with
        mipmaps off and their textures attached, the default target made
        current, and the shadow-map textures. */
    constructor (dsamples: int, csamples: int)
      ensures Valid()
      ensures var m := if dsamples < csamples then dsamples else csamples;
        curFsaa == m && fsaaLevels == HalvingLevels(m)
      ensures width == 800 && height == 600 && panels == {}
      ensures currentTarget == defaultTarget && defaultTarget != gbufferTarget
      ensures var d := targets[defaultTarget.value]; var g := targets[gbufferTarget.value];
        !d.buildMips && !g.buildMips && |d.boundTextures| == 2 && |g.boundTextures| == 3 &&
        d.boundTextures[0] == g.boundTextures[0]
      ensures csmTexArray in allocations && allocations[csmTexArray] == Layered(Resources.R32f, 512, 512, 4)
      ensures shadowmap in allocations && allocations[shadowmap] == Plain(Resources.R32f, 512, 512, false)
    {
      var cur, levels := FsaaHalvings(dsamples, csamples);
      HalvingLevelsBounds(cur);
      curFsaa, fsaaLevels := cur, levels;
      width, height := 800, 600;
      // `createRenderTarget` twice, with mipmaps then turned off.
      var created := Attachments(map[0 := Target(0, [], false), 1 := Target(1, [], false)], map[], 0);
      var a := TargetsSetUp(created, Some(0), Some(1), cur, 800, 600);
      TargetsSetUpSpec(created, Some(0), Some(1), cur, 800, 600);
      targets, nextTarget, nextFbo := a.targets, 2, 2;
      defaultTarget, gbufferTarget, currentTarget := Some(0), Some(1), Some(0);
      var csm, shadow := a.next, a.next + 1;
      csmTexArray, shadowmap := csm, shadow;
      allocations := a.allocations[csm := Layered(Resources.R32f, 512, 512, 4)]
                                  [shadow := Plain(Resources.R32f, 512, 512, false)];
      nextTexture := a.next + 2;
      panels, panelStore, nextPanel := {}, map[], 0;
    }

    /** `createRenderTarget` (lines 57-61): a new target on a new
        framebuffer, with no textures and mipmaps on. */
    method CreateRenderTarget() returns (t: Handle)
      modifies this`targets, this`nextTarget, this`nextFbo
      ensures t == old(nextTarget) && nextTarget == t + 1 && nextFbo == old(nextFbo) + 1
      ensures targets == old(targets)[t := Target(old(nextFbo), [], true)]
    {
      t := nextTarget;
      targets := targets[t := Target(nextFbo, [], true)];
      nextTarget := nextTarget + 1;
      nextFbo := nextFbo + 1;
    }

    /** `buildRenderTarget` (lines 215-231): a new target holding exactly
        one new RGBA16F texture of the given size, whose minifying filter
        is mipmapped iff `mip`; the target itself keeps mipmaps on. */
    method BuildRenderTarget(w: int, h: int, mip: bool) returns (t: Handle)
      requires Valid()
      modifies this`targets, this`nextTarget, this`nextFbo, this`allocations, this`nextTexture
      ensures Valid()
      ensures t == old(nextTarget) && t !in old(targets)
      ensures var tex := old(nextTexture);
        tex !in old(allocations) &&
        targets == old(targets)[t := Target(old(nextFbo), [tex], true)] &&
        allocations == old(allocations)[tex := Plain(Resources.Rgba16f, w, h, mip)] &&
        nextTexture == tex + 1
    {
      t := CreateRenderTarget();
      var tex := nextTexture;
      nextTexture := nextTexture + 1;
      targets := targets[t := targets[t].(boundTextures := targets[t].boundTextures + [tex])];
      assert [] + [tex] == [tex];
      allocations := allocations[tex := Plain(Resources.Rgba16f, w, h, mip)];
    }

    /** `setupRenderTargets`, as `TargetsSetUp` computes it from the
        current level and window size. */
    method SetupRenderTargets()
      requires defaultTarget.Some? ==> defaultTarget.value in targets
      requires gbufferTarget.Some? ==> gbufferTarget.value in targets
      modifies this`targets, this`allocations, this`nextTexture
      ensures Attached() == TargetsSetUp(old(Attached()), defaultTarget, gbufferTarget, curFsaa, width, height)
    {
      if defaultTarget.None? || gbufferTarget.None? {
        return;
      }
      var d, g := defaultTarget.value, gbufferTarget.value;
      targets := targets[d := targets[d].(boundTextures := [])];
      targets := targets[g := targets[g].(boundTextures := [])];
      var mainPlane := nextTexture;
      var depth := nextTexture + 1;
      nextTexture := nextTexture + 2;
      targets := targets[d := targets[d].(boundTextures := targets[d].boundTextures + [depth, mainPlane])];
      allocations := allocations[mainPlane := Multisample(curFsaa, Resources.Rgba16f, width, height)];
      allocations := allocations[depth := Multisample(curFsaa, Resources.Depth24Stencil8, width, height)];
      var rgbm := nextTexture;
      var nor := nextTexture + 1;
      nextTexture := nextTexture + 2;
      targets := targets[g := targets[g].(boundTextures := targets[g].boundTextures + [depth, rgbm, nor])];
      allocations := allocations[rgbm := Multisample(curFsaa, Resources.Rgba8, width, height)];
      allocations := allocations[nor := Multisample(curFsaa, Resources.Rg16f, width, height)];
    }

    /** `setFsaa` (Pipeline.hpp line 122): a level outside the set changes
        nothing; a level in the set becomes current and the targets are
        set up again, even when it already was current. */
    method SetFsaa(i: int)
      requires Valid()
      modifies this`curFsaa, this`targets, this`allocations, this`nextTexture
      ensures Valid()
      ensures i !in fsaaLevels ==> curFsaa == old(curFsaa) && Attached() == old(Attached())
      ensures i in fsaaLevels ==>
        curFsaa == i && Attached() == TargetsSetUp(old(Attached()), defaultTarget, gbufferTarget, i, width, height)
    {
      if i in fsaaLevels {
        curFsaa := i;
        TargetsSetUpSpec(Attached(), defaultTarget, gbufferTarget, i, width, height);
        SetupRenderTargets();
      }
    }

    /** `fsaaLevels` (Pipeline.hpp line 121): the level set, read
        without changing anything. */
    method FsaaLevels() returns (r: set<int>)
      requires Valid()
      ensures r == fsaaLevels && curFsaa in r
    {
      r := fsaaLevels;
    }

    /** `setRenderTarget` (lines 209-213): no target means the default
        one; the chosen target becomes current, which for the current one
        changes nothing. */
    method SetRenderTarget(t: Option<Handle>)
      requires t.Some? ==> t.value in targets
      modifies this`currentTarget
      ensures currentTarget == if t.None? then defaultTarget else t
    {
      var target := t;
      if target.None? {
        target := defaultTarget;
      }
      if target == currentTarget {
        return;
      }
      currentTarget := target;
    }

    /** `render` (lines 175-189): the textures whose mipmaps are
        generated, in order: every texture bound to the current target
        when it builds mipmaps, none otherwise. */
    method Render() returns (mipmapped: seq<nat>)
      requires Valid()
      ensures var rt := targets[currentTarget.value];
        mipmapped == if rt.buildMips then rt.boundTextures else []
    {
      var rt := targets[currentTarget.value];
      mipmapped := [];
      if rt.buildMips {
        var i := 0;
        while i < |rt.boundTextures|
          invariant 0 <= i <= |rt.boundTextures|
          invariant mipmapped == rt.boundTextures[..i]
        {
          mipmapped := mipmapped + [rt.boundTextures[i]];
          i := i + 1;
        }
      }
    }

    /** `createPanel` (lines 257-268): the material comes from the
        loader's `loadMaterial` (whose exception propagates, leaving no
        panel), the draw buffer from `loadMesh("__quad__")`, and the
        transform scales x and y; the new panel joins the set. */
    method CreatePanel(xscale: real, yscale: real, material: string, loader: WeakLoader.Loader, gl: WeakLoader.Gl)
      returns (r: Result<Handle>)
      requires Valid() && WeakLoader.Valid(loader.State())
      modifies this`panels, this`panelStore, this`nextPanel, loader
      ensures Valid()
      ensures var ml := WeakLoader.MaterialLoad(old(loader.State()), material, gl);
        loader.State() == ml.state &&
        (ml.result.Failure? ==> r == Failure(ml.result.error) && panels == old(panels) && panelStore == old(panelStore)) &&
        (ml.result.Success? ==>
          var p := old(nextPanel);
          r == Success(p) && p !in old(panelStore) && panels == old(panels) + {p} &&
          panelStore == old(panelStore)[p := Panel(ml.result.value,
            WeakLoader.Cached(ml.state.meshes.m, ml.state.live, "__quad__"), Diag(xscale, yscale))])
    {
      var mat := loader.LoadMaterial(material, gl);
      if mat.Failure? {
        return Failure(mat.error);
      }
      var buf := loader.LoadMesh("__quad__");
      var p := nextPanel;
      nextPanel := nextPanel + 1;
      panelStore := panelStore[p := Panel(mat.value, buf, Diag(xscale, yscale))];
      panels := panels + {p};
      r := Success(p);
    }

    /** `destroyPanel` (lines 270-272): the panel leaves the set. */
    method DestroyPanel(p: Handle)
      requires Valid()
      modifies this`panels
      ensures Valid()
      ensures panels == old(panels) - {p}
    {
      panels := panels - {p};
    }
  }

  /** `useMaterial` (lines 274-292): the program it makes current and
      what its uniform loop does, as `MaterialUse` specifies it. The
      material must have a program, since its id is read first. */
  method UseMaterial(mat: WeakLoader.Material, programs: map<Handle, WeakLoader.Program>)
    returns (program: nat, r: Used)
    requires mat.program.Some? && mat.program.value in programs
    ensures program == programs[mat.program.value].glId
    ensures r == MaterialUse(mat.uniforms)
  {
    program := programs[mat.program.value].glId;
    var us := mat.uniforms;
    r := Used(None, [], Pass);
    var i := 0;
    while i < |us|
      invariant 0 <= i <= |us|
      invariant r == MaterialUse(us[..i]) && r.outcome == Pass
    {
      var u := us[i];
      assert us[..i + 1][..i] == us[..i];
      if u.glId != -1 {
        match u.kind {
          case ModelView =>
            r := r.(mv := Some(u.glId));
          case Projection =>
            r := r.(projections := r.projections + [u.glId]);
          case _ =>
            r := r.(outcome := Fail(UnimplementedUniformType));
            MaterialUseFailSticks(us, i + 1);
            return;
        }
      }
      i := i + 1;
    }
    assert us[..i] == us;
  }
}
