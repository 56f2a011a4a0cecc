/**
  The deferred-rendering pipeline object shared by the demos (class Graphics).

  `Init` has two states, driven by `initialized`: on first use it creates the
  render manager and floating space, on re-entry it frees the owned passes
  first; then it runs a fixed build chain that stops at the first failure.
  `Draw` emits one frame: window policy, a resize only when the window size
  changed, the per-frame matrix requests, then the passes in a fixed order,
  each inside a named debug group, with the registered drawables in between,
  and one buffer swap.

  Every engine, driver and window call is an event appended to `trace`.
  What those calls return (image loads, build results, the window size) comes
  in as parameters.
*/
module Graphics {
  import opened Wrappers
  import opened Matrix
  import Bullet

  // -----------------------------------------------------------------------
  // Configuration values and their defaults.

  datatype Flags = Flags(debug: bool, srgb: bool, hdr: bool, msaa: nat)

  /** Graphics::Flags as default-initialised. */
  const DefaultFlags: Flags := Flags(false, false, true, 0)

  datatype Light = Light(color: Vec3, radius: real)

  /** Per-frame input. Pointers are Options (None is null). Float fields hold
      the exact value of the float the source initialises them with. */
  datatype State = State(
    mouseGrab: bool,
    vsync: bool,
    fov: real,
    zmin: real,
    zfar: real,
    ambientCol: Vec3,
    exposure: real,
    gamma: real,
    sunlightLocs: Option<seq<nat>>,
    sunlightLights: Option<seq<Light>>,
    sunlightCount: nat,
    pointLocs: Option<seq<nat>>,
    pointLights: Option<seq<Light>>,
    pointCount: nat)

  /** State as default-initialised: no lights, no grab, vsync on,
      fov = (float)(pi/4), near 0.5, far 1024, ambient (float)0.2 grey. */
  const DefaultState: State := State(
    false, true,
    0.785398185253143310546875, 0.5, 1024.0,
    Vec3(0.20000000298023223876953125, 0.20000000298023223876953125, 0.20000000298023223876953125),
    1.0, 1.0,
    None, None, 0,
    None, None, 0)

  /** A registered drawable, known by identity; `customName` is the name its
      class overrides `name()` with, if any. */
  datatype Drawable = Drawable(id: nat, customName: Option<string>) {
    /** The debug-group name: the override if there is one, else "Untitled". */
    function Name(): (n: string)
      ensures customName.None? ==> n == "Untitled"
      ensures customName.Some? ==> n == customName.value
    {
      if customName.Some? then customName.value else "Untitled"
    }
  }

  // -----------------------------------------------------------------------
  // Events.

  /** The GPU resources the pipeline owns and releases in `Free`. */
  datatype Resource = BoxShape | IcoShape | SkyboxPass | AmbientPass | SunPass | PointPass | TonemapperPass

  datatype LightKind = Sun | Point

  /** The fallible steps of `Init` after the sky faces, in order. */
  datatype BuildStep = SkyboxStep | AmbientStep | SunStep | PointStep | TonemapperStep

  /** The skybox and ambient builds take no sample count; the two lighting
      passes and the tonemapper are built with the flags' msaa. */
  function BuildEvent(step: BuildStep, msaa: nat): (e: Event)
    ensures e.Build? && e.step == step
    ensures e.samples.Some? <==> step in {SunStep, PointStep, TonemapperStep}
    ensures e.samples.Some? ==> e.samples.value == msaa
  {
    Build(step, if step == SkyboxStep || step == AmbientStep then None else Some(msaa))
  }

  datatype Event =
    | Release(resource: Resource)
    | RendermanInit
    | FloatspaceInit(capacity: nat)
    | RendermanSetup(msaa: nat, hdr: bool)
    | RendermanResize(width: nat, height: nat)
    | FloatspaceBuild
    | ClampReadColorOff
    | BuildShape(shape: Resource)
    | LoadImage(file: string)
    | Log(context: string)
    | LoadCubemap
    /** A pass build; `samples` is the msaa sample count, for the steps that take one. */
    | Build(step: BuildStep, samples: Option<nat>)
    | LogError(context: string)
    | SetWindowGrab(grab: bool)
    | SetRelativeMouseMode(relative: bool)
    | SetSwapInterval(vsync: bool)
    | Viewport(width: nat, height: nat)
    | TonemapperResize(width: nat, height: nat)
    | ViewMatRequest(mask: Mask)
    | ObjMatsRequest(locs: Option<seq<nat>>, mask: Mask, count: nat)
    | PushGroup(name: string)
    | PopGroup
    | GeometryBind
    | SkyboxDraw
    | DrawableDraw(drawable: nat)
    | AmbientDraw
    | LightingDraw(kind: LightKind, lights: Option<seq<Light>>, count: nat)
    | TonemapperDraw
    | Swap

  // -----------------------------------------------------------------------
  // Reading traces.

  lemma Assoc(a: seq<Event>, b: seq<Event>, c: seq<Event>)
    ensures (a + b) + c == a + (b + c)
  {
  }

  /** The payloads `f` picks out of a trace, in order. */
  function Pick<T>(t: seq<Event>, f: Event -> Option<T>): seq<T>
    decreases |t|
  {
    if t == [] then []
    else Pick(t[..|t| - 1], f) + (if f(t[|t| - 1]).Some? then [f(t[|t| - 1]).value] else [])
  }

  lemma {:induction false} PickAppend<T>(a: seq<Event>, b: seq<Event>, f: Event -> Option<T>)
    ensures Pick(a + b, f) == Pick(a, f) + Pick(b, f)
    decreases |b|
  {
    if b != [] {
      var b' := b[..|b| - 1];
      assert (a + b)[..|a + b| - 1] == a + b';
      PickAppend(a, b', f);
    } else {
      assert a + b == a;
    }
  }

  /** Nothing is picked from a trace `f` ignores throughout. */
  lemma {:induction false} PickNone<T>(t: seq<Event>, f: Event -> Option<T>)
    requires forall k :: 0 <= k < |t| ==> f(t[k]).None?
    ensures Pick(t, f) == []
    decreases |t|
  {
    if t != [] {
      PickNone(t[..|t| - 1], f);
    }
  }

  /** From a trace `f` picks from throughout, every event is picked, in order. */
  lemma {:induction false} PickAll<T>(t: seq<Event>, f: Event -> Option<T>)
    requires forall k :: 0 <= k < |t| ==> f(t[k]).Some?
    ensures Pick(t, f) == seq(|t|, k requires 0 <= k < |t| => f(t[k]).value)
    decreases |t|
  {
    if t != [] {
      PickAll(t[..|t| - 1], f);
    }
  }

  function PushName(e: Event): Option<string> {
    if e.PushGroup? then Some(e.name) else None
  }

  function DrawnId(e: Event): Option<nat> {
    if e.DrawableDraw? then Some(e.drawable) else None
  }

  function FreedResource(e: Event): Option<Resource> {
    if e.Release? then Some(e.resource) else None
  }

  function ResizeOf(e: Event): Option<(nat, nat)> {
    if e.RendermanResize? then Some((e.width, e.height)) else None
  }

  function SwapOf(e: Event): Option<Event> {
    if e.Swap? then Some(e) else None
  }

  /** The draw work of a frame: the pass bodies and the swap. */
  function PassWork(e: Event): Option<Event> {
    if e.GeometryBind? || e.SkyboxDraw? || e.DrawableDraw? || e.AmbientDraw?
       || e.LightingDraw? || e.TonemapperDraw? || e.Swap?
    then Some(e) else None
  }

  /** Debug-group nesting depth after a trace. */
  function Depth(t: seq<Event>): int
    decreases |t|
  {
    if t == [] then 0
    else Depth(t[..|t| - 1]) + (if t[|t| - 1].PushGroup? then 1 else if t[|t| - 1].PopGroup? then -1 else 0)
  }

  /** Every pop closes an open push and nothing is left open. */
  ghost predicate Balanced(t: seq<Event>) {
    && Depth(t) == 0
    && forall k :: 0 <= k <= |t| ==> Depth(t[..k]) >= 0
  }

  /** A trace with no debug-group markers. */
  ghost predicate Flat(t: seq<Event>) {
    forall k :: 0 <= k < |t| ==> !t[k].PushGroup? && !t[k].PopGroup?
  }

  lemma {:induction false} DepthAppend(a: seq<Event>, b: seq<Event>)
    ensures Depth(a + b) == Depth(a) + Depth(b)
    decreases |b|
  {
    if b != [] {
      assert (a + b)[..|a + b| - 1] == a + b[..|b| - 1];
      DepthAppend(a, b[..|b| - 1]);
    } else {
      assert a + b == a;
    }
  }

  lemma {:induction false} FlatDepth(t: seq<Event>)
    requires Flat(t)
    ensures forall k :: 0 <= k <= |t| ==> Depth(t[..k]) == 0
    decreases |t|
  {
    if t != [] {
      var t' := t[..|t| - 1];
      FlatDepth(t');
      forall k | 0 <= k <= |t| ensures Depth(t[..k]) == 0 {
        if k < |t| {
          assert t[..k] == t'[..k];
        } else {
          assert t[..k][..|t| - 1] == t';
        }
      }
    }
  }

  lemma {:induction false} BalancedAppend(a: seq<Event>, b: seq<Event>)
    requires Balanced(a) && Balanced(b)
    ensures Balanced(a + b)
  {
    DepthAppend(a, b);
    forall k | 0 <= k <= |a + b| ensures Depth((a + b)[..k]) >= 0 {
      if k <= |a| {
        assert (a + b)[..k] == a[..k];
      } else {
        assert (a + b)[..k] == a + b[..k - |a|];
        DepthAppend(a, b[..k - |a|]);
      }
    }
  }

  lemma FlatIsBalanced(t: seq<Event>)
    requires Flat(t)
    ensures Balanced(t)
  {
    FlatDepth(t);
    assert t[..|t|] == t;
  }

  // -----------------------------------------------------------------------
  // Init.

  const SkyFiles: seq<string> := ["north.png", "south.png", "up.png", "down.png", "west.png", "east.png"]

  const BuildOrder: seq<BuildStep> := [SkyboxStep, AmbientStep, SunStep, PointStep, TonemapperStep]

  /** The resources in the order Free releases them. */
  const Owned: seq<Resource> := [BoxShape, IcoShape, SkyboxPass, AmbientPass, SunPass, PointPass, TonemapperPass]

  /** What Free emits. */
  const FreeTrace: seq<Event> := [
    Release(BoxShape), Release(IcoShape), Release(SkyboxPass), Release(AmbientPass),
    Release(SunPass), Release(PointPass), Release(TonemapperPass)]

  /** The label a failed build step logs its error under. */
  function StepLabel(step: BuildStep): string {
    match step
    case SkyboxStep => "skybox"
    case AmbientStep => "ambient"
    case SunStep => "sunlighting"
    case PointStep => "lighting"
    case TonemapperStep => "tonemapper"
  }

  /** Every report in the list is a success. */
  predicate AllSucceed(oks: seq<bool>) {
    forall j :: 0 <= j < |oks| ==> oks[j]
  }

  /** What the foreign calls of one `Init` report: whether each sky face image
      loads, and whether each build step of `BuildOrder` succeeds. */
  datatype InitEnv = InitEnv(faceLoads: seq<bool>, builds: seq<bool>) {
    ghost predicate WellFormed() {
      |faceLoads| == |SkyFiles| && |builds| == |BuildOrder|
    }
  }

  /** Loading the sky faces from face i on: each is loaded in order, and the
      first that fails is logged and ends the loop. */
  function FacesTrace(loads: seq<bool>, i: nat): seq<Event>
    requires |loads| == |SkyFiles|
    decreases |SkyFiles| - i
  {
    if i >= |SkyFiles| then []
    else [LoadImage(SkyFiles[i])]
         + (if loads[i] then FacesTrace(loads, i + 1) else [Log(SkyFiles[i])])
  }

  /** The build chain: each step is attempted in order; the first failure
      logs its error and no later step is attempted. */
  function ChainTrace(steps: seq<BuildStep>, oks: seq<bool>, msaa: nat): seq<Event>
    requires |steps| == |oks|
    decreases |steps|
  {
    if steps == [] then []
    else [BuildEvent(steps[0], msaa)]
         + (if oks[0] then ChainTrace(steps[1..], oks[1..], msaa) else [LogError(StepLabel(steps[0]))])
  }

  /** What Init does first: free the old pipeline, or create the render
      manager and a floating space of capacity 2. */
  function InitHead(wasInitialized: bool): seq<Event> {
    if wasInitialized then FreeTrace else [RendermanInit, FloatspaceInit(2)]
  }

  /** The unconditional setup: render manager at 800x600, floating space,
      read-colour clamping off, the two shapes. */
  function InitSetup(flags: Flags): seq<Event> {
    [ RendermanSetup(flags.msaa, flags.hdr), RendermanResize(800, 600), FloatspaceBuild,
      ClampReadColorOff, BuildShape(BoxShape), BuildShape(IcoShape) ]
  }

  /** After the faces: nothing if one failed, else the cubemap and the chain. */
  function InitTail(flags: Flags, env: InitEnv): seq<Event>
    requires env.WellFormed()
  {
    if !AllSucceed(env.faceLoads) then []
    else [LoadCubemap] + ChainTrace(BuildOrder, env.builds, flags.msaa)
  }

  /** Everything `Init` emits, from the state flag it starts in. */
  function InitTrace(wasInitialized: bool, flags: Flags, env: InitEnv): seq<Event>
    requires env.WellFormed()
  {
    InitHead(wasInitialized) + InitSetup(flags) + FacesTrace(env.faceLoads, 0) + InitTail(flags, env)
  }

  /** Init succeeds exactly when every sky face loads and every build step succeeds. */
  predicate InitSucceeds(env: InitEnv) {
    AllSucceed(env.faceLoads) && AllSucceed(env.builds)
  }

  /** The build events of a list of steps. */
  function Builds(steps: seq<BuildStep>, msaa: nat): seq<Event>
    decreases |steps|
  {
    if steps == [] then [] else [BuildEvent(steps[0], msaa)] + Builds(steps[1..], msaa)
  }

  /** With every step succeeding, the chain attempts every step, in order. */
  lemma {:induction false} ChainAllSucceed(steps: seq<BuildStep>, oks: seq<bool>, msaa: nat)
    requires |steps| == |oks|
    requires forall j :: 0 <= j < |oks| ==> oks[j]
    ensures ChainTrace(steps, oks, msaa) == Builds(steps, msaa)
    decreases |steps|
  {
    if steps != [] {
      ChainAllSucceed(steps[1..], oks[1..], msaa);
    }
  }

  /** With step k the first to fail, the chain attempts exactly steps 0..k,
      in order, logs step k's error, and stops. */
  lemma {:induction false} ChainStopsAtFirstFailure(steps: seq<BuildStep>, oks: seq<bool>, msaa: nat, k: nat)
    requires |steps| == |oks|
    requires k < |oks| && !oks[k]
    requires forall j :: 0 <= j < k ==> oks[j]
    ensures ChainTrace(steps, oks, msaa) == Builds(steps[..k + 1], msaa) + [LogError(StepLabel(steps[k]))]
    decreases k
  {
    var build := [BuildEvent(steps[0], msaa)];
    var log := [LogError(StepLabel(steps[k]))];
    if k == 0 {
      assert steps[..1][1..] == [];
      assert Builds(steps[..1], msaa) == build;
      assert ChainTrace(steps, oks, msaa) == build + log;
    } else {
      ChainStopsAtFirstFailure(steps[1..], oks[1..], msaa, k - 1);
      assert steps[..k + 1][1..] == steps[1..][..k];
      assert steps[..k + 1][0] == steps[0];
      assert Builds(steps[..k + 1], msaa) == build + Builds(steps[1..][..k], msaa);
      assert ChainTrace(steps, oks, msaa) == build + ChainTrace(steps[1..], oks[1..], msaa);
      Assoc(build, Builds(steps[1..][..k], msaa), log);
    }
  }

  /** The load events of faces i..n-1. */
  function Loads(i: nat, n: nat): seq<Event>
    requires n <= |SkyFiles|
    decreases n - i
  {
    if i >= n then [] else [LoadImage(SkyFiles[i])] + Loads(i + 1, n)
  }

  /** With every face from i on loading, each is loaded once, in order. */
  lemma {:induction false} FacesAllLoad(loads: seq<bool>, i: nat)
    requires |loads| == |SkyFiles| && i <= |SkyFiles|
    requires forall j :: i <= j < |SkyFiles| ==> loads[j]
    ensures FacesTrace(loads, i) == Loads(i, |SkyFiles|)
    decreases |SkyFiles| - i
  {
    if i < |SkyFiles| {
      FacesAllLoad(loads, i + 1);
    }
  }

  /** With face k the first to fail from i on, faces i..k are attempted in
      order, k's failure is logged, and no later face is loaded. */
  lemma {:induction false} FacesStopAtFirstFailure(loads: seq<bool>, i: nat, k: nat)
    requires |loads| == |SkyFiles|
    requires i <= k < |SkyFiles| && !loads[k]
    requires forall j :: i <= j < k ==> loads[j]
    ensures FacesTrace(loads, i) == Loads(i, k + 1) + [Log(SkyFiles[k])]
    decreases k - i
  {
    var load := [LoadImage(SkyFiles[i])];
    assert Loads(i, k + 1) == load + Loads(i + 1, k + 1);
    if i < k {
      FacesStopAtFirstFailure(loads, i + 1, k);
      assert FacesTrace(loads, i) == load + FacesTrace(loads, i + 1);
      Assoc(load, Loads(i + 1, k + 1), [Log(SkyFiles[k])]);
    } else {
      assert FacesTrace(loads, i) == load + [Log(SkyFiles[i])];
      assert Loads(i + 1, k + 1) == [];
    }
  }

  /** A failed sky face ends Init before the cubemap upload or any build step. */
  lemma FaceFailureSkipsBuilds(wasInitialized: bool, flags: Flags, env: InitEnv)
    requires env.WellFormed()
    requires !AllSucceed(env.faceLoads)
    ensures InitTrace(wasInitialized, flags, env)
         == InitHead(wasInitialized) + InitSetup(flags) + FacesTrace(env.faceLoads, 0)
  {
  }

  lemma {:induction false} FacesFreeNothing(loads: seq<bool>, i: nat)
    requires |loads| == |SkyFiles|
    ensures Pick(FacesTrace(loads, i), FreedResource) == []
    decreases |SkyFiles| - i
  {
    if i < |SkyFiles| {
      var rest := if loads[i] then FacesTrace(loads, i + 1) else [Log(SkyFiles[i])];
      FacesFreeNothing(loads, i + 1);
      PickAppend([LoadImage(SkyFiles[i])], rest, FreedResource);
      PickNone([LoadImage(SkyFiles[i])], FreedResource);
      PickNone([Log(SkyFiles[i])], FreedResource);
    }
  }

  lemma {:induction false} ChainFreesNothing(steps: seq<BuildStep>, oks: seq<bool>, msaa: nat)
    requires |steps| == |oks|
    ensures Pick(ChainTrace(steps, oks, msaa), FreedResource) == []
    decreases |steps|
  {
    if steps != [] {
      var rest := if oks[0] then ChainTrace(steps[1..], oks[1..], msaa) else [LogError(StepLabel(steps[0]))];
      ChainFreesNothing(steps[1..], oks[1..], msaa);
      PickAppend([BuildEvent(steps[0], msaa)], rest, FreedResource);
      PickNone([BuildEvent(steps[0], msaa)], FreedResource);
      PickNone([LogError(StepLabel(steps[0]))], FreedResource);
    }
  }

  lemma InitTailFreesNothing(flags: Flags, env: InitEnv)
    requires env.WellFormed()
    ensures Pick(InitTail(flags, env), FreedResource) == []
  {
    if AllSucceed(env.faceLoads) {
      ChainFreesNothing(BuildOrder, env.builds, flags.msaa);
      PickAppend([LoadCubemap], ChainTrace(BuildOrder, env.builds, flags.msaa), FreedResource);
      PickNone([LoadCubemap], FreedResource);
    } else {
      PickNone(InitTail(flags, env), FreedResource);
    }
  }

  lemma InitHeadFrees(wasInitialized: bool)
    ensures Pick(InitHead(wasInitialized), FreedResource) == if wasInitialized then Owned else []
  {
    if wasInitialized {
      PickAll(FreeTrace, FreedResource);
    } else {
      PickNone(InitHead(wasInitialized), FreedResource);
    }
  }

  /** Re-initialising releases every owned resource exactly once, in the order
      box, icosahedron, skybox, ambient, sun, point, tonemapper, before any
      build step; a first Init releases nothing. */
  lemma InitReleasesOnce(wasInitialized: bool, flags: Flags, env: InitEnv)
    requires env.WellFormed()
    ensures Pick(InitTrace(wasInitialized, flags, env), FreedResource)
         == if wasInitialized then Owned else []
    ensures wasInitialized ==> InitTrace(wasInitialized, flags, env)[..|FreeTrace|] == FreeTrace
  {
    var head := InitHead(wasInitialized);
    var setup := InitSetup(flags);
    var faces := FacesTrace(env.faceLoads, 0);
    var tail := InitTail(flags, env);
    FacesFreeNothing(env.faceLoads, 0);
    InitTailFreesNothing(flags, env);
    InitHeadFrees(wasInitialized);
    PickNone(setup, FreedResource);
    PickSkipsSilent(head, setup, FreedResource);
    PickSkipsSilent(head + setup, faces, FreedResource);
    PickSkipsSilent(head + setup + faces, tail, FreedResource);
    if wasInitialized {
      InitStartsWithFree(flags, env);
    }
  }

  /** Appending events the selector ignores selects nothing more. */
  lemma PickSkipsSilent<T>(a: seq<Event>, b: seq<Event>, f: Event -> Option<T>)
    requires Pick(b, f) == []
    ensures Pick(a + b, f) == Pick(a, f)
  {
    PickAppend(a, b, f);
    assert Pick(a, f) + [] == Pick(a, f);
  }

  /** A re-initialisation begins with the release of the old pipeline. */
  lemma InitStartsWithFree(flags: Flags, env: InitEnv)
    requires env.WellFormed()
    ensures InitTrace(true, flags, env)[..|FreeTrace|] == FreeTrace
  {
    var rest := InitSetup(flags) + FacesTrace(env.faceLoads, 0) + InitTail(flags, env);
    assert InitTrace(true, flags, env) == FreeTrace + rest by {
      Assoc(FreeTrace, InitSetup(flags), FacesTrace(env.faceLoads, 0));
      Assoc(FreeTrace, InitSetup(flags) + FacesTrace(env.faceLoads, 0), InitTail(flags, env));
    }
  }

  /** The pass-build step of an event, if it is one. */
  function BuiltStep(e: Event): Option<BuildStep> {
    if e.Build? then Some(e.step) else None
  }

  lemma {:induction false} FacesBuildNothing(loads: seq<bool>, i: nat)
    requires |loads| == |SkyFiles|
    ensures Pick(FacesTrace(loads, i), BuiltStep) == []
    decreases |SkyFiles| - i
  {
    if i < |SkyFiles| {
      var rest := if loads[i] then FacesTrace(loads, i + 1) else [Log(SkyFiles[i])];
      FacesBuildNothing(loads, i + 1);
      PickAppend([LoadImage(SkyFiles[i])], rest, BuiltStep);
      PickNone([LoadImage(SkyFiles[i])], BuiltStep);
      PickNone([Log(SkyFiles[i])], BuiltStep);
    }
  }

  /** An Init that fails on a sky face builds no pass, yet leaves the state
      flag set, so the next Init releases all seven owned resources again.
      When the failed Init was itself a re-initialisation, the skybox,
      ambient, sun, point and tonemapper passes are released twice with no
      build of them in between. */
  lemma ReinitAfterFailedFacesReleasesAgain(wasInitialized: bool, flags: Flags, env: InitEnv,
                                            flags': Flags, env': InitEnv)
    requires env.WellFormed() && env'.WellFormed()
    requires !AllSucceed(env.faceLoads)
    ensures Pick(InitTrace(wasInitialized, flags, env), BuiltStep) == []
    ensures Pick(InitTrace(true, flags', env'), FreedResource) == Owned
    ensures wasInitialized ==>
      Pick(InitTrace(true, flags, env) + InitTrace(true, flags', env'), FreedResource) == Owned + Owned
  {
    var head := InitHead(wasInitialized);
    var setup := InitSetup(flags);
    var faces := FacesTrace(env.faceLoads, 0);
    FaceFailureSkipsBuilds(wasInitialized, flags, env);
    PickNone(head, BuiltStep);
    PickNone(setup, BuiltStep);
    FacesBuildNothing(env.faceLoads, 0);
    PickSkipsSilent(head, setup, BuiltStep);
    PickSkipsSilent(head + setup, faces, BuiltStep);
    InitReleasesOnce(true, flags', env');
    if wasInitialized {
      InitReleasesOnce(true, flags, env);
      PickAppend(InitTrace(true, flags, env), InitTrace(true, flags', env'), FreedResource);
    }
  }

  // -----------------------------------------------------------------------
  // Draw.

  const SkyboxMask: Mask := {ViewR, Projection}
  const LightIvpMask: Mask := {Inverse, ViewR, Projection}
  const LightMvMask: Mask := {ModelT, ViewT}
  const LightMvpMask: Mask := {ModelT} + VP

  /** The matrices requested once per frame: the skybox's, then three sets per
      light kind (sun, then point), sized by that kind's light count. */
  function MatrixRequests(state: State): seq<Event> {
    [ ViewMatRequest(SkyboxMask),
      ObjMatsRequest(state.sunlightLocs, LightIvpMask, state.sunlightCount),
      ObjMatsRequest(state.sunlightLocs, LightMvMask, state.sunlightCount),
      ObjMatsRequest(state.sunlightLocs, LightMvpMask, state.sunlightCount),
      ObjMatsRequest(state.pointLocs, LightIvpMask, state.pointCount),
      ObjMatsRequest(state.pointLocs, LightMvMask, state.pointCount),
      ObjMatsRequest(state.pointLocs, LightMvpMask, state.pointCount) ]
  }

  /** The window-policy calls and resize check that open a frame, then the
      matrix requests. */
  function FramePrologue(state: State, width: nat, height: nat, resized: bool): seq<Event> {
    [ SetWindowGrab(state.mouseGrab), SetRelativeMouseMode(state.mouseGrab),
      SetSwapInterval(state.vsync), Viewport(width, height) ]
    + (if resized then [RendermanResize(width, height), TonemapperResize(width, height)] else [])
    + MatrixRequests(state)
  }

  /** One render pass: the debug-group name it runs under and its work. */
  datatype Pass = Pass(name: string, work: Event)

  /** The events of a list of passes: each wrapped in its debug group. */
  function PassesTrace(ps: seq<Pass>): seq<Event>
    decreases |ps|
  {
    if ps == [] then []
    else PassesTrace(ps[..|ps| - 1]) + [PushGroup(ps[|ps| - 1].name), ps[|ps| - 1].work, PopGroup]
  }

  function GroupNames(ps: seq<Pass>): seq<string> {
    seq(|ps|, i requires 0 <= i < |ps| => ps[i].name)
  }

  function Works(ps: seq<Pass>): seq<Event> {
    seq(|ps|, i requires 0 <= i < |ps| => ps[i].work)
  }

  /** One pass per registered drawable, in list order, under the drawable's name. */
  function DrawablePasses(ds: seq<Drawable>): seq<Pass> {
    seq(|ds|, i requires 0 <= i < |ds| => Pass(ds[i].Name(), DrawableDraw(ds[i].id)))
  }

  function Names(ds: seq<Drawable>): seq<string> {
    seq(|ds|, i requires 0 <= i < |ds| => ds[i].Name())
  }

  function Ids(ds: seq<Drawable>): seq<nat> {
    seq(|ds|, i requires 0 <= i < |ds| => ds[i].id)
  }

  const OpeningPasses: seq<Pass> := [Pass("Geometry", GeometryBind), Pass("Skybox", SkyboxDraw)]

  function ClosingPasses(state: State): seq<Pass> {
    [ Pass("Ambient Lighting", AmbientDraw),
      Pass("Sunlights", LightingDraw(Sun, state.sunlightLights, state.sunlightCount)),
      Pass("Point Lights", LightingDraw(Point, state.pointLights, state.pointCount)),
      Pass("Tone Mapping", TonemapperDraw) ]
  }

  /** The passes of a frame, in order. */
  function FramePasses(state: State, ds: seq<Drawable>): seq<Pass> {
    OpeningPasses + DrawablePasses(ds) + ClosingPasses(state)
  }

  /** Everything one frame emits. */
  function FrameTrace(state: State, width: nat, height: nat, resized: bool, ds: seq<Drawable>): seq<Event> {
    FramePrologue(state, width, height, resized) + PassesTrace(FramePasses(state, ds)) + [Swap]
  }

  /** A pass body is never a debug-group marker. */
  ghost predicate PlainWork(ps: seq<Pass>) {
    forall i :: 0 <= i < |ps| ==> !ps[i].work.PushGroup? && !ps[i].work.PopGroup?
  }

  lemma {:induction false} PassesPushNames(ps: seq<Pass>)
    requires PlainWork(ps)
    ensures Pick(PassesTrace(ps), PushName) == GroupNames(ps)
    decreases |ps|
  {
    if ps != [] {
      var ps', p := ps[..|ps| - 1], ps[|ps| - 1];
      var g := [PushGroup(p.name), p.work, PopGroup];
      assert PassesTrace(ps) == PassesTrace(ps') + g;
      assert PlainWork(ps') by {
        forall i | 0 <= i < |ps'| ensures !ps'[i].work.PushGroup? && !ps'[i].work.PopGroup? {
          assert ps'[i] == ps[i];
        }
      }
      PassesPushNames(ps');
      PickAppend(PassesTrace(ps'), g, PushName);
      assert g == [PushGroup(p.name)] + [p.work, PopGroup];
      PickAppend([PushGroup(p.name)], [p.work, PopGroup], PushName);
      PickNone([p.work, PopGroup], PushName);
      PickAll([PushGroup(p.name)], PushName);
      assert GroupNames(ps) == GroupNames(ps') + [p.name];
    }
  }

  /** A pick that ignores the markers of one debug group sees only its body. */
  lemma PickGroup<T>(name: string, work: Event, f: Event -> Option<T>)
    requires f(PushGroup(name)).None? && f(PopGroup).None?
    ensures Pick([PushGroup(name), work, PopGroup], f) == Pick([work], f)
  {
    var g := [PushGroup(name), work, PopGroup];
    assert g[..2] == [PushGroup(name), work];
    assert [PushGroup(name), work][..1] == [PushGroup(name)];
    assert [PushGroup(name)][..0] == [] && [work][..0] == [];
    assert Pick([PushGroup(name)], f) == [];
    assert Pick(g, f) == Pick([PushGroup(name), work], f);
    assert Pick([PushGroup(name), work], f) == Pick([PushGroup(name)], f) + Pick([work], f);
  }

  /** A pick that ignores debug-group markers sees exactly the pass bodies. */
  lemma {:induction false} PassesPickWorks<T>(ps: seq<Pass>, f: Event -> Option<T>)
    requires f(PopGroup).None?
    requires forall i :: 0 <= i < |ps| ==> f(PushGroup(ps[i].name)).None?
    ensures Pick(PassesTrace(ps), f) == Pick(Works(ps), f)
    decreases |ps|
  {
    if ps != [] {
      var ps', p := ps[..|ps| - 1], ps[|ps| - 1];
      var g := [PushGroup(p.name), p.work, PopGroup];
      assert PassesTrace(ps) == PassesTrace(ps') + g;
      assert forall i :: 0 <= i < |ps'| ==> f(PushGroup(ps'[i].name)).None? by {
        forall i | 0 <= i < |ps'| ensures f(PushGroup(ps'[i].name)).None? {
          assert ps'[i] == ps[i];
        }
      }
      PassesPickWorks(ps', f);
      PickAppend(PassesTrace(ps'), g, f);
      PickGroup(p.name, p.work, f);
      assert Works(ps) == Works(ps') + [p.work];
      PickAppend(Works(ps'), [p.work], f);
    }
  }

  lemma {:induction false} PassesBalanced(ps: seq<Pass>)
    requires PlainWork(ps)
    ensures Balanced(PassesTrace(ps))
    decreases |ps|
  {
    if ps == [] {
      FlatIsBalanced([]);
    } else {
      var p := ps[|ps| - 1];
      var g := [PushGroup(p.name), p.work, PopGroup];
      PassesBalanced(ps[..|ps| - 1]);
      assert g[..0] == [] && g[..1] == [PushGroup(p.name)] && g[..2] == [PushGroup(p.name), p.work] && g[..3] == g;
      assert g[..2][..1] == g[..1] && g[..1][..0] == [];
      assert Depth(g[..1]) == 1 && Depth(g[..2]) == 1;
      BalancedAppend(PassesTrace(ps[..|ps| - 1]), g);
    }
  }

  lemma FramePassesPlain(state: State, ds: seq<Drawable>)
    ensures PlainWork(FramePasses(state, ds))
    ensures GroupNames(FramePasses(state, ds))
         == ["Geometry", "Skybox"] + Names(ds) + ["Ambient Lighting", "Sunlights", "Point Lights", "Tone Mapping"]
  {
    var ps := FramePasses(state, ds);
    forall i | 0 <= i < |ps| ensures !ps[i].work.PushGroup? && !ps[i].work.PopGroup? {
      if 2 <= i < 2 + |ds| {
        assert ps[i] == DrawablePasses(ds)[i - 2];
      }
    }
  }

  /** Splits a pick over a frame into prologue, pass bodies and swap. */
  lemma FramePick<T>(state: State, width: nat, height: nat, resized: bool, ds: seq<Drawable>, f: Event -> Option<T>)
    requires f(PopGroup).None?
    requires forall n :: f(PushGroup(n)).None?
    ensures Pick(FrameTrace(state, width, height, resized, ds), f)
         == Pick(FramePrologue(state, width, height, resized), f) + Pick(Works(FramePasses(state, ds)), f) + Pick([Swap], f)
  {
    var pre := FramePrologue(state, width, height, resized);
    var pt := PassesTrace(FramePasses(state, ds));
    PassesPickWorks(FramePasses(state, ds), f);
    PickAppend(pre, pt, f);
    PickAppend(pre + pt, [Swap], f);
  }

  /** The debug groups of a frame, in order: Geometry, Skybox, one per drawable
      (named by its Name()) in list order, Ambient Lighting, Sunlights,
      Point Lights, Tone Mapping. */
  lemma FrameGroupOrder(state: State, width: nat, height: nat, resized: bool, ds: seq<Drawable>)
    ensures Pick(FrameTrace(state, width, height, resized, ds), PushName)
         == ["Geometry", "Skybox"] + Names(ds) + ["Ambient Lighting", "Sunlights", "Point Lights", "Tone Mapping"]
  {
    var pre := FramePrologue(state, width, height, resized);
    var pt := PassesTrace(FramePasses(state, ds));
    FramePassesPlain(state, ds);
    PassesPushNames(FramePasses(state, ds));
    PrologueGroupsNothing(state, width, height, resized);
    PickNone([Swap], PushName);
    PickAppend(pre, pt, PushName);
    PickSkipsSilent(pre + pt, [Swap], PushName);
  }

  lemma PrologueGroupsNothing(state: State, width: nat, height: nat, resized: bool)
    ensures Pick(FramePrologue(state, width, height, resized), PushName) == []
  {
    PrologueIsSetup(state, width, height, resized);
    PickNone(FramePrologue(state, width, height, resized), PushName);
  }

  /** Every debug-group push of a frame is matched by a later pop. */
  lemma FrameBalanced(state: State, width: nat, height: nat, resized: bool, ds: seq<Drawable>)
    ensures Balanced(FrameTrace(state, width, height, resized, ds))
  {
    var pre := FramePrologue(state, width, height, resized);
    var pt := PassesTrace(FramePasses(state, ds));
    FlatIsBalanced(pre);
    FlatIsBalanced([Swap]);
    FramePassesPlain(state, ds);
    PassesBalanced(FramePasses(state, ds));
    BalancedAppend(pre, pt);
    BalancedAppend(pre + pt, [Swap]);
  }

  /** A pick that keeps every event of a trace unchanged returns the trace. */
  lemma {:induction false} PickKeepsAll(t: seq<Event>, f: Event -> Option<Event>)
    requires forall k :: 0 <= k < |t| ==> f(t[k]) == Some(t[k])
    ensures Pick(t, f) == t
    decreases |t|
  {
    if t != [] {
      PickKeepsAll(t[..|t| - 1], f);
    }
  }

  /** The only non-fixed pass bodies are the drawables' draws. */
  lemma FrameWorks(state: State, ds: seq<Drawable>)
    ensures Works(FramePasses(state, ds))
         == [GeometryBind, SkyboxDraw] + seq(|ds|, i requires 0 <= i < |ds| => DrawableDraw(ds[i].id))
            + [ AmbientDraw, LightingDraw(Sun, state.sunlightLights, state.sunlightCount),
                LightingDraw(Point, state.pointLights, state.pointCount), TonemapperDraw ]
  {
  }

  /** The prologue holds no pass work, no swap and no debug-group marker. */
  lemma PrologueIsSetup(state: State, width: nat, height: nat, resized: bool)
    ensures forall k :: 0 <= k < |FramePrologue(state, width, height, resized)| ==>
      var e := FramePrologue(state, width, height, resized)[k];
      PassWork(e).None? && !e.PushGroup? && !e.PopGroup? && !e.DrawableDraw? && !e.Swap?
  {
  }

  /** A pick that ignores every pass body finds nothing in a frame's passes. */
  lemma FrameWorksPickNothing<T>(state: State, ds: seq<Drawable>, f: Event -> Option<T>)
    requires f(GeometryBind).None? && f(SkyboxDraw).None? && f(AmbientDraw).None? && f(TonemapperDraw).None?
    requires forall kind, lights, count :: f(LightingDraw(kind, lights, count)).None?
    requires forall id :: f(DrawableDraw(id)).None?
    ensures Pick(Works(FramePasses(state, ds)), f) == []
  {
    var opening := [GeometryBind, SkyboxDraw];
    var dw := seq(|ds|, i requires 0 <= i < |ds| => DrawableDraw(ds[i].id));
    var closing := [ AmbientDraw, LightingDraw(Sun, state.sunlightLights, state.sunlightCount),
                     LightingDraw(Point, state.pointLights, state.pointCount), TonemapperDraw ];
    FrameWorks(state, ds);
    PickNone(opening, f);
    PickNone(closing, f);
    PickNone(dw, f);
    PickAppend(opening, dw, f);
    PickAppend(opening + dw, closing, f);
  }

  lemma PrologueDrawsNothing(state: State, width: nat, height: nat, resized: bool)
    ensures Pick(FramePrologue(state, width, height, resized), DrawnId) == []
  {
    PrologueIsSetup(state, width, height, resized);
    PickNone(FramePrologue(state, width, height, resized), DrawnId);
  }

  /** The pass bodies draw the drawables, in list order, and nothing else. */
  lemma PassesDrawIds(state: State, ds: seq<Drawable>)
    ensures Pick(Works(FramePasses(state, ds)), DrawnId) == Ids(ds)
  {
    var opening := [GeometryBind, SkyboxDraw];
    var dw := seq(|ds|, i requires 0 <= i < |ds| => DrawableDraw(ds[i].id));
    var closing := [ AmbientDraw, LightingDraw(Sun, state.sunlightLights, state.sunlightCount),
                     LightingDraw(Point, state.pointLights, state.pointCount), TonemapperDraw ];
    FrameWorks(state, ds);
    PickNone(opening, DrawnId);
    PickNone(closing, DrawnId);
    PickAll(dw, DrawnId);
    PickAppend(opening, dw, DrawnId);
    PickSkipsSilent(opening + dw, closing, DrawnId);
  }

  /** Each drawable is drawn once per frame, in list order. */
  lemma FrameDrawsInOrder(state: State, width: nat, height: nat, resized: bool, ds: seq<Drawable>)
    ensures Pick(FrameTrace(state, width, height, resized, ds), DrawnId) == Ids(ds)
  {
    FramePick(state, width, height, resized, ds, DrawnId);
    PrologueDrawsNothing(state, width, height, resized);
    PassesDrawIds(state, ds);
    PickNone([Swap], DrawnId);
    assert [] + Ids(ds) + [] == Ids(ds);
  }

  /** The frame's swaps are those of its prologue, its pass work and the final swap. */
  lemma FramePickSwaps(state: State, width: nat, height: nat, resized: bool, ds: seq<Drawable>)
    ensures Pick(FrameTrace(state, width, height, resized, ds), SwapOf)
         == Pick(FramePrologue(state, width, height, resized), SwapOf)
            + Pick(Works(FramePasses(state, ds)), SwapOf) + Pick([Swap], SwapOf)
  {
    FramePick(state, width, height, resized, ds, SwapOf);
  }

  lemma PrologueSwapsNothing(state: State, width: nat, height: nat, resized: bool)
    ensures Pick(FramePrologue(state, width, height, resized), SwapOf) == []
  {
    PrologueIsSetup(state, width, height, resized);
    PickNone(FramePrologue(state, width, height, resized), SwapOf);
  }

  lemma PassesSwapNothing(state: State, ds: seq<Drawable>)
    ensures Pick(Works(FramePasses(state, ds)), SwapOf) == []
  {
    FrameWorksPickNothing(state, ds, SwapOf);
  }

  /** A frame swaps exactly once. */
  lemma FrameSwapsOnce(state: State, width: nat, height: nat, resized: bool, ds: seq<Drawable>)
    ensures Pick(FrameTrace(state, width, height, resized, ds), SwapOf) == [Swap]
  {
    FramePickSwaps(state, width, height, resized, ds);
    PrologueSwapsNothing(state, width, height, resized);
    PassesSwapNothing(state, ds);
    PickAll([Swap], SwapOf);
  }

  /** The swap is the last event of a frame. */
  lemma FrameEndsWithSwap(state: State, width: nat, height: nat, resized: bool, ds: seq<Drawable>)
    ensures |FrameTrace(state, width, height, resized, ds)| > 0
    ensures FrameTrace(state, width, height, resized, ds)[|FrameTrace(state, width, height, resized, ds)| - 1] == Swap
  {
  }

  /** The prologue resizes exactly when asked to, to the window size. */
  lemma PrologueResizes(state: State, width: nat, height: nat, resized: bool)
    ensures Pick(FramePrologue(state, width, height, resized), ResizeOf)
         == if resized then [(width, height)] else []
  {
    var policy := [ SetWindowGrab(state.mouseGrab), SetRelativeMouseMode(state.mouseGrab),
                    SetSwapInterval(state.vsync), Viewport(width, height) ];
    var requests := MatrixRequests(state);
    PickNone(policy, ResizeOf);
    PickNone(requests, ResizeOf);
    if resized {
      var resize := [RendermanResize(width, height), TonemapperResize(width, height)];
      assert FramePrologue(state, width, height, resized) == policy + resize + requests;
      assert Pick(resize, ResizeOf) == [(width, height)] by {
        PickAppend([RendermanResize(width, height)], [TonemapperResize(width, height)], ResizeOf);
        PickAll([RendermanResize(width, height)], ResizeOf);
        PickNone([TonemapperResize(width, height)], ResizeOf);
      }
      PickAppend(policy, resize, ResizeOf);
      PickSkipsSilent(policy + resize, requests, ResizeOf);
    } else {
      assert FramePrologue(state, width, height, resized) == policy + requests;
      PickSkipsSilent(policy, requests, ResizeOf);
    }
  }

  /** The render targets are resized at most once a frame: exactly when the
      window size differs from the stored one, and then to the window size. */
  lemma ResizeOnlyOnChange(state: State, width: nat, height: nat, oldWidth: nat, oldHeight: nat, ds: seq<Drawable>)
    ensures var resized := width != oldWidth || height != oldHeight;
      Pick(FrameTrace(state, width, height, resized, ds), ResizeOf)
      == if resized then [(width, height)] else []
  {
    FrameResizes(state, width, height, width != oldWidth || height != oldHeight, ds);
  }

  /** A frame's resizes are those of its prologue. */
  lemma FrameResizes(state: State, width: nat, height: nat, resized: bool, ds: seq<Drawable>)
    ensures Pick(FrameTrace(state, width, height, resized, ds), ResizeOf)
         == if resized then [(width, height)] else []
  {
    var pre := Pick(FramePrologue(state, width, height, resized), ResizeOf);
    assert Pick(Works(FramePasses(state, ds)), ResizeOf) == [] by {
      PassesResizeNothing(state, ds);
    }
    assert Pick([Swap], ResizeOf) == [] by {
      PickNone([Swap], ResizeOf);
    }
    assert Pick(FrameTrace(state, width, height, resized, ds), ResizeOf) == pre + [] + [] by {
      FramePick(state, width, height, resized, ds, ResizeOf);
    }
    assert pre + [] + [] == pre;
    PrologueResizes(state, width, height, resized);
  }

  lemma PassesResizeNothing(state: State, ds: seq<Drawable>)
    ensures Pick(Works(FramePasses(state, ds)), ResizeOf) == []
  {
    FrameWorksPickNothing(state, ds, ResizeOf);
  }

  /** With default state and no drawables, a frame does the six fixed passes
      in order (geometry, skybox, ambient, sun, point, tone mapping) with no
      lights, then swaps once. */
  lemma DefaultFrame(width: nat, height: nat, resized: bool)
    ensures Pick(FrameTrace(DefaultState, width, height, resized, []), PassWork)
         == [ GeometryBind, SkyboxDraw, AmbientDraw,
              LightingDraw(Sun, None, 0), LightingDraw(Point, None, 0),
              TonemapperDraw, Swap ]
  {
    FramePick(DefaultState, width, height, resized, [], PassWork);
    PrologueWorksNothing(DefaultState, width, height, resized);
    DefaultWorks();
    PickKeepsAll([Swap], PassWork);
  }

  lemma PrologueWorksNothing(state: State, width: nat, height: nat, resized: bool)
    ensures Pick(FramePrologue(state, width, height, resized), PassWork) == []
  {
    PrologueIsSetup(state, width, height, resized);
    PickNone(FramePrologue(state, width, height, resized), PassWork);
  }

  /** With default state and no drawables, the pass bodies are the six fixed ones. */
  lemma DefaultWorks()
    ensures Pick(Works(FramePasses(DefaultState, [])), PassWork)
         == [ GeometryBind, SkyboxDraw, AmbientDraw,
              LightingDraw(Sun, None, 0), LightingDraw(Point, None, 0), TonemapperDraw ]
  {
    var works := [ GeometryBind, SkyboxDraw, AmbientDraw,
                   LightingDraw(Sun, None, 0), LightingDraw(Point, None, 0), TonemapperDraw ];
    FrameWorks(DefaultState, []);
    assert Works(FramePasses(DefaultState, [])) == works;
    PickKeepsAll(works, PassWork);
  }

  /** The skybox matrix leaves out the view translation, so it does not move
      with the camera; the light matrices are the inverse rotation-projection,
      the model-view translation pair, and the full model-view-projection
      translation. (The floating space that serves these requests is taken to
      compose in the fixed order of the Matrix module.) */
  lemma LightAndSkyboxMatrices(projection: Mat, camera: Transform, camera': Transform, obj: Transform, s: Vec3)
    requires camera.rotation == camera'.rotation
    ensures ViewMat(SkyboxMask, projection, camera) == ViewMat(SkyboxMask, projection, camera')
    ensures ObjMat(LightIvpMask, projection, camera, obj, s) == Invert(Mul(projection, Rotate(camera.rotation)))
    ensures ObjMat(LightMvMask, projection, camera, obj, s)
         == Mul(Mul(Identity, ViewTranslation(camera)), ModelTranslation(obj.origin))
    ensures ObjMat(LightMvpMask, projection, camera, obj, s)
         == Mul(Mul(Mul(projection, ViewRotation(camera)), ViewTranslation(camera)), ModelTranslation(obj.origin))
  {
    ViewMatIgnoresCameraPosition(SkyboxMask, projection, camera, camera');
  }

  // -----------------------------------------------------------------------
  // Graphics::objmats.

  /** A std::vector<il_mat>: `size` elements in use at the front of
      `storage`, whose length is the capacity. */
  datatype MatVector = MatVector(size: nat, storage: seq<Mat>) {
    predicate Valid() {
      size <= |storage|
    }

    /** What the vector holds: the elements size() counts and front() reads. */
    function Elements(): (es: seq<Mat>)
      requires Valid()
      ensures |es| == size
      ensures forall k :: 0 <= k < size ==> es[k] == storage[k]
    {
      storage[..size]
    }
  }

  /** A default-constructed vector: no elements, no storage. */
  const EmptyVector: MatVector := MatVector(0, [])

  /** vector::reserve: the capacity grows to at least `n`; the size and the
      elements do not change. The storage it adds is uninitialised, and
      `junk` stands for its contents. */
  function Reserve(v: MatVector, n: nat, junk: Mat): (r: MatVector)
    requires v.Valid()
    ensures r.Valid() && n <= |r.storage|
    ensures r.size == v.size && r.Elements() == v.Elements()
  {
    if n <= |v.storage| then v
    else MatVector(v.size, v.storage + seq(n - |v.storage|, _ => junk))
  }

  /** vector::resize: the vector then holds `n` elements, the old ones first
      and value-initialised ones (`zero`) after them. */
  function ResizeVector(v: MatVector, n: nat, zero: Mat): (r: MatVector)
    requires v.Valid()
    ensures r.Valid() && r.size == n && n <= |r.storage|
    ensures forall k :: 0 <= k < n && k < v.size ==> r.Elements()[k] == v.Elements()[k]
    ensures forall k :: v.size <= k < n ==> r.Elements()[k] == zero
  {
    MatVector(n, Bullet.Resize(v.Elements(), n, zero))
  }

  /** Writing `written` through data(), as ilG_floatspace_objmats does: the
      first |written| cells of the storage change, the size does not. */
  function WriteData(v: MatVector, written: seq<Mat>): (r: MatVector)
    requires v.Valid() && |written| <= |v.storage|
    ensures r.Valid() && r.size == v.size && |r.storage| == |v.storage|
    ensures r.storage[..|written|] == written
    ensures r.storage[|written|..] == v.storage[|written|..]
  {
    MatVector(v.size, written + v.storage[|written|..])
  }

  /** Graphics::objmats as written: reserve `count`, then let the floating
      space write its `count` matrices (`written`) through data(). */
  function ObjMatsAsWritten(written: seq<Mat>, count: nat, junk: Mat): seq<Mat>
    requires |written| == count
  {
    WriteData(Reserve(EmptyVector, count, junk), written).Elements()
  }

  /** As written, the matrices reach the vector's storage but not its
      elements: the vector returned is empty whatever was requested. */
  lemma ObjMatsAsWrittenIsEmpty(written: seq<Mat>, count: nat, junk: Mat)
    requires |written| == count
    ensures WriteData(Reserve(EmptyVector, count, junk), written).storage[..count] == written
    ensures ObjMatsAsWritten(written, count, junk) == []
  {
  }

  /** Callers take front() of a one-object request; as written there is no
      first element to take. */
  lemma ObjMatsAsWrittenHasNoFront(written: seq<Mat>, junk: Mat)
    requires |written| == 1
    ensures |ObjMatsAsWritten(written, 1, junk)| < 1
  {
    ObjMatsAsWrittenIsEmpty(written, 1, junk);
  }

  /** Graphics::objmats as intended: resize `count` (value-initialising each
      element to `zero`), then let the floating space write through data(). */
  function ObjMats(written: seq<Mat>, count: nat, zero: Mat): seq<Mat>
    requires |written| == count
  {
    WriteData(ResizeVector(EmptyVector, count, zero), written).Elements()
  }

  /** As intended, the vector returned holds exactly the matrices the floating
      space wrote, in request order; the value-initialised fill never shows. */
  lemma ObjMatsReturnsWritten(written: seq<Mat>, count: nat, zero: Mat)
    requires |written| == count
    ensures ObjMats(written, count, zero) == written
  {
    var v := WriteData(ResizeVector(EmptyVector, count, zero), written);
    assert v.storage == written;
  }

  /** As intended, a one-object request has a front, and it is the matrix written. */
  lemma ObjMatsFront(written: seq<Mat>, zero: Mat)
    requires |written| == 1
    ensures |ObjMats(written, 1, zero)| == 1 && ObjMats(written, 1, zero)[0] == written[0]
  {
    ObjMatsReturnsWritten(written, 1, zero);
  }

  // -----------------------------------------------------------------------
  // The pipeline object.

  /** One step of the build chain, from step k of BuildOrder: with `t` the
      events so far and `goal` the whole trace, the step's build event (and,
      on failure, its error) extend `t` towards `goal`. */
  lemma ChainAdvance(t: seq<Event>, goal: seq<Event>, oks: seq<bool>, msaa: nat, k: nat, step: BuildStep, errorLabel: string)
    requires |oks| == |BuildOrder| && k < |BuildOrder|
    requires BuildOrder[k] == step && StepLabel(step) == errorLabel
    requires t + ChainTrace(BuildOrder[k..], oks[k..], msaa) == goal
    ensures oks[k] ==> (t + [BuildEvent(step, msaa)]) + ChainTrace(BuildOrder[k + 1..], oks[k + 1..], msaa) == goal
    ensures !oks[k] ==> t + [BuildEvent(step, msaa)] + [LogError(errorLabel)] == goal
  {
    assert BuildOrder[k..][1..] == BuildOrder[k + 1..];
    assert oks[k..][1..] == oks[k + 1..];
    var rest := if oks[k] then ChainTrace(BuildOrder[k + 1..], oks[k + 1..], msaa) else [LogError(errorLabel)];
    assert ChainTrace(BuildOrder[k..], oks[k..], msaa) == [BuildEvent(step, msaa)] + rest;
    Assoc(t, [BuildEvent(step, msaa)], rest);
  }

  /** After the last build step, with every step succeeded, the chain is complete. */
  lemma ChainDone(t: seq<Event>, goal: seq<Event>, oks: seq<bool>, msaa: nat)
    requires |oks| == |BuildOrder|
    requires oks[0] && oks[1] && oks[2] && oks[3] && oks[4]
    requires t + ChainTrace(BuildOrder[|BuildOrder|..], oks[|BuildOrder|..], msaa) == goal
    ensures t == goal
  {
    assert BuildOrder[|BuildOrder|..] == [];
  }

  /** One sky face: with `t` the events so far and `goal` the whole loading
      trace, the face's load (and, on failure, its log line) extend `t`
      towards `goal`. */
  lemma FaceAdvance(t: seq<Event>, goal: seq<Event>, loads: seq<bool>, i: nat)
    requires |loads| == |SkyFiles| && i < |SkyFiles|
    requires t + FacesTrace(loads, i) == goal
    ensures loads[i] ==> (t + [LoadImage(SkyFiles[i])]) + FacesTrace(loads, i + 1) == goal
    ensures !loads[i] ==> t + [LoadImage(SkyFiles[i])] + [Log(SkyFiles[i])] == goal
  {
    var rest := if loads[i] then FacesTrace(loads, i + 1) else [Log(SkyFiles[i])];
    assert FacesTrace(loads, i) == [LoadImage(SkyFiles[i])] + rest;
    Assoc(t, [LoadImage(SkyFiles[i])], rest);
  }

  /** One pass, as FaceAdvance for the pass list. */
  lemma PassAdvance(t: seq<Event>, before: seq<Event>, ps: seq<Pass>, p: Pass)
    requires t == before + PassesTrace(ps)
    ensures t + [PushGroup(p.name), p.work, PopGroup] == before + PassesTrace(ps + [p])
  {
    assert (ps + [p])[..|ps|] == ps;
    Assoc(before, PassesTrace(ps), [PushGroup(p.name), p.work, PopGroup]);
  }

  lemma DrawablePassesSnoc(ds: seq<Drawable>, i: nat)
    requires i < |ds|
    ensures DrawablePasses(ds[..i + 1]) == DrawablePasses(ds[..i]) + [Pass(ds[i].Name(), DrawableDraw(ds[i].id))]
  {
  }

  lemma FramePassesSplit(state: State, ds: seq<Drawable>)
    ensures FramePasses(state, ds)
         == OpeningPasses + DrawablePasses(ds)
            + [Pass("Ambient Lighting", AmbientDraw)]
            + [Pass("Sunlights", LightingDraw(Sun, state.sunlightLights, state.sunlightCount))]
            + [Pass("Point Lights", LightingDraw(Point, state.pointLights, state.pointCount))]
            + [Pass("Tone Mapping", TonemapperDraw)]
  {
  }

  /** The prologue of a frame, as Draw appends it piece by piece. */
  lemma PrologueDone(t: seq<Event>, t0: seq<Event>, state: State, width: nat, height: nat, resized: bool)
    requires t == t0 + [SetWindowGrab(state.mouseGrab), SetRelativeMouseMode(state.mouseGrab)]
                  + [SetSwapInterval(state.vsync), Viewport(width, height)]
                  + (if resized then [RendermanResize(width, height), TonemapperResize(width, height)] else [])
                  + MatrixRequests(state)
    ensures t == t0 + FramePrologue(state, width, height, resized)
  {
    var grab := [SetWindowGrab(state.mouseGrab), SetRelativeMouseMode(state.mouseGrab)];
    var swap := [SetSwapInterval(state.vsync), Viewport(width, height)];
    var resize := if resized then [RendermanResize(width, height), TonemapperResize(width, height)] else [];
    assert grab + swap == [ SetWindowGrab(state.mouseGrab), SetRelativeMouseMode(state.mouseGrab),
                            SetSwapInterval(state.vsync), Viewport(width, height) ];
    Assoc(t0, grab, swap);
    Assoc(t0, grab + swap, resize);
    Assoc(t0, grab + swap + resize, MatrixRequests(state));
  }

  /** The end of a frame: prologue, passes, swap. */
  lemma FrameDone(t: seq<Event>, t0: seq<Event>, before: seq<Event>, state: State, width: nat, height: nat,
                  resized: bool, ds: seq<Drawable>)
    requires before == t0 + FramePrologue(state, width, height, resized)
    requires t == before + PassesTrace(FramePasses(state, ds)) + [Swap]
    ensures t == t0 + FrameTrace(state, width, height, resized, ds)
  {
    var pro := FramePrologue(state, width, height, resized);
    var pt := PassesTrace(FramePasses(state, ds));
    Assoc(t0, pro, pt);
    Assoc(t0, pro + pt, [Swap]);
  }

  /** The end of Init: head, setup, faces, then the cubemap and build chain. */
  lemma InitDone(t: seq<Event>, t0: seq<Event>, beforeFaces: seq<Event>, wasInitialized: bool, flags: Flags, env: InitEnv)
    requires env.WellFormed() && AllSucceed(env.faceLoads)
    requires beforeFaces == t0 + InitHead(wasInitialized) + InitSetup(flags)
    requires t == beforeFaces + FacesTrace(env.faceLoads, 0) + [LoadCubemap] + ChainTrace(BuildOrder, env.builds, flags.msaa)
    ensures t == t0 + InitTrace(wasInitialized, flags, env)
  {
    var head := InitHead(wasInitialized);
    var setup := InitSetup(flags);
    var faces := FacesTrace(env.faceLoads, 0);
    var chain := ChainTrace(BuildOrder, env.builds, flags.msaa);
    Assoc(beforeFaces + faces, [LoadCubemap], chain);
    Assoc(beforeFaces, faces, [LoadCubemap] + chain);
    Assoc(t0 + head, setup, faces + ([LoadCubemap] + chain));
    Assoc(t0, head, setup + (faces + ([LoadCubemap] + chain)));
    Assoc(head, setup, faces + ([LoadCubemap] + chain));
    Assoc(head + setup, faces, [LoadCubemap] + chain);
  }

  /** Init stopped by a failed face: head, setup, faces. */
  lemma InitFaceFailed(t: seq<Event>, t0: seq<Event>, beforeFaces: seq<Event>, wasInitialized: bool, flags: Flags, env: InitEnv)
    requires env.WellFormed() && !AllSucceed(env.faceLoads)
    requires beforeFaces == t0 + InitHead(wasInitialized) + InitSetup(flags)
    requires t == beforeFaces + FacesTrace(env.faceLoads, 0)
    ensures t == t0 + InitTrace(wasInitialized, flags, env)
  {
    var head := InitHead(wasInitialized);
    var setup := InitSetup(flags);
    var faces := FacesTrace(env.faceLoads, 0);
    assert InitTail(flags, env) == [];
    assert InitTrace(wasInitialized, flags, env) == head + setup + faces;
    Assoc(t0 + head, setup, faces);
    Assoc(t0, head, setup + faces);
    Assoc(head, setup, faces);
  }

  class Graphics {
    var initialized: bool
    var drawables: seq<Drawable>
    /** The render manager's stored size. */
    var rmWidth: nat
    var rmHeight: nat
    /** The floating space's projection. */
    var projection: Mat
    /** Calls made so far, oldest first. */
    var trace: seq<Event>

    /** A new pipeline: not initialised, no drawables. The render manager's
        size is unset until Init; it is modelled as 0 x 0. */
    constructor ()
      ensures !initialized && drawables == [] && trace == []
    {
      initialized := false;
      drawables := [];
      rmWidth, rmHeight := 0, 0;
      projection := Identity;
      trace := [];
    }

    /** Registers a drawable at the end of the list. */
    method AddDrawable(d: Drawable)
      modifies this`drawables
      ensures drawables == old(drawables) + [d]
    {
      drawables := drawables + [d];
    }

    /** Releases every owned resource and leaves the uninitialised state. */
    method Free()
      modifies this`trace, this`initialized
      ensures trace == old(trace) + FreeTrace
      ensures !initialized
    {
      trace := trace + [Release(BoxShape), Release(IcoShape), Release(SkyboxPass)];
      trace := trace + [Release(AmbientPass), Release(SunPass), Release(PointPass), Release(TonemapperPass)];
      initialized := false;
    }

    /** Loads the six sky faces in order; the first that fails is logged and
        ends the loading. */
    method LoadSkyFaces(loads: seq<bool>) returns (ok: bool)
      requires |loads| == |SkyFiles|
      modifies this`trace
      ensures ok <==> AllSucceed(loads)
      ensures trace == old(trace) + FacesTrace(loads, 0)
    {
      ghost var goal := old(trace) + FacesTrace(loads, 0);
      var i := 0;
      while i < 6
        invariant 0 <= i <= 6
        invariant forall j :: 0 <= j < i ==> loads[j]
        invariant trace + FacesTrace(loads, i) == goal
      {
        FaceAdvance(trace, goal, loads, i);
        trace := trace + [LoadImage(SkyFiles[i])];
        if !loads[i] {
          trace := trace + [Log(SkyFiles[i])];
          return false;
        }
        assert forall j :: 0 <= j < i + 1 ==> loads[j] by {
          assert loads[i];
        }
        i := i + 1;
      }
      return true;
    }

    /** The build chain: skybox, ambient, sunlighting, lighting, tonemapper;
        the first failure is logged and ends the chain. */
    method BuildPasses(msaa: nat, oks: seq<bool>) returns (ok: bool)
      requires |oks| == |BuildOrder|
      modifies this`trace
      ensures ok <==> AllSucceed(oks)
      ensures trace == old(trace) + ChainTrace(BuildOrder, oks, msaa)
    {
      ghost var goal := old(trace) + ChainTrace(BuildOrder, oks, msaa);
      assert trace + ChainTrace(BuildOrder[0..], oks[0..], msaa) == goal;

      ChainAdvance(trace, goal, oks, msaa, 0, SkyboxStep, "skybox");
      trace := trace + [BuildEvent(SkyboxStep, msaa)];
      if !oks[0] {
        trace := trace + [LogError("skybox")];
        return false;
      }
      ChainAdvance(trace, goal, oks, msaa, 1, AmbientStep, "ambient");
      trace := trace + [BuildEvent(AmbientStep, msaa)];
      if !oks[1] {
        trace := trace + [LogError("ambient")];
        return false;
      }
      ChainAdvance(trace, goal, oks, msaa, 2, SunStep, "sunlighting");
      trace := trace + [BuildEvent(SunStep, msaa)];
      if !oks[2] {
        trace := trace + [LogError("sunlighting")];
        return false;
      }
      ChainAdvance(trace, goal, oks, msaa, 3, PointStep, "lighting");
      trace := trace + [BuildEvent(PointStep, msaa)];
      if !oks[3] {
        trace := trace + [LogError("lighting")];
        return false;
      }
      ChainAdvance(trace, goal, oks, msaa, 4, TonemapperStep, "tonemapper");
      trace := trace + [BuildEvent(TonemapperStep, msaa)];
      if !oks[4] {
        trace := trace + [LogError("tonemapper")];
        return false;
      }
      ChainDone(trace, goal, oks, msaa);
      return true;
    }

    /** Builds (or rebuilds) the pipeline. The state flag is set before any
        build step, so it stays set when a step fails. */
    method Init(flags: Flags, env: InitEnv) returns (ok: bool)
      requires env.WellFormed()
      modifies this
      ensures initialized
      ensures ok == InitSucceeds(env)
      ensures trace == old(trace) + InitTrace(old(initialized), flags, env)
      ensures rmWidth == 800 && rmHeight == 600
      ensures drawables == old(drawables) && projection == old(projection)
    {
      if initialized {
        Free();
      } else {
        trace := trace + [RendermanInit, FloatspaceInit(2)];
      }
      initialized := true;
      ghost var afterHead := trace;

      trace := trace + [RendermanSetup(flags.msaa, flags.hdr), RendermanResize(800, 600)];
      rmWidth, rmHeight := 800, 600;
      ghost var afterResize := trace;
      trace := trace + [FloatspaceBuild, ClampReadColorOff, BuildShape(BoxShape), BuildShape(IcoShape)];
      ghost var beforeFaces := trace;
      assert beforeFaces == old(trace) + InitHead(old(initialized)) + InitSetup(flags) by {
        Assoc(afterHead, [RendermanSetup(flags.msaa, flags.hdr), RendermanResize(800, 600)],
              [FloatspaceBuild, ClampReadColorOff, BuildShape(BoxShape), BuildShape(IcoShape)]);
      }

      var cont := LoadSkyFaces(env.faceLoads);
      if !cont {
        InitFaceFailed(trace, old(trace), beforeFaces, old(initialized), flags, env);
        return false;
      }
      trace := trace + [LoadCubemap];
      ok := BuildPasses(flags.msaa, env.builds);
      InitDone(trace, old(trace), beforeFaces, old(initialized), flags, env);
    }

    /** Emits one frame. `width` and `height` are the window size the window
        reports this frame. */
    method Draw(state: State, width: nat, height: nat)
      modifies this
      ensures trace == old(trace) + FrameTrace(state, width, height,
                                               width != old(rmWidth) || height != old(rmHeight), drawables)
      ensures rmWidth == width && rmHeight == height
      ensures projection == Perspective(state.fov, width, height, state.zmin, state.zfar)
      ensures initialized == old(initialized) && drawables == old(drawables)
    {
      ghost var resized := width != rmWidth || height != rmHeight;
      trace := trace + [SetWindowGrab(state.mouseGrab), SetRelativeMouseMode(state.mouseGrab)];
      trace := trace + [SetSwapInterval(state.vsync), Viewport(width, height)];
      ghost var beforeResize := trace;
      if width != rmWidth || height != rmHeight {
        trace := trace + [RendermanResize(width, height), TonemapperResize(width, height)];
        rmWidth, rmHeight := width, height;
      } else {
        assert trace == beforeResize + [];
      }
      projection := Perspective(state.fov, width, height, state.zmin, state.zfar);
      trace := trace + MatrixRequests(state);
      ghost var before := trace;
      PrologueDone(before, old(trace), state, width, height, resized);

      RunPasses(state);
      trace := trace + [Swap];
      FrameDone(trace, old(trace), before, state, width, height, resized, drawables);
    }

    /** The passes of a frame, each in its debug group: geometry, skybox,
        every drawable in list order, ambient, sun, point, tone mapping. */
    method RunPasses(state: State)
      modifies this`trace
      ensures trace == old(trace) + PassesTrace(FramePasses(state, drawables))
    {
      ghost var ps: seq<Pass> := [];
      PassAdvance(trace, trace, ps, Pass("Geometry", GeometryBind));
      trace := trace + [PushGroup("Geometry"), GeometryBind, PopGroup];
      ps := ps + [Pass("Geometry", GeometryBind)];
      PassAdvance(trace, old(trace), ps, Pass("Skybox", SkyboxDraw));
      trace := trace + [PushGroup("Skybox"), SkyboxDraw, PopGroup];
      ps := ps + [Pass("Skybox", SkyboxDraw)];

      var i := 0;
      while i < |drawables|
        invariant 0 <= i <= |drawables|
        invariant trace == old(trace) + PassesTrace(ps)
        invariant ps == OpeningPasses + DrawablePasses(drawables[..i])
      {
        var d := drawables[i];
        PassAdvance(trace, old(trace), ps, Pass(d.Name(), DrawableDraw(d.id)));
        trace := trace + [PushGroup(d.Name()), DrawableDraw(d.id), PopGroup];
        DrawablePassesSnoc(drawables, i);
        ps := ps + [Pass(d.Name(), DrawableDraw(d.id))];
        i := i + 1;
      }
      assert drawables[..i] == drawables;

      PassAdvance(trace, old(trace), ps, Pass("Ambient Lighting", AmbientDraw));
      trace := trace + [PushGroup("Ambient Lighting"), AmbientDraw, PopGroup];
      ps := ps + [Pass("Ambient Lighting", AmbientDraw)];
      var sun := LightingDraw(Sun, state.sunlightLights, state.sunlightCount);
      PassAdvance(trace, old(trace), ps, Pass("Sunlights", sun));
      trace := trace + [PushGroup("Sunlights"), sun, PopGroup];
      ps := ps + [Pass("Sunlights", sun)];
      var point := LightingDraw(Point, state.pointLights, state.pointCount);
      PassAdvance(trace, old(trace), ps, Pass("Point Lights", point));
      trace := trace + [PushGroup("Point Lights"), point, PopGroup];
      ps := ps + [Pass("Point Lights", point)];
      PassAdvance(trace, old(trace), ps, Pass("Tone Mapping", TonemapperDraw));
      trace := trace + [PushGroup("Tone Mapping"), TonemapperDraw, PopGroup];
      ps := ps + [Pass("Tone Mapping", TonemapperDraw)];
      FramePassesSplit(state, drawables);
    }
  }
}
