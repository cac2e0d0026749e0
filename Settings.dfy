/**
 * The "Settings" panel of ShaderToy_BDF: the render-mode selections and
 * numeric parameters it keeps from frame to frame, and one update cycle of
 * the panel (ShaderToy_BDF.cpp, lines 71-334) as a function from the old
 * values and the operator's edits to the new values, the camera request and
 * whether the shader defines are pushed.
 *
 * Each widget call is an optional edit: None when the operator did not touch
 * the widget this frame, Some(v) when it now holds v. A widget reports a
 * change exactly when the value it leaves differs from the one it was given
 * (the widget library is not part of this model; this is the assumption).
 * Floats are reals: rounding is not modelled.
 */
module Settings {
  import opened Wrappers

  datatype Coloring = Default | StepSize | ShadowStep | SegmentTracing {
    /** The numeric value of the enumerator (`static_cast<uint32_t>`). */
    function Ordinal(): nat {
      match this
      case Default => 0
      case StepSize => 1
      case ShadowStep => 2
      case SegmentTracing => 3
    }
  }

  datatype Scenes = Blobs | Primitives | Sphere | Box | Cylinder | Torus | Test {
    function Ordinal(): nat {
      match this
      case Blobs => 0
      case Primitives => 1
      case Sphere => 2
      case Box => 3
      case Cylinder => 4
      case Torus => 5
      case Test => 6
    }
  }

  datatype Tracers = SdfTrace | BdfTrace | SegmentTrace | TheirSphereTrace

  datatype Shadows = SdfShadow | BdfShadow | NoShadow

  /** The five step-colouring functions of the "Step coloring" radio group. */
  type StepFun = n: nat | n < 5

  datatype Float3 = Float3(x: real, y: real, z: real)
  datatype Int3 = Int3(x: int, y: int, z: int)

  /** A camera position and target that a scene switch asks the camera to take. */
  datatype CameraHint = CameraHint(position: Float3, target: Float3)

  /** Every function-local static of the Settings block, by its role. */
  datatype Config = Config(
    changed: bool,
    // image colouring
    coloring: Coloring,
    stepFun: StepFun,
    colorA: Float3,
    colorB: Float3,
    colorC: Float3,
    colorD: Float3,
    // scene and its payload
    scene: Scenes,
    prevScene: Scenes,
    threshold: real,
    blobRadius: real,
    primitiveData: Float3,
    testPos: Float3,
    repeatNum: Int3,
    repeatDist: Float3,
    showPlane: bool,
    // primary trace
    trace: Tracers,
    primaryMaxIter: int,
    primaryMaxDist: real,
    marchEpsilon: real,
    kappaFactor: real,
    // shadow trace
    shadow: Shadows,
    secondaryMaxIter: int,
    secondaryMaxDist: real,
    secondaryEpsilon: real,
    secondaryMinDist: real,
    secondaryNOffset: real)

  /**
   * What the operator did to the panel in one frame: whether the "Settings"
   * group is open, and one optional edit per widget. `primitive` is the
   * size slider of the current scene, which writes only the components that
   * scene's slider shows.
   */
  datatype GuiInput = GuiInput(
    open: bool,
    coloring: Option<Coloring>,
    stepFun: Option<StepFun>,
    colorA: Option<Float3>,
    colorB: Option<Float3>,
    colorC: Option<Float3>,
    colorD: Option<Float3>,
    scene: Option<Scenes>,
    threshold: Option<real>,
    blobRadius: Option<real>,
    primitive: Option<Float3>,
    testPos: Option<Float3>,
    repeatNum: Option<Int3>,
    repeatDist: Option<Float3>,
    showPlane: Option<bool>,
    trace: Option<Tracers>,
    primaryMaxIter: Option<int>,
    primaryMaxDist: Option<real>,
    marchEpsilon: Option<real>,
    kappaFactor: Option<real>,
    shadow: Option<Shadows>,
    secondaryMaxIter: Option<int>,
    secondaryMaxDist: Option<real>,
    secondaryMinDist: Option<real>,
    secondaryEpsilon: Option<real>,
    secondaryNOffset: Option<real>)

  /** A frame in which the open panel is left alone. */
  const Idle := GuiInput(true, None, None, None, None, None, None, None, None, None, None, None, None, None,
                         None, None, None, None, None, None, None, None, None, None, None, None)

  /** The values the statics start with. */
  const Initial := Config(
    true,
    Default, 4,
    Float3(93.0 / 255.0, 127.0 / 255.0, 232.0 / 255.0),
    Float3(92.0 / 255.0, 236.0 / 255.0, 220.0 / 255.0),
    Float3(241.0 / 255.0, 222.0 / 255.0, 100.0 / 255.0),
    Float3(220.0 / 255.0, 94.0 / 255.0, 75.0 / 255.0),
    Primitives, Primitives, 0.5, 4.0, Float3(1.0, 1.0, 1.0), Float3(0.0, 0.0, 0.0),
    Int3(1000, 0, 1000), Float3(4.0, 4.0, 4.0), true,
    SdfTrace, 512, 500.0, 0.1, 2.0,
    SdfShadow, 256, 100.0, 0.001, 0.01, 0.01)

  datatype Edited<T> = Edited(value: T, changed: bool)

  /** One widget call: the value it leaves and whether it reports a change. */
  function Widget<T(==)>(current: T, pick: Option<T>): (r: Edited<T>)
    ensures r.changed <==> r.value != current
    ensures r.value == if pick.Some? then pick.value else current
  {
    match pick
    case None => Edited(current, false)
    case Some(v) => Edited(v, v != current)
  }

  /** The primitive-size slider of `scene`: which components of the data it writes. */
  function PrimitiveSlider(scene: Scenes, current: Float3, pick: Option<Float3>): (r: Edited<Float3>)
    ensures r.changed <==> r.value != current
    ensures pick.None? || scene in {Blobs, Primitives} ==> r.value == current
    ensures scene == Sphere ==> r.value.x == current.x && r.value.z == current.z
    ensures scene in {Cylinder, Torus} ==> r.value.z == current.z
    // The components the slider shows take the picked value.
    ensures pick.Some? && scene == Sphere ==> r.value.y == pick.value.y
    ensures pick.Some? && scene in {Cylinder, Torus} ==> r.value.x == pick.value.x && r.value.y == pick.value.y
    ensures pick.Some? && scene in {Box, Test} ==> r.value == pick.value
  {
    match pick
    case None => Edited(current, false)
    case Some(v) =>
      var w := match scene
        case Sphere => current.(y := v.y)
        case Box => v
        case Cylinder => current.(x := v.x, y := v.y)
        case Torus => current.(x := v.x, y := v.y)
        case Test => v
        case _ => current;
      Edited(w, w != current)
  }

  /** The shadow tracer of the same family as `trace`. */
  function DeriveShadow(trace: Tracers): (s: Shadows)
    ensures s != NoShadow
    ensures s == SdfShadow <==> trace == SdfTrace
  {
    if trace == SdfTrace then SdfShadow else BdfShadow
  }

  /** The tracer kept when the scene changes to Primitives. */
  function PrimitivesTracer(trace: Tracers): (t: Tracers)
    ensures t in {SdfTrace, BdfTrace}
    ensures trace in {SdfTrace, BdfTrace} ==> t == trace
    ensures trace == TheirSphereTrace ==> t == SdfTrace
    ensures trace == SegmentTrace ==> t == BdfTrace
  {
    match trace
    case TheirSphereTrace => SdfTrace
    case SegmentTrace => BdfTrace
    case _ => trace
  }

  /** The camera the "Reset camera" button sets (lines 64-65). */
  const ResetCamera := CameraHint(Float3(2.0, 1.25, 1.5), Float3(0.0, 0.0, 0.0))

  /**
   * The camera position and target each scene asks for when it is selected:
   * the primitive scenes go back to the reset camera, and no scene asks to
   * look from the point it looks at.
   */
  function SceneCamera(scene: Scenes): (r: CameraHint)
    ensures r.position != r.target
    ensures scene != Blobs && scene != Primitives <==> r == ResetCamera
  {
    match scene
    case Blobs => CameraHint(Float3(0.0, 3.5, 7.0), Float3(0.0, 2.2, 0.0))
    case Primitives => CameraHint(Float3(6.0, 3.0, 4.0), Float3(0.0, 0.0, 0.5))
    case _ => CameraHint(Float3(2.0, 1.25, 1.5), Float3(0.0, 0.0, 0.0))
  }

  // ---------------------------------------------------------------------
  // Field groups, used to say what a block leaves alone.

  predicate SameColoring(c: Config, d: Config) {
    c.coloring == d.coloring && c.stepFun == d.stepFun &&
    c.colorA == d.colorA && c.colorB == d.colorB && c.colorC == d.colorC && c.colorD == d.colorD
  }

  predicate SameScenePayload(c: Config, d: Config) {
    c.threshold == d.threshold && c.blobRadius == d.blobRadius &&
    c.primitiveData == d.primitiveData && c.testPos == d.testPos &&
    c.repeatNum == d.repeatNum && c.repeatDist == d.repeatDist && c.showPlane == d.showPlane
  }

  predicate SameTraceParams(c: Config, d: Config) {
    c.primaryMaxIter == d.primaryMaxIter && c.primaryMaxDist == d.primaryMaxDist &&
    c.marchEpsilon == d.marchEpsilon && c.kappaFactor == d.kappaFactor
  }

  predicate SameShadowParams(c: Config, d: Config) {
    c.secondaryMaxIter == d.secondaryMaxIter && c.secondaryMaxDist == d.secondaryMaxDist &&
    c.secondaryEpsilon == d.secondaryEpsilon && c.secondaryMinDist == d.secondaryMinDist &&
    c.secondaryNOffset == d.secondaryNOffset
  }

  /** Scene, tracer, shadow and every numeric parameter of theirs agree. */
  predicate SameSceneTraceShadow(c: Config, d: Config) {
    c.scene == d.scene && c.trace == d.trace && c.shadow == d.shadow &&
    SameScenePayload(c, d) && SameTraceParams(c, d) && SameShadowParams(c, d)
  }

  /**
   * What holds of every state the panel can reach: Blobs and step-size
   * colouring have no shadow pass, and the remembered previous scene is the
   * current one.
   */
  predicate Consistent(c: Config) {
    (c.scene == Blobs ==> c.shadow == NoShadow) &&
    (c.coloring == StepSize ==> c.shadow == NoShadow) &&
    c.prevScene == c.scene
  }

  // ---------------------------------------------------------------------
  // The blocks of one update cycle, in source order. Each returns the new
  // values; `changed` accumulates every change a widget reports.

  /** The step-function radio group and the palette colours it shows (lines 91-106). */
  function StepColoring(c: Config, e: GuiInput): (r: Config)
    ensures r == c.(changed := r.changed, stepFun := r.stepFun,
                    colorA := r.colorA, colorB := r.colorB, colorC := r.colorC, colorD := r.colorD)
    ensures r.changed <==> c.changed || !SameColoring(c, r)
    ensures r.stepFun == if e.stepFun.Some? then e.stepFun.value else c.stepFun
    ensures r.colorA == if r.stepFun >= 2 && e.colorA.Some? then e.colorA.value else c.colorA
    ensures r.colorB == if r.stepFun >= 2 && e.colorB.Some? then e.colorB.value else c.colorB
    ensures r.colorC == if r.stepFun >= 3 && e.colorC.Some? then e.colorC.value else c.colorC
    ensures r.colorD == if r.stepFun == 4 && e.colorD.Some? then e.colorD.value else c.colorD
  {
    var sf := Widget(c.stepFun, e.stepFun);
    var a := if sf.value >= 2 then Widget(c.colorA, e.colorA) else Edited(c.colorA, false);
    var b := if sf.value >= 2 then Widget(c.colorB, e.colorB) else Edited(c.colorB, false);
    var cc := if sf.value >= 3 then Widget(c.colorC, e.colorC) else Edited(c.colorC, false);
    var d := if sf.value == 4 then Widget(c.colorD, e.colorD) else Edited(c.colorD, false);
    c.(stepFun := sf.value, colorA := a.value, colorB := b.value, colorC := cc.value, colorD := d.value,
       changed := c.changed || sf.changed || a.changed || b.changed || cc.changed || d.changed)
  }

  /** The colouring radio group and, for the step colourings, the step function and its colours. */
  function ColoringBlock(c: Config, e: GuiInput): (r: (Config, bool))
    ensures r.1 <==> r.0.coloring != c.coloring
    ensures r.0.coloring == if e.coloring.Some? then e.coloring.value else c.coloring
    ensures r.0.changed <==> c.changed || !SameColoring(c, r.0)
    ensures r.0.coloring !in {StepSize, ShadowStep} ==> SameColoring(c, r.0.(coloring := c.coloring))
    ensures r.0 == c.(changed := r.0.changed, coloring := r.0.coloring, stepFun := r.0.stepFun,
                      colorA := r.0.colorA, colorB := r.0.colorB, colorC := r.0.colorC, colorD := r.0.colorD)
    // Under a step colouring the step function takes its pick, and it decides which colours are shown.
    ensures r.0.stepFun == if r.0.coloring in {StepSize, ShadowStep} && e.stepFun.Some? then e.stepFun.value else c.stepFun
    ensures r.0.colorA == if r.0.coloring in {StepSize, ShadowStep} && r.0.stepFun >= 2 && e.colorA.Some? then e.colorA.value else c.colorA
    ensures r.0.colorB == if r.0.coloring in {StepSize, ShadowStep} && r.0.stepFun >= 2 && e.colorB.Some? then e.colorB.value else c.colorB
    ensures r.0.colorC == if r.0.coloring in {StepSize, ShadowStep} && r.0.stepFun >= 3 && e.colorC.Some? then e.colorC.value else c.colorC
    ensures r.0.colorD == if r.0.coloring in {StepSize, ShadowStep} && r.0.stepFun == 4 && e.colorD.Some? then e.colorD.value else c.colorD
  {
    var col := Widget(c.coloring, e.coloring);
    var c1 := c.(coloring := col.value, changed := c.changed || col.changed);
    if col.value == StepSize || col.value == ShadowStep then (StepColoring(c1, e), col.changed) else (c1, col.changed)
  }

  /** The sliders of the selected scene, as the `switch (sceneID)` shows them. */
  function SceneSliders(c: Config, e: GuiInput): (r: Config)
    ensures r == c.(threshold := r.threshold, blobRadius := r.blobRadius, primitiveData := r.primitiveData,
                    testPos := r.testPos, changed := r.changed)
    ensures r.changed <==> c.changed || !SameScenePayload(c, r)
    ensures r.threshold == if c.scene == Blobs && e.threshold.Some? then e.threshold.value else c.threshold
    ensures r.blobRadius == if c.scene == Blobs && e.blobRadius.Some? then e.blobRadius.value else c.blobRadius
    ensures r.testPos == if c.scene == Test && e.testPos.Some? then e.testPos.value else c.testPos
    ensures r.primitiveData == PrimitiveSlider(c.scene, c.primitiveData, e.primitive).value
  {
    match c.scene
    case Blobs =>
      var t := Widget(c.threshold, e.threshold);
      var br := Widget(c.blobRadius, e.blobRadius);
      c.(threshold := t.value, blobRadius := br.value, changed := c.changed || t.changed || br.changed)
    case Primitives =>
      c
    case Test =>
      var p := PrimitiveSlider(Test, c.primitiveData, e.primitive);
      var tp := Widget(c.testPos, e.testPos);
      c.(primitiveData := p.value, testPos := tp.value, changed := c.changed || p.changed || tp.changed)
    case _ =>
      var p := PrimitiveSlider(c.scene, c.primitiveData, e.primitive);
      c.(primitiveData := p.value, changed := c.changed || p.changed)
  }

  /** What a newly selected scene sets, besides the camera: the `if (changedScene)` branches. */
  function SwitchDefaults(c: Config): (r: Config)
    ensures r == c.(primitiveData := r.primitiveData, trace := r.trace, primaryMaxIter := r.primaryMaxIter,
                    primaryMaxDist := r.primaryMaxDist, shadow := r.shadow)
    ensures r.trace == if c.scene == Primitives then PrimitivesTracer(c.trace) else c.trace
    ensures r.primaryMaxIter == if c.scene == Blobs then 150 else c.primaryMaxIter
    ensures r.primaryMaxDist == if c.scene == Blobs then 60.0 else c.primaryMaxDist
    ensures r.shadow == if c.scene == Blobs then NoShadow else c.shadow
    ensures r.primitiveData ==
              match c.scene
              case Sphere => c.primitiveData.(y := 0.7)
              case Box | Test => Float3(0.4, 0.5, 0.6)
              case Cylinder => c.primitiveData.(x := 0.6, y := 0.6)
              case Torus => c.primitiveData.(x := 0.9, y := 0.3)
              case _ => c.primitiveData
  {
    match c.scene
    case Blobs => c.(primaryMaxIter := 150, primaryMaxDist := 60.0, shadow := NoShadow)
    case Primitives => c.(trace := PrimitivesTracer(c.trace))
    case Sphere => c.(primitiveData := c.primitiveData.(y := 0.7))
    case Box => c.(primitiveData := Float3(0.4, 0.5, 0.6))
    case Cylinder => c.(primitiveData := c.primitiveData.(x := 0.6, y := 0.6))
    case Torus => c.(primitiveData := c.primitiveData.(x := 0.9, y := 0.3))
    case Test => c.(primitiveData := Float3(0.4, 0.5, 0.6))
  }

  /** The `switch (sceneID)` of the scene block: the new scene's sliders and, on a switch, its defaults. */
  function SceneDefaults(c: Config, e: GuiInput, changedScene: bool): (r: Config)
    ensures SameColoring(c, r) && r.scene == c.scene && r.prevScene == c.prevScene
    ensures r.trace == if changedScene && c.scene == Primitives then PrimitivesTracer(c.trace) else c.trace
    ensures r.primaryMaxIter == if changedScene && c.scene == Blobs then 150 else c.primaryMaxIter
    ensures r.primaryMaxDist == if changedScene && c.scene == Blobs then 60.0 else c.primaryMaxDist
    ensures r.shadow == if changedScene && c.scene == Blobs then NoShadow else c.shadow
    ensures r.marchEpsilon == c.marchEpsilon && r.kappaFactor == c.kappaFactor && SameShadowParams(c, r)
    ensures r.repeatNum == c.repeatNum && r.repeatDist == c.repeatDist && r.showPlane == c.showPlane
    ensures changedScene && c.scene in {Box, Test} ==> r.primitiveData == Float3(0.4, 0.5, 0.6)
    ensures changedScene && c.scene == Sphere ==> r.primitiveData.y == 0.7
    ensures changedScene && c.scene == Cylinder ==> r.primitiveData.x == 0.6 && r.primitiveData.y == 0.6
    ensures changedScene && c.scene == Torus ==> r.primitiveData.x == 0.9 && r.primitiveData.y == 0.3
    ensures c.changed ==> r.changed
    ensures !changedScene ==> (r.changed <==> c.changed || !SameScenePayload(c, r))
    // Each scene's sliders act only in that scene, and take their edits.
    ensures r.threshold == if c.scene == Blobs && e.threshold.Some? then e.threshold.value else c.threshold
    ensures r.blobRadius == if c.scene == Blobs && e.blobRadius.Some? then e.blobRadius.value else c.blobRadius
    ensures r.testPos == if c.scene == Test && e.testPos.Some? then e.testPos.value else c.testPos
    ensures !changedScene ==> r.primitiveData == PrimitiveSlider(c.scene, c.primitiveData, e.primitive).value
    // A switch sets only the components of the scene's default.
    ensures changedScene && c.scene in {Blobs, Primitives} ==> r.primitiveData == c.primitiveData
    ensures changedScene && c.scene == Sphere ==> r.primitiveData.x == c.primitiveData.x && r.primitiveData.z == c.primitiveData.z
    ensures changedScene && c.scene in {Cylinder, Torus} ==> r.primitiveData.z == c.primitiveData.z
  {
    var c1 := SceneSliders(c, e);
    if changedScene then SwitchDefaults(c1) else c1
  }

  /** The repetition sliders and ground-plane checkbox shown for Sphere and the scenes after it. */
  function RepetitionBlock(c: Config, e: GuiInput): (r: Config)
    ensures r == c.(repeatNum := r.repeatNum, repeatDist := r.repeatDist, showPlane := r.showPlane, changed := r.changed)
    ensures r.changed <==> c.changed || r.repeatNum != c.repeatNum || r.repeatDist != c.repeatDist || r.showPlane != c.showPlane
    ensures c.scene.Ordinal() < Sphere.Ordinal() ==> r == c
    ensures Sphere.Ordinal() <= c.scene.Ordinal() ==>
              r.repeatNum == (if e.repeatNum.Some? then e.repeatNum.value else c.repeatNum) &&
              r.repeatDist == (if e.repeatDist.Some? then e.repeatDist.value else c.repeatDist) &&
              r.showPlane == (if e.showPlane.Some? then e.showPlane.value else c.showPlane)
  {
    if Sphere.Ordinal() <= c.scene.Ordinal() then
      var n := Widget(c.repeatNum, e.repeatNum);
      var d := Widget(c.repeatDist, e.repeatDist);
      var p := Widget(c.showPlane, e.showPlane);
      c.(repeatNum := n.value, repeatDist := d.value, showPlane := p.value,
         changed := c.changed || n.changed || d.changed || p.changed)
    else
      c
  }

  /** Leaving Blobs restores the long-range profile and re-enables a shadow of the tracer's family. */
  function LeaveBlobs(c: Config, changedScene: bool): (r: Config)
    ensures changedScene && c.prevScene == Blobs && c.scene != Blobs ==>
              r == c.(primaryMaxIter := 256, primaryMaxDist := 500.0, shadow := DeriveShadow(c.trace))
    ensures !(changedScene && c.prevScene == Blobs && c.scene != Blobs) ==> r == c
  {
    if changedScene && c.prevScene == Blobs && c.scene != Blobs then
      c.(primaryMaxIter := 256, primaryMaxDist := 500.0, shadow := DeriveShadow(c.trace))
    else
      c
  }

  /** Lines 133-223: the scene radio group, the scene's defaults, repetition, leaving Blobs. */
  function SceneBlock(c: Config, e: GuiInput): (r: (Config, bool, Option<CameraHint>))
    ensures r.1 <==> r.0.scene != c.scene
    ensures r.0.scene == if e.scene.Some? then e.scene.value else c.scene
    ensures r.2 == if r.1 then Some(SceneCamera(r.0.scene)) else None
    ensures SameColoring(c, r.0) && r.0.prevScene == c.prevScene
    ensures r.0.trace == if r.1 && r.0.scene == Primitives then PrimitivesTracer(c.trace) else c.trace
    ensures r.0.primaryMaxIter ==
              if r.1 && r.0.scene == Blobs then 150
              else if r.1 && c.prevScene == Blobs then 256
              else c.primaryMaxIter
    ensures r.0.primaryMaxDist ==
              if r.1 && r.0.scene == Blobs then 60.0
              else if r.1 && c.prevScene == Blobs then 500.0
              else c.primaryMaxDist
    ensures r.0.shadow ==
              if r.1 && r.0.scene == Blobs then NoShadow
              else if r.1 && c.prevScene == Blobs then DeriveShadow(r.0.trace)
              else c.shadow
    ensures r.0.marchEpsilon == c.marchEpsilon && r.0.kappaFactor == c.kappaFactor && SameShadowParams(c, r.0)
    ensures r.1 ==> r.0.changed
    ensures !r.1 ==> (r.0.changed <==> c.changed || !SameScenePayload(c, r.0))
  {
    var sc := Widget(c.scene, e.scene);
    var c1 := c.(scene := sc.value, changed := c.changed || sc.changed);
    var c2 := SceneDefaults(c1, e, sc.changed);
    var c3 := RepetitionBlock(c2, e);
    var c4 := LeaveBlobs(c3, sc.changed);
    (c4, sc.changed, if sc.changed then Some(SceneCamera(sc.value)) else None)
  }

  /** Lines 227-251: the tracer radio group and the primary-trace sliders. */
  function TraceBlock(c: Config, e: GuiInput): (r: (Config, bool))
    ensures r.1 <==> r.0.trace != c.trace
    ensures c.scene != Blobs && r.1 ==> r.0.trace in {SdfTrace, BdfTrace}
    ensures e.trace.None? ==> r.0.trace == c.trace
    ensures c.scene == Blobs && e.trace.Some? ==> r.0.trace == e.trace.value
    // Outside Blobs only the first two buttons are offered: an SDF or BDF pick takes effect, the others do not.
    ensures c.scene != Blobs && e.trace in {Some(SdfTrace), Some(BdfTrace)} ==> r.0.trace == e.trace.value
    ensures c.scene != Blobs && e.trace in {Some(SegmentTrace), Some(TheirSphereTrace)} ==> r.0.trace == c.trace
    ensures r.0.primaryMaxIter == if e.primaryMaxIter.Some? then e.primaryMaxIter.value else c.primaryMaxIter
    ensures r.0.primaryMaxDist == if e.primaryMaxDist.Some? then e.primaryMaxDist.value else c.primaryMaxDist
    // The march epsilon is shown for segment and their-sphere tracing, the kappa factor for segment tracing.
    ensures r.0.marchEpsilon ==
              if r.0.trace in {SegmentTrace, TheirSphereTrace} && e.marchEpsilon.Some? then e.marchEpsilon.value else c.marchEpsilon
    ensures r.0.kappaFactor == if r.0.trace == SegmentTrace && e.kappaFactor.Some? then e.kappaFactor.value else c.kappaFactor
    ensures r.0 == c.(trace := r.0.trace, primaryMaxIter := r.0.primaryMaxIter, primaryMaxDist := r.0.primaryMaxDist,
                      marchEpsilon := r.0.marchEpsilon, kappaFactor := r.0.kappaFactor, changed := r.0.changed)
    ensures r.0.changed <==> c.changed || !SameTraceParams(c, r.0) || r.1
  {
    // Outside Blobs the group holds only the first two buttons.
    var pick := if c.scene == Blobs || e.trace == Some(SdfTrace) || e.trace == Some(BdfTrace) then e.trace else None;
    var tr := Widget(c.trace, pick);
    var it := Widget(c.primaryMaxIter, e.primaryMaxIter);
    var di := Widget(c.primaryMaxDist, e.primaryMaxDist);
    var c1 := c.(trace := tr.value, primaryMaxIter := it.value, primaryMaxDist := di.value,
                 changed := c.changed || tr.changed || it.changed || di.changed);
    var me := if c1.trace == SegmentTrace || c1.trace == TheirSphereTrace
              then Widget(c1.marchEpsilon, e.marchEpsilon) else Edited(c1.marchEpsilon, false);
    var kf := if c1.trace == SegmentTrace then Widget(c1.kappaFactor, e.kappaFactor) else Edited(c1.kappaFactor, false);
    (c1.(marchEpsilon := me.value, kappaFactor := kf.value, changed := c1.changed || me.changed || kf.changed), tr.changed)
  }

  /** Lines 254-280: shadow re-derivation, forced no-shadow or the shadow radio group, shadow sliders. */
  function ShadowBlock(c: Config, e: GuiInput, changedColoring: bool, traceChanged: bool): (r: Config)
    ensures c.scene == Blobs || c.coloring == StepSize ==> r.shadow == NoShadow
    ensures !(c.scene == Blobs || c.coloring == StepSize) && e.shadow.Some? ==> r.shadow == e.shadow.value
    ensures !(c.scene == Blobs || c.coloring == StepSize) && e.shadow.None? ==>
              r.shadow == (if changedColoring && c.coloring == ShadowStep then DeriveShadow(c.trace)
                           else if traceChanged && c.shadow != NoShadow then DeriveShadow(c.trace)
                           else c.shadow)
    ensures r == c.(shadow := r.shadow, secondaryMaxIter := r.secondaryMaxIter, secondaryMaxDist := r.secondaryMaxDist,
                    secondaryMinDist := r.secondaryMinDist, secondaryEpsilon := r.secondaryEpsilon,
                    secondaryNOffset := r.secondaryNOffset, changed := r.changed)
    ensures r.shadow == NoShadow ==> SameShadowParams(c, r)
    ensures c.scene == Blobs || c.coloring == StepSize ==> (r.changed <==> c.changed)
    ensures !changedColoring && !traceChanged && !(c.scene == Blobs || c.coloring == StepSize) ==>
              (r.changed <==> c.changed || r.shadow != c.shadow || !SameShadowParams(c, r))
    ensures c.changed ==> r.changed
    ensures !SameShadowParams(c, r) ==> r.changed
  {
    var s1 := if changedColoring && c.coloring == ShadowStep then DeriveShadow(c.trace) else c.shadow;
    var s2 := if traceChanged && s1 != NoShadow then DeriveShadow(c.trace) else s1;
    var c1 :=
      if c.scene == Blobs || c.coloring == StepSize then
        c.(shadow := NoShadow)
      else
        var sh := Widget(s2, e.shadow);
        c.(shadow := sh.value, changed := c.changed || sh.changed);
    ShadowSliders(c1, e)
  }

  /** Lines 273-280: the shadow-trace sliders, shown only while a shadow tracer is selected. */
  function ShadowSliders(c: Config, e: GuiInput): (r: Config)
    ensures r == c.(secondaryMaxIter := r.secondaryMaxIter, secondaryMaxDist := r.secondaryMaxDist,
                    secondaryMinDist := r.secondaryMinDist, secondaryEpsilon := r.secondaryEpsilon,
                    secondaryNOffset := r.secondaryNOffset, changed := r.changed)
    ensures c.shadow == NoShadow ==> r == c
    ensures r.changed <==> c.changed || !SameShadowParams(c, r)
    ensures c.shadow != NoShadow ==>
              r.secondaryMaxIter == (if e.secondaryMaxIter.Some? then e.secondaryMaxIter.value else c.secondaryMaxIter) &&
              r.secondaryMaxDist == (if e.secondaryMaxDist.Some? then e.secondaryMaxDist.value else c.secondaryMaxDist) &&
              r.secondaryMinDist == (if e.secondaryMinDist.Some? then e.secondaryMinDist.value else c.secondaryMinDist) &&
              r.secondaryEpsilon == (if e.secondaryEpsilon.Some? then e.secondaryEpsilon.value else c.secondaryEpsilon) &&
              r.secondaryNOffset == (if e.secondaryNOffset.Some? then e.secondaryNOffset.value else c.secondaryNOffset)
  {
    if c.shadow != NoShadow then
      var mi := Widget(c.secondaryMaxIter, e.secondaryMaxIter);
      var md := Widget(c.secondaryMaxDist, e.secondaryMaxDist);
      var mn := Widget(c.secondaryMinDist, e.secondaryMinDist);
      var ep := Widget(c.secondaryEpsilon, e.secondaryEpsilon);
      var no := Widget(c.secondaryNOffset, e.secondaryNOffset);
      c.(secondaryMaxIter := mi.value, secondaryMaxDist := md.value, secondaryMinDist := mn.value,
         secondaryEpsilon := ep.value, secondaryNOffset := no.value,
         changed := c.changed || mi.changed || md.changed || mn.changed || ep.changed || no.changed)
    else
      c
  }

  /** Lines 283-329: when anything changed the defines are pushed and the scene remembered; the flag is reset. */
  function EmitBlock(c: Config): (r: (Config, bool))
    ensures r.1 == c.changed
    ensures !r.0.changed
    ensures r.0.prevScene == if r.1 then c.scene else c.prevScene
    ensures r.0 == c.(changed := false, prevScene := r.0.prevScene)
  {
    if c.changed then (c.(prevScene := c.scene, changed := false), true)
    else (c.(changed := false), false)
  }

  datatype StepResult = StepResult(config: Config, emitted: bool, camera: Option<CameraHint>)

  /** One update cycle of the Settings panel. */
  function Reconcile(c: Config, e: GuiInput): (r: StepResult)
    // A collapsed group runs none of the block.
    ensures !e.open ==> r == StepResult(c, false, None)
    // The dirty flag is always reset, and a set flag always emits.
    ensures e.open ==> !r.config.changed && (c.changed ==> r.emitted)
    // Emission remembers the scene; otherwise the remembered scene is kept.
    ensures r.config.prevScene == if r.emitted then r.config.scene else c.prevScene
    // A colouring change alone emits.
    ensures r.config.coloring != c.coloring ==> r.emitted
    // Segment-tracing colouring freezes scene, tracer, shadow and their parameters.
    ensures r.config.coloring == SegmentTracing ==> SameSceneTraceShadow(c, r.config) && r.camera == None
    // Blobs and step-size colouring force the shadow pass off.
    ensures e.open && r.config.coloring != SegmentTracing ==>
              (r.config.scene == Blobs ==> r.config.shadow == NoShadow) &&
              (r.config.coloring == StepSize ==> r.config.shadow == NoShadow)
    ensures Consistent(c) ==> Consistent(r.config)
    // Only a switch to Primitives remaps the tracer; outside Blobs an edit picks SDF or BDF only.
    ensures e.trace.None? ==>
              r.config.trace == if r.config.scene != c.scene && r.config.scene == Primitives
                                then PrimitivesTracer(c.trace) else c.trace
    ensures r.config.scene != Blobs && r.config.trace != c.trace ==> r.config.trace in {SdfTrace, BdfTrace}
    // The Blobs range profile and its undoing.
    ensures e.primaryMaxIter.None? ==>
              r.config.primaryMaxIter ==
                if r.config.scene != c.scene && r.config.scene == Blobs then 150
                else if r.config.scene != c.scene && c.prevScene == Blobs then 256
                else c.primaryMaxIter
    ensures e.primaryMaxDist.None? ==>
              r.config.primaryMaxDist ==
                if r.config.scene != c.scene && r.config.scene == Blobs then 60.0
                else if r.config.scene != c.scene && c.prevScene == Blobs then 500.0
                else c.primaryMaxDist
    // The panel emits exactly when its flag was set or some value changed.
    ensures e.open && Consistent(c) ==> (r.emitted <==> c.changed || r.config != c.(changed := false))
    // Shadow re-derivation: selecting shadow-step colouring, or changing the tracer while shadows are on.
    ensures e.shadow.None? && c.coloring != ShadowStep && r.config.coloring == ShadowStep && r.config.scene != Blobs ==>
              r.config.shadow == DeriveShadow(r.config.trace)
    ensures e.shadow.None? && r.config.scene == c.scene && r.config.coloring == c.coloring && r.config.trace != c.trace &&
            r.config.scene != Blobs && r.config.coloring != StepSize ==>
              r.config.shadow == if c.shadow == NoShadow then NoShadow else DeriveShadow(r.config.trace)
    // Leaving Blobs turns the shadow pass back on, in the tracer's family.
    ensures e.shadow.None? && e.trace.None? && c.prevScene == Blobs && r.config.scene != c.scene && r.config.scene != Blobs ==>
              r.config.shadow == if r.config.coloring == StepSize then NoShadow else DeriveShadow(r.config.trace)
    // The camera is asked to move exactly when the scene changes.
    ensures r.camera == if r.config.scene != c.scene then Some(SceneCamera(r.config.scene)) else None
  {
    if !e.open then StepResult(c, false, None)
    else
      var (c1, changedColoring) := ColoringBlock(c, e);
      if c1.coloring != SegmentTracing then
        var (c2, _, camera) := SceneBlock(c1, e);
        var (c3, traceChanged) := TraceBlock(c2, e);
        var c4 := ShadowBlock(c3, e, changedColoring, traceChanged);
        var (c5, emitted) := EmitBlock(c4);
        StepResult(c5, emitted, camera)
      else
        var (c5, emitted) := EmitBlock(c1);
        StepResult(c5, emitted, None)
  }

  // ---------------------------------------------------------------------
  // Many frames.

  /** The values after one update cycle per frame of `inputs`, in order. */
  function Run(c: Config, inputs: seq<GuiInput>): Config
    decreases |inputs|
  {
    if |inputs| == 0 then c else Run(Reconcile(c, inputs[0]).config, inputs[1..])
  }

  lemma InitialConsistent()
    ensures Consistent(Initial)
  {
  }

  /** Every update cycle keeps the panel consistent, so every frame sequence does. */
  lemma {:induction false} RunConsistent(c: Config, inputs: seq<GuiInput>)
    requires Consistent(c)
    ensures Consistent(Run(c, inputs))
    decreases |inputs|
  {
    if |inputs| > 0 {
      RunConsistent(Reconcile(c, inputs[0]).config, inputs[1..]);
    }
  }

  /** Every state reachable from the initial values is consistent. */
  lemma ReachableConsistent(inputs: seq<GuiInput>)
    ensures Consistent(Run(Initial, inputs))
  {
    InitialConsistent();
    RunConsistent(Initial, inputs);
  }

  /**
   * After an update cycle of the open panel, a frame without edits changes
   * nothing, pushes nothing and does not move the camera.
   */
  lemma IdleAfterUpdate(c: Config, e: GuiInput)
    requires e.open
    ensures var d := Reconcile(c, e).config; Reconcile(d, Idle) == StepResult(d, false, None)
  {
    IdleKeeps(Reconcile(c, e).config);
  }

  /** A frame without edits leaves a settled panel as it is. */
  lemma IdleKeeps(d: Config)
    requires !d.changed
    requires d.coloring != SegmentTracing ==>
               (d.scene == Blobs ==> d.shadow == NoShadow) && (d.coloring == StepSize ==> d.shadow == NoShadow)
    ensures Reconcile(d, Idle) == StepResult(d, false, None)
  {
    var (c1, changedColoring) := ColoringBlock(d, Idle);
    assert c1 == d && !changedColoring;
    if d.coloring != SegmentTracing {
      var (c2, _, camera) := SceneBlock(d, Idle);
      assert c2 == d && camera == None;
      var (c3, traceChanged) := TraceBlock(d, Idle);
      assert c3 == d && !traceChanged;
      assert ShadowBlock(d, Idle, false, false) == d;
    }
  }

  /**
   * The shadow tracer need not follow the primary tracer's family: from the
   * initial values, picking the BDF shadow tracer keeps the SDF primary one.
   */
  lemma ShadowMayDifferFromTracer()
    ensures var r := Reconcile(Initial, Idle.(shadow := Some(BdfShadow))).config;
            r.trace == SdfTrace && r.shadow == BdfShadow && Consistent(r)
  {
    var e := Idle.(shadow := Some(BdfShadow));
    var (c1, changedColoring) := ColoringBlock(Initial, e);
    assert c1 == Initial && !changedColoring;
    var (c2, _, _) := SceneBlock(c1, e);
    assert c2 == Initial;
    var (c3, traceChanged) := TraceBlock(c2, e);
    assert c3 == Initial && !traceChanged;
  }
}
