/**
 * What an emitting update cycle publishes (ShaderToy_BDF.cpp, lines 283-326):
 * the shader defines, as a map from define name to value, and the label
 * that names the configuration on screen, on the clipboard and in capture
 * file names. Each comes with a decoder, and the round-trip lemmas show
 * that the published text determines the configuration it was made from.
 *
 * Integers are written as `std::to_string` writes them. Floats and float
 * vectors keep their value: their text formatting is not part of this model.
 */
module Emission {
  import opened Wrappers
  import opened Decimal
  import opened Settings

  // ---------------------------------------------------------------------
  // The labels of the radio-button groups (lines 41-52).

  function ColoringLabel(c: Coloring): string {
    match c
    case Default => "Default"
    case StepSize => "Stepsize"
    case ShadowStep => "Shadow stepsize"
    case SegmentTracing => "Original Segment Tracing"
  }

  function StepFunLabel(n: StepFun): string {
    if n == 0 then "Old" else if n == 1 then "HSV" else if n == 2 then "2" else if n == 3 then "3" else "4"
  }

  function SceneLabel(s: Scenes): string {
    match s
    case Blobs => "Blobs"
    case Primitives => "Primitives"
    case Sphere => "Sphere"
    case Box => "Box"
    case Cylinder => "Cylinder"
    case Torus => "Torus"
    case Test => "Test"
  }

  function TraceLabel(t: Tracers): string {
    match t
    case SdfTrace => "sdf_trace"
    case BdfTrace => "bdf_trace"
    case SegmentTrace => "segment_trace"
    case TheirSphereTrace => "their_sphere_trace"
  }

  function ShadowLabel(s: Shadows): string {
    match s
    case SdfShadow => "sdf_trace"
    case BdfShadow => "bdf_trace"
    case NoShadow => "no_shadow"
  }

  // ---------------------------------------------------------------------
  // Reading labels back.

  function ColoringOfOrdinal(n: int): (r: Option<Coloring>)
    ensures r.Some? ==> r.value.Ordinal() == n
  {
    if n == 0 then Some(Default)
    else if n == 1 then Some(StepSize)
    else if n == 2 then Some(ShadowStep)
    else if n == 3 then Some(SegmentTracing)
    else None
  }

  const AllColorings := [Default, StepSize, ShadowStep, SegmentTracing]
  const AllStepFuns: seq<StepFun> := [0, 1, 2, 3, 4]
  const AllScenes := [Blobs, Primitives, Sphere, Box, Cylinder, Torus, Test]
  const AllTracers := [SdfTrace, BdfTrace, SegmentTrace, TheirSphereTrace]
  const AllShadows := [SdfShadow, BdfShadow, NoShadow]

  /** The first candidate whose key is `s`. */
  function MatchExact<T>(s: string, cands: seq<T>, key: T -> string): (r: Option<T>)
    ensures r.Some? ==> r.value in cands && key(r.value) == s
    decreases |cands|
  {
    if |cands| == 0 then None
    else if key(cands[0]) == s then Some(cands[0])
    else MatchExact(s, cands[1..], key)
  }

  lemma {:induction false} MatchExactFinds<T>(cands: seq<T>, key: T -> string, x: T)
    requires x in cands
    requires forall y :: y in cands && y != x ==> key(y) != key(x)
    ensures MatchExact(key(x), cands, key) == Some(x)
    decreases |cands|
  {
    if cands[0] != x {
      MatchExactFinds(cands[1..], key, x);
    }
  }

  function StepFunOfLabel(s: string): Option<StepFun> { MatchExact(s, AllStepFuns, StepFunLabel) }
  function SceneOfLabel(s: string): Option<Scenes> { MatchExact(s, AllScenes, SceneLabel) }
  function TraceOfLabel(s: string): Option<Tracers> { MatchExact(s, AllTracers, TraceLabel) }
  function ShadowOfLabel(s: string): Option<Shadows> { MatchExact(s, AllShadows, ShadowLabel) }

  /** Every enumerator is read back from its own label: the labels of a group are distinct. */
  lemma StepFunLabelRoundTrip(n: StepFun)
    ensures StepFunOfLabel(StepFunLabel(n)) == Some(n)
  {
    forall y | y in AllStepFuns && y != n ensures StepFunLabel(y) != StepFunLabel(n) {}
    MatchExactFinds(AllStepFuns, StepFunLabel, n);
  }

  lemma SceneLabelRoundTrip(s: Scenes)
    ensures SceneOfLabel(SceneLabel(s)) == Some(s)
  {
    forall y | y in AllScenes && y != s ensures SceneLabel(y) != SceneLabel(s) {}
    MatchExactFinds(AllScenes, SceneLabel, s);
  }

  lemma TraceLabelRoundTrip(t: Tracers)
    ensures TraceOfLabel(TraceLabel(t)) == Some(t)
  {
    forall y | y in AllTracers && y != t ensures TraceLabel(y) != TraceLabel(t) {}
    MatchExactFinds(AllTracers, TraceLabel, t);
  }

  lemma ShadowLabelRoundTrip(h: Shadows)
    ensures ShadowOfLabel(ShadowLabel(h)) == Some(h)
  {
    forall y | y in AllShadows && y != h ensures ShadowLabel(y) != ShadowLabel(h) {}
    MatchExactFinds(AllShadows, ShadowLabel, h);
  }

  // ---------------------------------------------------------------------
  // The shader defines (lines 284-317).

  /**
   * A define's value. The source writes every value as text. Labels and ints
   * are text here too (ints as Decimal.IntToString writes them); a float or
   * a `vec3(...)` stands for the text of its rendering, which is not modelled.
   */
  datatype DefineValue = Text(text: string) | Number(value: real) | Vector(vec: Float3)

  /** The shader defines an emitting cycle pushes, in the order it pushes them. */
  datatype Define =
    | VColoring
    | VColoringFunc
    | VColorA
    | VColorB
    | VColorC
    | VColorD
    | SceneSdf
    | SceneBdf
    | Trace
    | Shadow
    | PrimaryMaxIter
    | PrimaryMaxDist
    | SecondaryMaxIter
    | SecondaryMaxDist
    | SecondaryMinDist
    | SecondaryEpsilon
    | SecondaryNOffset
    | SThreshold
    | SBlobRadius
    | SMarchEpsilon
    | SKappaFactor
    | PRepeatXNum
    | PRepeatYNum
    | PRepeatZNum
    | PRepeatDist
    | PPrimitiveData
    | PTestPos
    | PPlaneOn
  {
    /** The name the define has in the shader source. */
    function Name(): string {
      match this
      case VColoring => "V_COLORING"
      case VColoringFunc => "V_COLORING_FUNC"
      case VColorA => "V_COLOR_A"
      case VColorB => "V_COLOR_B"
      case VColorC => "V_COLOR_C"
      case VColorD => "V_COLOR_D"
      case SceneSdf => "SCENE_SDF"
      case SceneBdf => "SCENE_BDF"
      case Trace => "TRACE"
      case Shadow => "SHADOW"
      case PrimaryMaxIter => "PRIMARY_MAXITER"
      case PrimaryMaxDist => "PRIMARY_MAXDIST"
      case SecondaryMaxIter => "SECONDARY_MAXITER"
      case SecondaryMaxDist => "SECONDARY_MAXDIST"
      case SecondaryMinDist => "SECONDARY_MINDIST"
      case SecondaryEpsilon => "SECONDARY_EPSILON"
      case SecondaryNOffset => "SECONDARY_NOFFSET"
      case SThreshold => "S_THRESHOLD"
      case SBlobRadius => "S_BLOB_RADIUS"
      case SMarchEpsilon => "S_MARCH_EPSILON"
      case SKappaFactor => "S_KAPPA_FACTOR"
      case PRepeatXNum => "P_REPEAT_X_NUM"
      case PRepeatYNum => "P_REPEAT_Y_NUM"
      case PRepeatZNum => "P_REPEAT_Z_NUM"
      case PRepeatDist => "P_REPEAT_DIST"
      case PPrimitiveData => "P_PRIMITIVE_DATA"
      case PTestPos => "P_TEST_POS"
      case PPlaneOn => "P_PLANE_ON"
    }
  }

  const AllDefines: seq<Define> := [
    VColoring, VColoringFunc, VColorA, VColorB,
    VColorC, VColorD, SceneSdf, SceneBdf,
    Trace, Shadow, PrimaryMaxIter, PrimaryMaxDist,
    SecondaryMaxIter, SecondaryMaxDist, SecondaryMinDist, SecondaryEpsilon,
    SecondaryNOffset, SThreshold, SBlobRadius, SMarchEpsilon,
    SKappaFactor, PRepeatXNum, PRepeatYNum, PRepeatZNum,
    PRepeatDist, PPrimitiveData, PTestPos, PPlaneOn]

  /** Reads a define name back. */
  function DefineOfName(s: string): Option<Define> {
    match s
    case "V_COLORING" => Some(VColoring)
    case "V_COLORING_FUNC" => Some(VColoringFunc)
    case "V_COLOR_A" => Some(VColorA)
    case "V_COLOR_B" => Some(VColorB)
    case "V_COLOR_C" => Some(VColorC)
    case "V_COLOR_D" => Some(VColorD)
    case "SCENE_SDF" => Some(SceneSdf)
    case "SCENE_BDF" => Some(SceneBdf)
    case "TRACE" => Some(Trace)
    case "SHADOW" => Some(Shadow)
    case "PRIMARY_MAXITER" => Some(PrimaryMaxIter)
    case "PRIMARY_MAXDIST" => Some(PrimaryMaxDist)
    case "SECONDARY_MAXITER" => Some(SecondaryMaxIter)
    case "SECONDARY_MAXDIST" => Some(SecondaryMaxDist)
    case "SECONDARY_MINDIST" => Some(SecondaryMinDist)
    case "SECONDARY_EPSILON" => Some(SecondaryEpsilon)
    case "SECONDARY_NOFFSET" => Some(SecondaryNOffset)
    case "S_THRESHOLD" => Some(SThreshold)
    case "S_BLOB_RADIUS" => Some(SBlobRadius)
    case "S_MARCH_EPSILON" => Some(SMarchEpsilon)
    case "S_KAPPA_FACTOR" => Some(SKappaFactor)
    case "P_REPEAT_X_NUM" => Some(PRepeatXNum)
    case "P_REPEAT_Y_NUM" => Some(PRepeatYNum)
    case "P_REPEAT_Z_NUM" => Some(PRepeatZNum)
    case "P_REPEAT_DIST" => Some(PRepeatDist)
    case "P_PRIMITIVE_DATA" => Some(PPrimitiveData)
    case "P_TEST_POS" => Some(PTestPos)
    case "P_PLANE_ON" => Some(PPlaneOn)
    case _ => None
  }

  /** The wire names are distinct, so no push overwrites another of the same cycle. */
  lemma NamesDistinct(k: Define)
    ensures DefineOfName(k.Name()) == Some(k)
  {
    match k
    case VColoring | VColoringFunc | VColorA | VColorB => NamesDistinctIn1(k);
    case VColorC | VColorD | SceneSdf | SceneBdf => NamesDistinctIn2(k);
    case Trace | Shadow | PrimaryMaxIter | PrimaryMaxDist => NamesDistinctIn3(k);
    case SecondaryMaxIter | SecondaryMaxDist | SecondaryMinDist | SecondaryEpsilon => NamesDistinctIn4(k);
    case SecondaryNOffset | SThreshold | SBlobRadius | SMarchEpsilon => NamesDistinctIn5(k);
    case SKappaFactor | PRepeatXNum | PRepeatYNum | PRepeatZNum => NamesDistinctIn6(k);
    case PRepeatDist | PPrimitiveData | PTestPos | PPlaneOn => NamesDistinctIn7(k);
  }

  // NamesDistinctIn1 to NamesDistinctIn7 each cover four defines. They are
  // split only to keep each proof obligation small; one lemma over all 28
  // names is more than the verifier should be asked to do at once.

  lemma NamesDistinctIn1(k: Define)
    requires k == VColoring || k == VColoringFunc || k == VColorA || k == VColorB
    ensures DefineOfName(k.Name()) == Some(k)
  {
  }

  lemma NamesDistinctIn2(k: Define)
    requires k == VColorC || k == VColorD || k == SceneSdf || k == SceneBdf
    ensures DefineOfName(k.Name()) == Some(k)
  {
  }

  lemma NamesDistinctIn3(k: Define)
    requires k == Trace || k == Shadow || k == PrimaryMaxIter || k == PrimaryMaxDist
    ensures DefineOfName(k.Name()) == Some(k)
  {
  }

  lemma NamesDistinctIn4(k: Define)
    requires k == SecondaryMaxIter || k == SecondaryMaxDist || k == SecondaryMinDist || k == SecondaryEpsilon
    ensures DefineOfName(k.Name()) == Some(k)
  {
  }

  lemma NamesDistinctIn5(k: Define)
    requires k == SecondaryNOffset || k == SThreshold || k == SBlobRadius || k == SMarchEpsilon
    ensures DefineOfName(k.Name()) == Some(k)
  {
  }

  lemma NamesDistinctIn6(k: Define)
    requires k == SKappaFactor || k == PRepeatXNum || k == PRepeatYNum || k == PRepeatZNum
    ensures DefineOfName(k.Name()) == Some(k)
  {
  }

  lemma NamesDistinctIn7(k: Define)
    requires k == PRepeatDist || k == PPrimitiveData || k == PTestPos || k == PPlaneOn
    ensures DefineOfName(k.Name()) == Some(k)
  {
  }

  /** The value pushed for define `k` in configuration `c`. */
  function ValueOf(c: Config, k: Define): (r: DefineValue)
    ensures r.Vector? <==> k in {VColorA, VColorB, VColorC, VColorD, PRepeatDist, PPrimitiveData, PTestPos}
    ensures r.Number? <==> k in {PrimaryMaxDist, SecondaryMaxDist, SecondaryMinDist, SecondaryEpsilon,
                                 SecondaryNOffset, SThreshold, SBlobRadius, SMarchEpsilon, SKappaFactor}
    ensures k in {VColoring, PrimaryMaxIter, SecondaryMaxIter, PRepeatXNum, PRepeatYNum, PRepeatZNum, PPlaneOn}
      ==> r.Text? && ParseInt(r.text).Some?
  {
    match k
    case VColoring => IntRoundTrip(c.coloring.Ordinal()); Text(IntToString(c.coloring.Ordinal()))
    case VColoringFunc => Text("itershade" + StepFunLabel(c.stepFun))
    case VColorA => Vector(c.colorA)
    case VColorB => Vector(c.colorB)
    case VColorC => Vector(c.colorC)
    case VColorD => Vector(c.colorD)
    case SceneSdf => Text("sd" + SceneLabel(c.scene))
    case SceneBdf => Text("bd" + SceneLabel(c.scene))
    case Trace => Text(TraceLabel(c.trace))
    case Shadow => Text(ShadowLabel(c.shadow))
    case PrimaryMaxIter => IntRoundTrip(c.primaryMaxIter); Text(IntToString(c.primaryMaxIter))
    case PrimaryMaxDist => Number(c.primaryMaxDist)
    case SecondaryMaxIter => IntRoundTrip(c.secondaryMaxIter); Text(IntToString(c.secondaryMaxIter))
    case SecondaryMaxDist => Number(c.secondaryMaxDist)
    case SecondaryMinDist => Number(c.secondaryMinDist)
    case SecondaryEpsilon => Number(c.secondaryEpsilon)
    case SecondaryNOffset => Number(c.secondaryNOffset)
    case SThreshold => Number(c.threshold)
    case SBlobRadius => Number(c.blobRadius)
    case SMarchEpsilon => Number(c.marchEpsilon)
    case SKappaFactor => Number(c.kappaFactor)
    case PRepeatXNum => IntRoundTrip(c.repeatNum.x); Text(IntToString(c.repeatNum.x))
    case PRepeatYNum => IntRoundTrip(c.repeatNum.y); Text(IntToString(c.repeatNum.y))
    case PRepeatZNum => IntRoundTrip(c.repeatNum.z); Text(IntToString(c.repeatNum.z))
    case PRepeatDist => Vector(c.repeatDist)
    case PPrimitiveData => Vector(c.primitiveData)
    case PTestPos => Vector(c.testPos)
    case PPlaneOn => var b := if c.showPlane then 1 else 0; IntRoundTrip(b); Text(IntToString(b))
  }

  /** The defines an emitting cycle pushes for configuration `c`: every define, with its value. */
  function Defines(c: Config): (d: map<Define, DefineValue>)
    ensures forall k :: k in d && d[k] == ValueOf(c, k)
  {
    map k: Define :: ValueOf(c, k)
  }

  function TextOf(d: map<Define, DefineValue>, k: Define): Option<string> {
    if k in d && d[k].Text? then Some(d[k].text) else None
  }

  function IntOf(d: map<Define, DefineValue>, k: Define): Option<int> {
    var t := TextOf(d, k);
    if t.Some? then ParseInt(t.value) else None
  }

  function NumberOf(d: map<Define, DefineValue>, k: Define): Option<real> {
    if k in d && d[k].Number? then Some(d[k].value) else None
  }

  function VectorOf(d: map<Define, DefineValue>, k: Define): Option<Float3> {
    if k in d && d[k].Vector? then Some(d[k].vec) else None
  }

  /** The text after `prefix`, when `s` starts with it. */
  function After(prefix: string, s: Option<string>): Option<string> {
    if s.Some? && StartsWith(s.value, prefix) then Some(s.value[|prefix|..]) else None
  }

  /** The selections the defines name, each read back through its label. */
  function ColoringIn(d: map<Define, DefineValue>): Option<Coloring> {
    var i := IntOf(d, VColoring);
    if i.Some? then ColoringOfOrdinal(i.value) else None
  }

  function StepFunIn(d: map<Define, DefineValue>): Option<StepFun> {
    var t := After("itershade", TextOf(d, VColoringFunc));
    if t.Some? then StepFunOfLabel(t.value) else None
  }

  /** The scene named by both scene defines; None unless they name the same one. */
  function SceneIn(d: map<Define, DefineValue>): Option<Scenes> {
    var sdf := After("sd", TextOf(d, SceneSdf));
    var bdf := After("bd", TextOf(d, SceneBdf));
    if sdf.Some? && bdf.Some? && SceneOfLabel(sdf.value) == SceneOfLabel(bdf.value)
    then SceneOfLabel(sdf.value) else None
  }

  function TraceIn(d: map<Define, DefineValue>): Option<Tracers> {
    var t := TextOf(d, Trace);
    if t.Some? then TraceOfLabel(t.value) else None
  }

  function ShadowIn(d: map<Define, DefineValue>): Option<Shadows> {
    var t := TextOf(d, Shadow);
    if t.Some? then ShadowOfLabel(t.value) else None
  }

  /** The configuration a shader compiled with defines `d` renders, when `d` is well formed. */
  function DecodeDefines(d: map<Define, DefineValue>): Option<Config> {
    var coloring, stepFun, scene, trace, shadow := ColoringIn(d), StepFunIn(d), SceneIn(d), TraceIn(d), ShadowIn(d);
    var colorA, colorB, colorC, colorD :=
      VectorOf(d, VColorA), VectorOf(d, VColorB), VectorOf(d, VColorC), VectorOf(d, VColorD);
    var maxIter, maxDist := IntOf(d, PrimaryMaxIter), NumberOf(d, PrimaryMaxDist);
    var secIter, secDist := IntOf(d, SecondaryMaxIter), NumberOf(d, SecondaryMaxDist);
    var secMin, secEps, secOff :=
      NumberOf(d, SecondaryMinDist), NumberOf(d, SecondaryEpsilon), NumberOf(d, SecondaryNOffset);
    var threshold, blobRadius := NumberOf(d, SThreshold), NumberOf(d, SBlobRadius);
    var march, kappa := NumberOf(d, SMarchEpsilon), NumberOf(d, SKappaFactor);
    var rx, ry, rz := IntOf(d, PRepeatXNum), IntOf(d, PRepeatYNum), IntOf(d, PRepeatZNum);
    var repeatDist, primitive, testPos := VectorOf(d, PRepeatDist), VectorOf(d, PPrimitiveData), VectorOf(d, PTestPos);
    var plane := IntOf(d, PPlaneOn);
    if coloring.Some? && stepFun.Some? && scene.Some? && trace.Some? && shadow.Some? &&
       colorA.Some? && colorB.Some? && colorC.Some? && colorD.Some? &&
       maxIter.Some? && maxDist.Some? && secIter.Some? && secDist.Some? &&
       secMin.Some? && secEps.Some? && secOff.Some? && threshold.Some? && blobRadius.Some? &&
       march.Some? && kappa.Some? && rx.Some? && ry.Some? && rz.Some? &&
       repeatDist.Some? && primitive.Some? && testPos.Some? && plane.Some?
    then
      Some(Config(
        false,
        coloring.value, stepFun.value, colorA.value, colorB.value, colorC.value, colorD.value,
        scene.value, scene.value, threshold.value, blobRadius.value, primitive.value, testPos.value,
        Int3(rx.value, ry.value, rz.value), repeatDist.value, plane.value != 0,
        trace.value, maxIter.value, maxDist.value, march.value, kappa.value,
        shadow.value, secIter.value, secDist.value, secEps.value, secMin.value, secOff.value))
    else
      None
  }

  /** The defines and the label do not depend on the dirty flag or on the remembered scene. */
  lemma BookkeepingIgnored(c: Config, d: Config)
    requires d == c.(changed := d.changed, prevScene := d.prevScene)
    ensures Defines(c) == Defines(d) && Label(c) == Label(d)
  {
    assert forall k :: ValueOf(c, k) == ValueOf(d, k);
  }

  lemma AfterPrefix(prefix: string, s: string)
    ensures After(prefix, Some(prefix + s)) == Some(s)
  {
    assert (prefix + s)[..|prefix|] == prefix;
    assert (prefix + s)[|prefix|..] == s;
  }

  lemma DecodeColoring(c: Config)
    ensures ColoringIn(Defines(c)) == Some(c.coloring)
  {
    DecodeInt(Defines(c), VColoring, c.coloring.Ordinal());
  }

  lemma StepFunInText(d: map<Define, DefineValue>, n: StepFun)
    requires TextOf(d, VColoringFunc) == Some("itershade" + StepFunLabel(n))
    ensures StepFunIn(d) == Some(n)
  {
    AfterPrefix("itershade", StepFunLabel(n));
    StepFunLabelRoundTrip(n);
  }

  lemma DecodeStepFun(c: Config)
    ensures StepFunIn(Defines(c)) == Some(c.stepFun)
  {
    StepFunInText(Defines(c), c.stepFun);
  }

  lemma SceneInText(d: map<Define, DefineValue>, x: Scenes)
    requires TextOf(d, SceneSdf) == Some("sd" + SceneLabel(x))
    requires TextOf(d, SceneBdf) == Some("bd" + SceneLabel(x))
    ensures SceneIn(d) == Some(x)
  {
    AfterPrefix("sd", SceneLabel(x));
    AfterPrefix("bd", SceneLabel(x));
    SceneLabelRoundTrip(x);
  }

  lemma DecodeScene(c: Config)
    ensures SceneIn(Defines(c)) == Some(c.scene)
  {
    SceneInText(Defines(c), c.scene);
  }

  lemma DecodeTrace(c: Config)
    ensures TraceIn(Defines(c)) == Some(c.trace)
  {
    TraceLabelRoundTrip(c.trace);
  }

  lemma DecodeShadow(c: Config)
    ensures ShadowIn(Defines(c)) == Some(c.shadow)
  {
    ShadowLabelRoundTrip(c.shadow);
  }

  /** An int-valued define reads back as the int it was written from. */
  lemma DecodeInt(d: map<Define, DefineValue>, k: Define, n: int)
    requires TextOf(d, k) == Some(IntToString(n))
    ensures IntOf(d, k) == Some(n)
  {
    IntRoundTrip(n);
  }

  lemma DecodeNumber(c: Config, k: Define, x: real)
    requires ValueOf(c, k) == Number(x)
    ensures NumberOf(Defines(c), k) == Some(x)
  {
  }

  lemma DecodeVector(c: Config, k: Define, v: Float3)
    requires ValueOf(c, k) == Vector(v)
    ensures VectorOf(Defines(c), k) == Some(v)
  {
  }

  // The DecodeIntegers, DecodeNumbers and DecodeVectors lemmas read the
  // configuration's fields back from the defines a few at a time. They are
  // split only to keep each proof obligation small.

  lemma DecodeIntegers1(c: Config)
    ensures IntOf(Defines(c), PrimaryMaxIter) == Some(c.primaryMaxIter)
    ensures IntOf(Defines(c), SecondaryMaxIter) == Some(c.secondaryMaxIter)
  {
    var d := Defines(c);
    DecodeInt(d, PrimaryMaxIter, c.primaryMaxIter);
    DecodeInt(d, SecondaryMaxIter, c.secondaryMaxIter);
  }

  lemma DecodeIntegers2(c: Config)
    ensures IntOf(Defines(c), PRepeatXNum) == Some(c.repeatNum.x)
  {
    DecodeInt(Defines(c), PRepeatXNum, c.repeatNum.x);
  }

  lemma DecodeIntegers3(c: Config)
    ensures IntOf(Defines(c), PRepeatYNum) == Some(c.repeatNum.y)
  {
    DecodeInt(Defines(c), PRepeatYNum, c.repeatNum.y);
  }

  lemma DecodeIntegers4(c: Config)
    ensures IntOf(Defines(c), PRepeatZNum) == Some(c.repeatNum.z)
  {
    DecodeInt(Defines(c), PRepeatZNum, c.repeatNum.z);
  }

  lemma DecodeIntegers5(c: Config)
    ensures IntOf(Defines(c), PPlaneOn) == Some(if c.showPlane then 1 else 0)
  {
    DecodeInt(Defines(c), PPlaneOn, if c.showPlane then 1 else 0);
  }

  lemma DecodeNumbers1(c: Config)
    ensures NumberOf(Defines(c), PrimaryMaxDist) == Some(c.primaryMaxDist)
    ensures NumberOf(Defines(c), SecondaryMaxDist) == Some(c.secondaryMaxDist)
    ensures NumberOf(Defines(c), SecondaryMinDist) == Some(c.secondaryMinDist)
  {
    DecodeNumber(c, PrimaryMaxDist, c.primaryMaxDist);
    DecodeNumber(c, SecondaryMaxDist, c.secondaryMaxDist);
    DecodeNumber(c, SecondaryMinDist, c.secondaryMinDist);
  }

  lemma DecodeNumbers2(c: Config)
    ensures NumberOf(Defines(c), SecondaryEpsilon) == Some(c.secondaryEpsilon)
    ensures NumberOf(Defines(c), SecondaryNOffset) == Some(c.secondaryNOffset)
    ensures NumberOf(Defines(c), SThreshold) == Some(c.threshold)
  {
    DecodeNumber(c, SecondaryEpsilon, c.secondaryEpsilon);
    DecodeNumber(c, SecondaryNOffset, c.secondaryNOffset);
    DecodeNumber(c, SThreshold, c.threshold);
  }

  lemma DecodeNumbers3(c: Config)
    ensures NumberOf(Defines(c), SBlobRadius) == Some(c.blobRadius)
    ensures NumberOf(Defines(c), SMarchEpsilon) == Some(c.marchEpsilon)
    ensures NumberOf(Defines(c), SKappaFactor) == Some(c.kappaFactor)
  {
    DecodeNumber(c, SBlobRadius, c.blobRadius);
    DecodeNumber(c, SMarchEpsilon, c.marchEpsilon);
    DecodeNumber(c, SKappaFactor, c.kappaFactor);
  }

  lemma DecodeVectors1(c: Config)
    ensures VectorOf(Defines(c), VColorA) == Some(c.colorA)
    ensures VectorOf(Defines(c), VColorB) == Some(c.colorB)
    ensures VectorOf(Defines(c), VColorC) == Some(c.colorC)
  {
    DecodeVector(c, VColorA, c.colorA);
    DecodeVector(c, VColorB, c.colorB);
    DecodeVector(c, VColorC, c.colorC);
  }

  lemma DecodeVectors2(c: Config)
    ensures VectorOf(Defines(c), VColorD) == Some(c.colorD)
    ensures VectorOf(Defines(c), PRepeatDist) == Some(c.repeatDist)
    ensures VectorOf(Defines(c), PPrimitiveData) == Some(c.primitiveData)
  {
    DecodeVector(c, VColorD, c.colorD);
    DecodeVector(c, PRepeatDist, c.repeatDist);
    DecodeVector(c, PPrimitiveData, c.primitiveData);
  }

  lemma DecodeVectors3(c: Config)
    ensures VectorOf(Defines(c), PTestPos) == Some(c.testPos)
  {
    DecodeVector(c, PTestPos, c.testPos);
  }

  /** Any defines that read back field by field as `c` decode to `c`. */
  lemma DecodeFields(d: map<Define, DefineValue>, c: Config)
    requires ColoringIn(d) == Some(c.coloring) && StepFunIn(d) == Some(c.stepFun)
    requires SceneIn(d) == Some(c.scene) && TraceIn(d) == Some(c.trace) && ShadowIn(d) == Some(c.shadow)
    requires VectorOf(d, VColorA) == Some(c.colorA) && VectorOf(d, VColorB) == Some(c.colorB)
    requires VectorOf(d, VColorC) == Some(c.colorC) && VectorOf(d, VColorD) == Some(c.colorD)
    requires VectorOf(d, PRepeatDist) == Some(c.repeatDist)
    requires VectorOf(d, PPrimitiveData) == Some(c.primitiveData)
    requires VectorOf(d, PTestPos) == Some(c.testPos)
    requires IntOf(d, PrimaryMaxIter) == Some(c.primaryMaxIter)
    requires IntOf(d, SecondaryMaxIter) == Some(c.secondaryMaxIter)
    requires IntOf(d, PRepeatXNum) == Some(c.repeatNum.x)
    requires IntOf(d, PRepeatYNum) == Some(c.repeatNum.y)
    requires IntOf(d, PRepeatZNum) == Some(c.repeatNum.z)
    requires IntOf(d, PPlaneOn) == Some(if c.showPlane then 1 else 0)
    requires NumberOf(d, PrimaryMaxDist) == Some(c.primaryMaxDist)
    requires NumberOf(d, SecondaryMaxDist) == Some(c.secondaryMaxDist)
    requires NumberOf(d, SecondaryMinDist) == Some(c.secondaryMinDist)
    requires NumberOf(d, SecondaryEpsilon) == Some(c.secondaryEpsilon)
    requires NumberOf(d, SecondaryNOffset) == Some(c.secondaryNOffset)
    requires NumberOf(d, SThreshold) == Some(c.threshold)
    requires NumberOf(d, SBlobRadius) == Some(c.blobRadius)
    requires NumberOf(d, SMarchEpsilon) == Some(c.marchEpsilon)
    requires NumberOf(d, SKappaFactor) == Some(c.kappaFactor)
    ensures DecodeDefines(d) == Some(c.(changed := false, prevScene := c.scene))
  {
  }

  /**
   * The defines determine every value of the configuration: decoding them
   * gives the configuration back, with the dirty flag clear and the
   * remembered scene equal to the current one, as they are after emission.
   */
  lemma DefinesRoundTrip(c: Config)
    ensures DecodeDefines(Defines(c)) == Some(c.(changed := false, prevScene := c.scene))
  {
    DecodeColoring(c);
    DecodeStepFun(c);
    DecodeScene(c);
    DecodeTrace(c);
    DecodeShadow(c);
    DecodeIntegers1(c);
    DecodeIntegers2(c);
    DecodeIntegers3(c);
    DecodeIntegers4(c);
    DecodeIntegers5(c);
    DecodeNumbers1(c);
    DecodeNumbers2(c);
    DecodeNumbers3(c);
    DecodeVectors1(c);
    DecodeVectors2(c);
    DecodeVectors3(c);
    DecodeFields(Defines(c), c);
  }

  // ---------------------------------------------------------------------
  // The label (lines 319-326).

  /** The pieces of the label, each with the separator that follows it. */
  function ColoringKey(c: Coloring): string { ColoringLabel(c) + "_" }
  function StepFunKey(n: Option<StepFun>): string { (if n.Some? then StepFunLabel(n.value) else "") + "_" }
  function SceneKey(s: Scenes): string { SceneLabel(s) + "__" }
  function TraceKey(t: Tracers): string { TraceLabel(t) + "__" }
  function ShadowKey(s: Shadows): string { ShadowLabel(s) + "__" }

  /** The step function shows in the label only for the two step colourings. */
  function ShownStepFun(c: Config): Option<StepFun> {
    if c.coloring == StepSize || c.coloring == ShadowStep then Some(c.stepFun) else None
  }

  /**
   * The label names the configuration: it starts with "sc" and the colouring,
   * and it ends with the decimal step count.
   */
  function Label(c: Config): (r: string)
    ensures StartsWith(r, "sc" + ColoringKey(c.coloring))
    ensures EndsWith(r, "step-" + IntToString(c.primaryMaxIter))
  {
    var t := "step-" + IntToString(c.primaryMaxIter);
    var rest := StepFunKey(ShownStepFun(c)) + (SceneKey(c.scene) +
      (TraceKey(c.trace) + ("shadow-" + (ShadowKey(c.shadow) + t))));
    var r := "sc" + (ColoringKey(c.coloring) + rest);
    StartsWithConcat("sc", ColoringKey(c.coloring), rest);
    assert EndsWith(t, t);
    EndsWithConcat(ShadowKey(c.shadow), t, t);
    EndsWithConcat("shadow-", ShadowKey(c.shadow) + t, t);
    EndsWithConcat(TraceKey(c.trace), "shadow-" + (ShadowKey(c.shadow) + t), t);
    EndsWithConcat(SceneKey(c.scene), TraceKey(c.trace) + ("shadow-" + (ShadowKey(c.shadow) + t)), t);
    EndsWithConcat(StepFunKey(ShownStepFun(c)), SceneKey(c.scene) +
      (TraceKey(c.trace) + ("shadow-" + (ShadowKey(c.shadow) + t))), t);
    EndsWithConcat(ColoringKey(c.coloring), rest, t);
    EndsWithConcat("sc", ColoringKey(c.coloring) + rest, t);
    r
  }

  /** What the label records of a configuration. */
  datatype LabelView = LabelView(
    coloring: Coloring, stepFun: Option<StepFun>, scene: Scenes, trace: Tracers, shadow: Shadows, maxIter: int)

  function ViewOf(c: Config): LabelView {
    LabelView(c.coloring, ShownStepFun(c), c.scene, c.trace, c.shadow, c.primaryMaxIter)
  }

  const ShownStepFuns: seq<Option<StepFun>> := [None, Some(0), Some(1), Some(2), Some(3), Some(4)]

  /** The first candidate whose key starts `s`, and the text after that key. */
  function MatchPrefix<T>(s: string, cands: seq<T>, key: T -> string): (r: Option<(T, string)>)
    ensures r.Some? ==> r.value.0 in cands && s == key(r.value.0) + r.value.1
    decreases |cands|
  {
    if |cands| == 0 then None
    else if StartsWith(s, key(cands[0])) then
      assert s == s[..|key(cands[0])|] + s[|key(cands[0])|..];
      Some((cands[0], s[|key(cands[0])|..]))
    else MatchPrefix(s, cands[1..], key)
  }

  lemma {:induction false} MatchPrefixFinds<T>(cands: seq<T>, key: T -> string, x: T, rest: string)
    requires x in cands
    requires forall y :: y in cands && y != x ==> Diverge(key(x), key(y))
    ensures MatchPrefix(key(x) + rest, cands, key) == Some((x, rest))
    decreases |cands|
  {
    var s := key(x) + rest;
    if cands[0] == x {
      assert s[..|key(x)|] == key(x);
      assert s[|key(x)|..] == rest;
    } else {
      DivergeNotPrefix(key(x), key(cands[0]), rest);
      MatchPrefixFinds(cands[1..], key, x, rest);
    }
  }

  /** Reads a label back; None for text that is not a label. */
  function DecodeLabel(s: string): Option<LabelView> {
    var p0 := After("sc", Some(s));
    if p0.None? then None else
    var p1 := MatchPrefix(p0.value, AllColorings, ColoringKey);
    if p1.None? then None else
    var p2 := MatchPrefix(p1.value.1, ShownStepFuns, StepFunKey);
    if p2.None? then None else
    var p3 := MatchPrefix(p2.value.1, AllScenes, SceneKey);
    if p3.None? then None else
    var p4 := MatchPrefix(p3.value.1, AllTracers, TraceKey);
    if p4.None? then None else
    var p5 := After("shadow-", Some(p4.value.1));
    if p5.None? then None else
    var p6 := MatchPrefix(p5.value, AllShadows, ShadowKey);
    if p6.None? then None else
    var p7 := After("step-", Some(p6.value.1));
    if p7.None? then None else
    var n := ParseInt(p7.value);
    if n.None? then None else
    Some(LabelView(p1.value.0, p2.value.0, p3.value.0, p4.value.0, p6.value.0, n.value))
  }

  lemma MatchColoring(c: Coloring, rest: string)
    ensures MatchPrefix(ColoringKey(c) + rest, AllColorings, ColoringKey) == Some((c, rest))
  {
    forall y | y in AllColorings && y != c ensures Diverge(ColoringKey(c), ColoringKey(y)) {}
    MatchPrefixFinds(AllColorings, ColoringKey, c, rest);
  }

  lemma MatchStepFun(n: Option<StepFun>, rest: string)
    ensures MatchPrefix(StepFunKey(n) + rest, ShownStepFuns, StepFunKey) == Some((n, rest))
  {
    forall y | y in ShownStepFuns && y != n ensures Diverge(StepFunKey(n), StepFunKey(y)) {}
    MatchPrefixFinds(ShownStepFuns, StepFunKey, n, rest);
  }

  lemma MatchScene(s: Scenes, rest: string)
    ensures MatchPrefix(SceneKey(s) + rest, AllScenes, SceneKey) == Some((s, rest))
  {
    forall y | y in AllScenes && y != s ensures Diverge(SceneKey(s), SceneKey(y)) {}
    MatchPrefixFinds(AllScenes, SceneKey, s, rest);
  }

  lemma MatchTracer(t: Tracers, rest: string)
    ensures MatchPrefix(TraceKey(t) + rest, AllTracers, TraceKey) == Some((t, rest))
  {
    forall y | y in AllTracers && y != t ensures Diverge(TraceKey(t), TraceKey(y)) {}
    MatchPrefixFinds(AllTracers, TraceKey, t, rest);
  }

  lemma MatchShadow(h: Shadows, rest: string)
    ensures MatchPrefix(ShadowKey(h) + rest, AllShadows, ShadowKey) == Some((h, rest))
  {
    forall y | y in AllShadows && y != h ensures Diverge(ShadowKey(h), ShadowKey(y)) {}
    MatchPrefixFinds(AllShadows, ShadowKey, h, rest);
  }

  /**
   * The label names the colouring, the step function where it is shown,
   * the scene, both tracers and the step count without ambiguity: reading
   * it back gives them all.
   */
  lemma LabelRoundTrip(c: Config)
    ensures DecodeLabel(Label(c)) == Some(ViewOf(c))
  {
    var tail7 := IntToString(c.primaryMaxIter);
    var tail6 := "step-" + tail7;
    var tail5 := ShadowKey(c.shadow) + tail6;
    var tail4 := "shadow-" + tail5;
    var tail3 := TraceKey(c.trace) + tail4;
    var tail2 := SceneKey(c.scene) + tail3;
    var tail1 := StepFunKey(ShownStepFun(c)) + tail2;
    var tail0 := ColoringKey(c.coloring) + tail1;
    AfterPrefix("sc", tail0);
    MatchColoring(c.coloring, tail1);
    MatchStepFun(ShownStepFun(c), tail2);
    MatchScene(c.scene, tail3);
    MatchTracer(c.trace, tail4);
    AfterPrefix("shadow-", tail5);
    MatchShadow(c.shadow, tail6);
    AfterPrefix("step-", tail7);
    IntRoundTrip(c.primaryMaxIter);
  }
}
