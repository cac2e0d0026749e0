/**
 * The Settings panel as the source keeps it: the function-local statics of
 * `ShaderToy_BDF::onGuiRender`, held together as one record-valued field whose
 * components each widget call updates in place, the defines pushed to the
 * main pass, and the label text. Each method follows the statements of one
 * block of lines 71-334 and is proved to compute what the matching function
 * of module Settings specifies.
 */
module Panel {
  import opened Wrappers
  import opened Settings
  import opened Emission

  /** Every define is on the list the panel pushes. */
  lemma EveryDefineListed(k: Define)
    ensures k in AllDefines
  {
    match k {
      case VColoring => assert AllDefines[0] == VColoring;
      case VColoringFunc => assert AllDefines[1] == VColoringFunc;
      case VColorA => assert AllDefines[2] == VColorA;
      case VColorB => assert AllDefines[3] == VColorB;
      case VColorC => assert AllDefines[4] == VColorC;
      case VColorD => assert AllDefines[5] == VColorD;
      case SceneSdf => assert AllDefines[6] == SceneSdf;
      case SceneBdf => assert AllDefines[7] == SceneBdf;
      case Trace => assert AllDefines[8] == Trace;
      case Shadow => assert AllDefines[9] == Shadow;
      case PrimaryMaxIter => assert AllDefines[10] == PrimaryMaxIter;
      case PrimaryMaxDist => assert AllDefines[11] == PrimaryMaxDist;
      case SecondaryMaxIter => assert AllDefines[12] == SecondaryMaxIter;
      case SecondaryMaxDist => assert AllDefines[13] == SecondaryMaxDist;
      case SecondaryMinDist => assert AllDefines[14] == SecondaryMinDist;
      case SecondaryEpsilon => assert AllDefines[15] == SecondaryEpsilon;
      case SecondaryNOffset => assert AllDefines[16] == SecondaryNOffset;
      case SThreshold => assert AllDefines[17] == SThreshold;
      case SBlobRadius => assert AllDefines[18] == SBlobRadius;
      case SMarchEpsilon => assert AllDefines[19] == SMarchEpsilon;
      case SKappaFactor => assert AllDefines[20] == SKappaFactor;
      case PRepeatXNum => assert AllDefines[21] == PRepeatXNum;
      case PRepeatYNum => assert AllDefines[22] == PRepeatYNum;
      case PRepeatZNum => assert AllDefines[23] == PRepeatZNum;
      case PRepeatDist => assert AllDefines[24] == PRepeatDist;
      case PPrimitiveData => assert AllDefines[25] == PPrimitiveData;
      case PTestPos => assert AllDefines[26] == PTestPos;
      case PPlaneOn => assert AllDefines[27] == PPlaneOn;
    }
  }

  class SettingsPanel {
    /** The statics of the Settings group, one component per static. */
    var config: Config
    /** The defines the panel has pushed to the main pass. */
    var defines: map<Define, DefineValue>
    /** The label shown at the foot of the panel. */
    var labelText: string

    /** The statics hold their initial values; nothing is pushed and the label is empty. */
    constructor ()
      ensures config == Initial && defines == map[] && labelText == ""
    {
      config := Initial;
      defines, labelText := map[], "";
    }

    /**
     * One frame of the Settings group: the widgets of each block in source
     * order, then, when anything changed, the defines and the label.
     */
    method OnGuiRender(e: GuiInput) returns (camera: Option<CameraHint>)
      modifies this
      ensures var r := Reconcile(old(config), e);
              config == r.config && camera == r.camera &&
              defines == (if r.emitted then Defines(r.config) else old(defines)) &&
              labelText == (if r.emitted then Label(r.config) else old(labelText))
    {
      camera := None;
      if !e.open {
        return;
      }
      var changedColoring := ColoringWidgets(e);
      if config.coloring != SegmentTracing {
        var changedScene;
        changedScene, camera := SceneWidgets(e);
        var traceChanged := TraceWidgets(e);
        ShadowWidgets(e, changedColoring, traceChanged);
      }
      if config.changed {
        PushDefines();
        labelText := Label(config);
        ghost var pushed := config;
        config := config.(prevScene := config.scene, changed := false);
        BookkeepingIgnored(pushed, config);
      } else {
        config := config.(changed := false);
      }
    }

    /** Lines 76-107: the colouring radio group and its step-function and palette widgets. */
    method ColoringWidgets(e: GuiInput) returns (changedColoring: bool)
      modifies this
      ensures (config, changedColoring) == ColoringBlock(old(config), e)
      ensures defines == old(defines) && labelText == old(labelText)
    {
      var c := config;
      var col := Widget(c.coloring, e.coloring);
      changedColoring := col.changed;
      c := c.(coloring := col.value, changed := c.changed || changedColoring);
      if c.coloring == StepSize || c.coloring == ShadowStep {
        var sf := Widget(c.stepFun, e.stepFun);
        c := c.(stepFun := sf.value, changed := c.changed || sf.changed);
        if c.stepFun >= 2 {
          var a := Widget(c.colorA, e.colorA);
          c := c.(colorA := a.value, changed := c.changed || a.changed);
          var b := Widget(c.colorB, e.colorB);
          c := c.(colorB := b.value, changed := c.changed || b.changed);
        }
        if c.stepFun >= 3 {
          var cc := Widget(c.colorC, e.colorC);
          c := c.(colorC := cc.value, changed := c.changed || cc.changed);
        }
        if c.stepFun == 4 {
          var d := Widget(c.colorD, e.colorD);
          c := c.(colorD := d.value, changed := c.changed || d.changed);
        }
      }
      config := c;
    }

    /** Lines 133-223: the scene radio group, the selected scene's widgets and defaults, repetition, leaving Blobs. */
    method SceneWidgets(e: GuiInput) returns (changedScene: bool, camera: Option<CameraHint>)
      modifies this
      ensures (config, changedScene, camera) == SceneBlock(old(config), e)
      ensures defines == old(defines) && labelText == old(labelText)
    {
      var sc := Widget(config.scene, e.scene);
      changedScene := sc.changed;
      config := config.(scene := sc.value, changed := config.changed || changedScene);
      camera := SceneSwitch(e, changedScene);
      RepetitionWidgets(e);
      if changedScene && config.prevScene == Blobs && config.scene != Blobs {
        config := config.(primaryMaxIter := 256, primaryMaxDist := 500.0,
                          shadow := if config.trace == SdfTrace then SdfShadow else BdfShadow);
      }
    }

    /** Lines 138-211: the `switch` on the selected scene; a newly selected scene gets its defaults and camera. */
    method SceneSwitch(e: GuiInput, changedScene: bool) returns (camera: Option<CameraHint>)
      modifies this
      ensures config == SceneDefaults(old(config), e, changedScene)
      ensures camera == if changedScene then Some(SceneCamera(config.scene)) else None
      ensures defines == old(defines) && labelText == old(labelText)
    {
      var c := config;
      camera := None;
      match c.scene {
        case Blobs =>
          var t := Widget(c.threshold, e.threshold);
          c := c.(threshold := t.value, changed := c.changed || t.changed);
          var br := Widget(c.blobRadius, e.blobRadius);
          c := c.(blobRadius := br.value, changed := c.changed || br.changed);
          if changedScene {
            c := c.(primaryMaxIter := 150, primaryMaxDist := 60.0, shadow := NoShadow);
            camera := Some(CameraHint(Float3(0.0, 3.5, 7.0), Float3(0.0, 2.2, 0.0)));
          }
        case Primitives =>
          if changedScene {
            camera := Some(CameraHint(Float3(6.0, 3.0, 4.0), Float3(0.0, 0.0, 0.5)));
            if c.trace == TheirSphereTrace {
              c := c.(trace := SdfTrace);
            }
            if c.trace == SegmentTrace {
              c := c.(trace := BdfTrace);
            }
          }
        case Sphere =>
          var p := PrimitiveSlider(Sphere, c.primitiveData, e.primitive);
          c := c.(primitiveData := p.value, changed := c.changed || p.changed);
          if changedScene {
            c := c.(primitiveData := c.primitiveData.(y := 0.7));
            camera := Some(CameraHint(Float3(2.0, 1.25, 1.5), Float3(0.0, 0.0, 0.0)));
          }
        case Box =>
          var p := PrimitiveSlider(Box, c.primitiveData, e.primitive);
          c := c.(primitiveData := p.value, changed := c.changed || p.changed);
          if changedScene {
            c := c.(primitiveData := Float3(0.4, 0.5, 0.6));
            camera := Some(CameraHint(Float3(2.0, 1.25, 1.5), Float3(0.0, 0.0, 0.0)));
          }
        case Cylinder =>
          var p := PrimitiveSlider(Cylinder, c.primitiveData, e.primitive);
          c := c.(primitiveData := p.value, changed := c.changed || p.changed);
          if changedScene {
            c := c.(primitiveData := c.primitiveData.(x := 0.6, y := 0.6));
            camera := Some(CameraHint(Float3(2.0, 1.25, 1.5), Float3(0.0, 0.0, 0.0)));
          }
        case Torus =>
          var p := PrimitiveSlider(Torus, c.primitiveData, e.primitive);
          c := c.(primitiveData := p.value, changed := c.changed || p.changed);
          if changedScene {
            c := c.(primitiveData := c.primitiveData.(x := 0.9, y := 0.3));
            camera := Some(CameraHint(Float3(2.0, 1.25, 1.5), Float3(0.0, 0.0, 0.0)));
          }
        case Test =>
          var p := PrimitiveSlider(Test, c.primitiveData, e.primitive);
          c := c.(primitiveData := p.value, changed := c.changed || p.changed);
          var tp := Widget(c.testPos, e.testPos);
          c := c.(testPos := tp.value, changed := c.changed || tp.changed);
          if changedScene {
            c := c.(primitiveData := Float3(0.4, 0.5, 0.6));
            camera := Some(CameraHint(Float3(2.0, 1.25, 1.5), Float3(0.0, 0.0, 0.0)));
          }
      }
      config := c;
    }

    /** Lines 212-217: repetition and ground plane, for Sphere and the scenes after it. */
    method RepetitionWidgets(e: GuiInput)
      modifies this
      ensures config == RepetitionBlock(old(config), e)
      ensures defines == old(defines) && labelText == old(labelText)
    {
      if Sphere.Ordinal() <= config.scene.Ordinal() {
        var n := Widget(config.repeatNum, e.repeatNum);
        config := config.(repeatNum := n.value, changed := config.changed || n.changed);
        var d := Widget(config.repeatDist, e.repeatDist);
        config := config.(repeatDist := d.value, changed := config.changed || d.changed);
        var p := Widget(config.showPlane, e.showPlane);
        config := config.(showPlane := p.value, changed := config.changed || p.changed);
      }
    }

    /** Lines 227-251: the tracer radio group and the primary-trace sliders. */
    method TraceWidgets(e: GuiInput) returns (traceChanged: bool)
      modifies this
      ensures (config, traceChanged) == TraceBlock(old(config), e)
      ensures defines == old(defines) && labelText == old(labelText)
    {
      var c := config;
      var tr;
      if c.scene == Blobs {
        tr := Widget(c.trace, e.trace);
      } else {
        // Only the first two buttons are offered.
        var pick := if e.trace == Some(SdfTrace) || e.trace == Some(BdfTrace) then e.trace else None;
        tr := Widget(c.trace, pick);
      }
      traceChanged := tr.changed;
      c := c.(trace := tr.value, changed := c.changed || traceChanged);
      var it := Widget(c.primaryMaxIter, e.primaryMaxIter);
      c := c.(primaryMaxIter := it.value, changed := c.changed || it.changed);
      var di := Widget(c.primaryMaxDist, e.primaryMaxDist);
      c := c.(primaryMaxDist := di.value, changed := c.changed || di.changed);
      if c.trace == SegmentTrace || c.trace == TheirSphereTrace {
        var me := Widget(c.marchEpsilon, e.marchEpsilon);
        c := c.(marchEpsilon := me.value, changed := c.changed || me.changed);
      }
      if c.trace == SegmentTrace {
        var kf := Widget(c.kappaFactor, e.kappaFactor);
        c := c.(kappaFactor := kf.value, changed := c.changed || kf.changed);
      }
      config := c;
    }

    /** Lines 254-280: shadow re-derivation, forced no-shadow or the shadow radio group, the shadow sliders. */
    method ShadowWidgets(e: GuiInput, changedColoring: bool, traceChanged: bool)
      modifies this
      ensures config == ShadowBlock(old(config), e, changedColoring, traceChanged)
      ensures defines == old(defines) && labelText == old(labelText)
    {
      var c := config;
      if changedColoring && c.coloring == ShadowStep {
        c := c.(shadow := if c.trace == SdfTrace then SdfShadow else BdfShadow);
      }
      if traceChanged && c.shadow != NoShadow {
        c := c.(shadow := if c.trace == SdfTrace then SdfShadow else BdfShadow);
      }
      if c.scene == Blobs || c.coloring == StepSize {
        c := c.(shadow := NoShadow);
      } else {
        var sh := Widget(c.shadow, e.shadow);
        c := c.(shadow := sh.value, changed := c.changed || sh.changed);
      }
      config := c;
      ShadowSliderWidgets(e);
    }

    /** Lines 273-280: the shadow-trace sliders. */
    method ShadowSliderWidgets(e: GuiInput)
      modifies this
      ensures config == ShadowSliders(old(config), e)
      ensures defines == old(defines) && labelText == old(labelText)
    {
      var c := config;
      if c.shadow != NoShadow {
        var mi := Widget(c.secondaryMaxIter, e.secondaryMaxIter);
        c := c.(secondaryMaxIter := mi.value, changed := c.changed || mi.changed);
        var md := Widget(c.secondaryMaxDist, e.secondaryMaxDist);
        c := c.(secondaryMaxDist := md.value, changed := c.changed || md.changed);
        var mn := Widget(c.secondaryMinDist, e.secondaryMinDist);
        c := c.(secondaryMinDist := mn.value, changed := c.changed || mn.changed);
        var ep := Widget(c.secondaryEpsilon, e.secondaryEpsilon);
        c := c.(secondaryEpsilon := ep.value, changed := c.changed || ep.changed);
        var no := Widget(c.secondaryNOffset, e.secondaryNOffset);
        c := c.(secondaryNOffset := no.value, changed := c.changed || no.changed);
      }
      config := c;
    }

    /**
     * Lines 284-317: every define of the list is pushed with its value, in
     * source order; a push overwrites what the list held under that name.
     */
    method PushDefines()
      modifies this
      ensures defines == Defines(config)
      ensures config == old(config) && labelText == old(labelText)
    {
      for i := 0 to |AllDefines|
        invariant forall j :: 0 <= j < i ==> AllDefines[j] in defines && defines[AllDefines[j]] == ValueOf(config, AllDefines[j])
        invariant config == old(config) && labelText == old(labelText)
      {
        defines := defines[AllDefines[i] := ValueOf(config, AllDefines[i])];
      }
      forall k: Define
        ensures k in defines && defines[k] == ValueOf(config, k)
      {
        EveryDefineListed(k);
      }
    }
  }
}
