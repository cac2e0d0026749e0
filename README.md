# ShaderToy_BDF settings and input handling, in Dafny

ShaderToy_BDF is a Falcor sample that renders signed-distance (SDF) and
bounding-distance (BDF) scenes in a full-screen pixel shader. Its host side
does three things this project models:

- **The Settings panel** (`onGuiRender`). Every frame it reads the
  operator's widget edits and reconciles the render-mode selections:
  - colouring
  - scene
  - primary tracer
  - shadow tracer
  - the numeric parameters of each

  It applies scene defaults and the rules that tie the selections together.
  When anything changed, it pushes 28 shader defines and rebuilds the label
  text that names the configuration.
- **The pointer latch** (`onMouseEvent`, plus the edge marking in
  `onFrameRender`). It keeps the ShaderToy `iMouse` vector: the drag
  position, and the click position carrying the button state as its sign.
  The vector's w component is positive only on the first frame on which z
  is positive. For a click at positive x, that is the frame where the press
  is first seen.
- **The key handler** (`onKeyEvent`). It decides which key events are
  consumed and whether the label goes to the clipboard or names a screen
  capture.

Files:

| file | contents |
|---|---|
| `Text.dfy` | `Option`, plus `std::to_string` for ints (`Decimal.IntToString`) and its inverse |
| `Settings.dfy` | One update cycle of the panel as a function, `Settings.Reconcile`. It is composed of one function per block of the source, plus the invariant `Consistent` that every cycle keeps. |
| `Emission.dfy` | The pushed defines (`Emission.Defines`) and the label (`Emission.Label`), each with a decoder and a round-trip lemma |
| `Panel.dfy` | The panel as a class whose state the methods update in place. Every method is proved equal to its block function from `Settings.dfy`; `PushDefines` is a loop over the define list. |
| `Pointer.dfy` | The pointer latch: a class with the handler statics as fields, the step functions, and the replay lemmas that describe the latch from the end of the event history |
| `Keys.dfy` | The key decision table |

Throughout, a widget is an optional edit. `None` means the operator left it
alone this frame; `Some(v)` means it now holds `v`. A widget reports a change
exactly when the value it leaves differs from the one it was given; this is
assumed of the ImGui widgets, which are not modelled. Floats are reals.

## Model

| member | source | states |
|---|---|---|
| Settings.Widget | ShaderToy_BDF.cpp:81 | A widget leaves the edited value, or the old one when untouched, and reports a change exactly when the value differs |
| Settings.PrimitiveSlider | ShaderToy_BDF.cpp:163-208 | The primitive-size slider of each scene writes exactly the components that scene shows, and they take the picked value: y for Sphere, x and y for Cylinder and Torus, all three for Box and Test, nothing for Blobs and Primitives. It reports a change iff the value differs. |
| Settings.DeriveShadow | ShaderToy_BDF.cpp:222 | The shadow tracer derived from a primary tracer is never NoShadow, and is SDF exactly when the primary tracer is SDF |
| Settings.PrimitivesTracer | ShaderToy_BDF.cpp:157-160 | Switching to Primitives maps their_sphere_trace to sdf_trace and segment_trace to bdf_trace, and keeps SDF and BDF |
| Settings.ColoringBlock | ShaderToy_BDF.cpp:76-107 | The colouring takes its pick, and the colouring change flag is true iff the colouring differs. Under a step colouring, the step function takes its pick, colours A and B take theirs when it is at least 2, C when at least 3, and D when it is 4. Nothing else changes. The dirty flag is set iff it was set or a colouring value changed. |
| Settings.StepColoring | ShaderToy_BDF.cpp:91-106 | The step function takes its pick, and it decides which of colours A to D are shown and take their edits. The flag is set iff one of them changed. |
| Settings.SceneCamera | ShaderToy_BDF.cpp:148-206 | The camera each scene's switch asks for: the primitive scenes (Sphere to Test) exactly go back to the camera of the "Reset camera" button, and no scene's position is its target |
| Settings.SceneDefaults | ShaderToy_BDF.cpp:138-211 | Threshold and blob radius take their edits only in Blobs, and the test position only in Test. Without a switch, the primitive data is what the scene's slider leaves. On a switch: to Blobs, 150 steps, distance 60 and no shadow; to Primitives, the tracer is remapped; to Box or Test, data (0.4, 0.5, 0.6); to Sphere, y = 0.7 with x and z kept; to Cylinder or Torus, x and y set with z kept. |
| Settings.SceneSliders | ShaderToy_BDF.cpp:141-201 | The sliders of the selected scene: threshold and radius in Blobs, the primitive slider elsewhere except Primitives, and the test position in Test. Each takes its edit, and the flag is set iff one of them changed. |
| Settings.SwitchDefaults | ShaderToy_BDF.cpp:143-207 | The `if (changedScene)` branches of each scene: the Blobs profile, the Primitives tracer remap, and each primitive scene's default data, with everything else kept |
| Settings.RepetitionBlock | ShaderToy_BDF.cpp:212-217 | From Sphere onward, the repetition, distance and plane widgets take their edits, and the flag is set iff one of them changed. Before Sphere nothing changes. |
| Settings.LeaveBlobs | ShaderToy_BDF.cpp:218-223 | A switch away from Blobs restores 256 steps and distance 500 and re-derives the shadow from the tracer; anything else changes nothing |
| Settings.SceneBlock | ShaderToy_BDF.cpp:133-223 | The scene changed flag is true iff the scene differs, and a camera hint is returned exactly then. It also gives the tracer, step count, distance and shadow after the scene's defaults and the leave-Blobs rule. |
| Settings.TraceBlock | ShaderToy_BDF.cpp:227-251 | The trace change flag is true iff the tracer differs. In Blobs, a tracer pick takes effect. Outside Blobs, an SDF or BDF pick takes effect and a segment or their-sphere pick does not. The step count and distance take their edits. The march epsilon takes its edit only under segment or their-sphere tracing, and the kappa factor only under segment tracing. Only the trace fields and the flag change. |
| Settings.ShadowBlock | ShaderToy_BDF.cpp:254-280 | Blobs or step-size colouring force NoShadow and set no flag. Otherwise an edit wins; without one, a re-derivation applies on a shadow-step selection or on a tracer change while shadows are on. Shadow slider changes set the flag. |
| Settings.ShadowSliders | ShaderToy_BDF.cpp:273-280 | With NoShadow, the secondary sliders change nothing. Otherwise each takes its edit, the flag is set iff one of them changed, and nothing else changes. |
| Settings.EmitBlock | ShaderToy_BDF.cpp:283-329 | It emits iff the flag is set, always clears the flag, and remembers the scene only when it emits |
| Settings.Reconcile | ShaderToy_BDF.cpp:71-334 | One cycle, with these properties: <br>• A collapsed group changes nothing. <br>• The flag is reset. <br>• Segment-tracing colouring freezes scene, tracer and shadow. <br>• Blobs and step size force NoShadow. <br>• The tracer is remapped only on a switch to Primitives. <br>• The Blobs profile applies and is undone. <br>• Shadow re-derivation follows both rules. <br>• From a consistent state (every reachable one, `ReachableConsistent`), it emits iff the flag was set or a value changed. <br>• The camera hint is given iff the scene changed. <br>• `Consistent` is kept. |
| Settings.InitialConsistent | ShaderToy_BDF.cpp:109-127 | The initial statics satisfy the invariant |
| Settings.RunConsistent | ShaderToy_BDF.cpp:71-334 | Any number of cycles from a consistent state stay consistent |
| Settings.ReachableConsistent | ShaderToy_BDF.cpp:71-334 | Every state reachable from the initial statics is consistent |
| Settings.IdleAfterUpdate | ShaderToy_BDF.cpp:283-329 | After one open cycle, a frame without edits changes nothing, emits nothing and asks for no camera move |
| Settings.IdleKeeps | ShaderToy_BDF.cpp:71-334 | A settled state with the forced no-shadow rule satisfied is a fixed point of an idle frame |
| Settings.ShadowMayDifferFromTracer | ShaderToy_BDF.cpp:268-271 | From the initial state, picking the BDF shadow leaves the SDF primary tracer: shadow and tracer need not agree |
| Emission.StepFunLabelRoundTrip | ShaderToy_BDF.cpp:44 | Each step-colouring label reads back as its entry |
| Emission.SceneLabelRoundTrip | ShaderToy_BDF.cpp:46-47 | Each scene label reads back as its scene |
| Emission.TraceLabelRoundTrip | ShaderToy_BDF.cpp:50 | Each tracer label reads back as its tracer |
| Emission.ShadowLabelRoundTrip | ShaderToy_BDF.cpp:52 | Each shadow label reads back as its shadow tracer |
| Emission.NamesDistinct | ShaderToy_BDF.cpp:284-317 | The 28 define names are distinct: each name reads back as its define |
| Emission.Defines | ShaderToy_BDF.cpp:284-317 | An emitting cycle pushes every define, each with the value it takes from the configuration |
| Emission.ValueOf | ShaderToy_BDF.cpp:284-317 | The value each define is pushed with: the four colours, the repeat distance, the primitive data and the test position are `vec3(...)` vectors; the float parameters are numbers; the colouring, the iteration counts, the repeat counts and the plane switch are integer text that reads back as an int |
| Emission.DefinesRoundTrip | ShaderToy_BDF.cpp:284-317 | Decoding the pushed defines gives back every selection and parameter of the configuration. The scene is read from both `SCENE_SDF` ("sd" + label) and `SCENE_BDF` ("bd" + label), and is accepted only when the two agree. |
| Emission.DecodeInt | ShaderToy_BDF.cpp:311-313 | An int define, written as `std::to_string` text, reads back as the int it was written from |
| Emission.Label | ShaderToy_BDF.cpp:319-326 | The label text is "sc", the colouring label and "_", then the step-function label (step colourings only) and "_", the scene and "__", the tracer and "__", "shadow-", the shadow tracer and "__", and "step-" with the step count. Its contract states that it starts with "sc" and the colouring key and ends with "step-" and the decimal step count; `LabelRoundTrip` is its partner. |
| Emission.LabelRoundTrip | ShaderToy_BDF.cpp:319-326 | The label is unambiguous: reading it back gives the colouring, the step function (for step colourings only), the scene, both tracers and the step count |
| Emission.BookkeepingIgnored | ShaderToy_BDF.cpp:283-327 | The defines and the label depend neither on the dirty flag nor on the remembered scene |
| Decimal.IntToString | ShaderToy_BDF.cpp:297 | `std::to_string` of an int: non-empty text that starts with '-' exactly when the int is negative; `IntRoundTrip` is its partner |
| Decimal.IntRoundTrip | ShaderToy_BDF.cpp:297 | The decimal text of an int reads back as that int |
| Decimal.IntToStringInjective | ShaderToy_BDF.cpp:326 | Two ints have the same decimal text iff they are equal |
| Panel.EveryDefineListed | ShaderToy_BDF.cpp:284-317 | Every define is on the list the panel pushes |
| Panel.SettingsPanel.constructor | ShaderToy_BDF.cpp:74-127 | The panel starts from the initial statics, with nothing pushed and an empty label |
| Panel.SettingsPanel.OnGuiRender | ShaderToy_BDF.cpp:71-334 | The new state and camera hint are those of `Reconcile`. When it emits, the defines and label are those of the new state; otherwise they are as before. |
| Panel.SettingsPanel.ColoringWidgets | ShaderToy_BDF.cpp:76-107 | The state after the colouring widgets is that of `ColoringBlock` |
| Panel.SettingsPanel.SceneWidgets | ShaderToy_BDF.cpp:133-223 | The state, flag and camera hint are those of `SceneBlock` |
| Panel.SettingsPanel.SceneSwitch | ShaderToy_BDF.cpp:138-211 | The state is that of `SceneDefaults`, with the scene's camera hint on a switch |
| Panel.SettingsPanel.RepetitionWidgets | ShaderToy_BDF.cpp:212-217 | The state is that of `RepetitionBlock` |
| Panel.SettingsPanel.TraceWidgets | ShaderToy_BDF.cpp:227-251 | The state and flag are those of `TraceBlock`; outside Blobs only the first two tracer buttons are offered |
| Panel.SettingsPanel.ShadowWidgets | ShaderToy_BDF.cpp:254-280 | The state is that of `ShadowBlock` |
| Panel.SettingsPanel.ShadowSliderWidgets | ShaderToy_BDF.cpp:273-280 | The state is that of `ShadowSliders` |
| Panel.SettingsPanel.PushDefines | ShaderToy_BDF.cpp:284-317 | After the pushes, the define map is `Defines` of the state, and the state and label are unchanged |
| Pointer.LatchStep | ShaderToy_BDF.cpp:416-441 | A valid button sign stays valid. Events of the middle button other than moves change nothing. The click moves only on a press, to its position. |
| Pointer.MouseVector | ShaderToy_BDF.cpp:442-443 | x and y are the drag position and w is the click y. z has the click x's magnitude, and is positive iff a button is held at a positive x or released at a negative x. |
| Pointer.ReplaySign | ShaderToy_BDF.cpp:416-441 | After any event history, the sign is 1 iff the last left/right edge was a press, or there was none and it was held before |
| Pointer.ReplayClick | ShaderToy_BDF.cpp:418-425 | After any event history, the click is the position of the last left/right press |
| Pointer.ReplayDrag | ShaderToy_BDF.cpp:416-441 | After any event history, the drag position is where the pointer was last pressed, released or moved while held |
| Pointer.PressedIffHeld | ShaderToy_BDF.cpp:412-443 | From the initial statics, z > 0 iff either the last edge was a press and that press had a positive x, or the last edge was not a press and the last press had a negative x |
| Pointer.FrameEdge | ShaderToy_BDF.cpp:366-367 | Only w changes, and it keeps its magnitude. w is positive iff it is non-zero, the vector shows a held button, and the previous frame did not. |
| Pointer.Scaled | ShaderToy_BDF.cpp:368 | Scaling by a positive resolution keeps the signs of z and w |
| Pointer.PressSignalledOnce | ShaderToy_BDF.cpp:366-369 | A second frame over the same vector never signals the press again |
| Pointer.PointerLatch.constructor | ShaderToy_BDF.cpp:412-414 | The statics start released at the origin, and the previous-frame static is not yet initialised |
| Pointer.PointerLatch.OnMouseEvent | ShaderToy_BDF.cpp:409-446 | The latch takes one `LatchStep`, the vector becomes `MouseVector` of it, and the event is never consumed |
| Pointer.PointerLatch.OnFrameRender | ShaderToy_BDF.cpp:366-369 | The vector is updated by `FrameEdge`, the uniform is the scaled vector, and the previous-frame static records whether a button shows as held |
| Keys.OnKeyEvent | ShaderToy_BDF.cpp:382-407 | Copying happens iff the event is an unclaimed non-release Ctrl+C event; capture happens iff it is an unclaimed non-release C event without Ctrl. Key repeats count as non-release events. The event is consumed iff the camera took it or it is a non-release event of Escape or C. |
| Keys.EscapeNeverPassedOn | ShaderToy_BDF.cpp:390-391 | A non-release Escape event is always consumed and does nothing else |

## Left out

- The camera controller's calls are left out: `setPosition`, `setTarget`, `renderUI`, the "Reset camera" button and `onKeyEvent`/`onMouseEvent` forwarding. A scene switch returns the position and target it asks for (`CameraHint`). The camera's verdict on a key event is a parameter.
- Window, group and text rendering are left out, as are the ImGui ID stack, GPU passes, clearing, `iTime`, `iResolution`, `onLoad`, `onResizeSwapChain`, `WinMain`, the clipboard write and the screen capture. Keys returns the requested action instead.
- Floats are modelled as reals. Rounding and the text `std::to_string` gives a float are left out. A float define holds the number, or the vector for the `vec3(...)` defines, in place of its text. Int defines hold their `std::to_string` text (`Decimal.IntToString`) and are read back with `Decimal.ParseInt`.
- Slider ranges are not enforced, so no clamping to the slider limits is claimed. An edit is taken as the value the widget leaves.
- Settings.Widget: taking "reports a change" to mean "the value differs" is an assumption about ImGui radio buttons, sliders and colour editors. ImGui may also report a change when an edit leaves the same value; the model does not capture that.
- The class holds the Settings statics as one record-valued field, `config`, and each method updates a copy of it.
- Panel.SettingsPanel.PushDefines: the 28 `addDefine` calls are one loop over the define list in source order. The pass's own define table is a map, so a later push of the same name would overwrite an earlier one; `Emission.NamesDistinct` shows there is none.
- The initial value of the member mouse vector is set in the class header, which is not part of this model. It is a constructor parameter of `Pointer.PointerLatch`.
- The initial value of the member label string is declared in the class header, which is not part of this model. `Panel.SettingsPanel.constructor` starts it empty, as a default-constructed `std::string` would be. The first cycle with the group open always emits, which overwrites the label, so nothing depends on that start value.
- Mouse event kinds other than press, release and move (wheel, enter, leave) are one kind, `OtherMouseEvent`, which the handler ignores. Keys other than Escape and C are one key, `OtherKey`.
- The order of the rules is the code's:
  - The tracer remap happens when the scene becomes Primitives.
  - Shadow re-derivation (lines 254-261) comes before the forced no-shadow rule.
  - A user shadow edit applies only outside the forced case.
  - A collapsed Settings group skips the whole block, emission included.
- The shadow tracer does not always follow the primary tracer's family, and the model does not claim it does. `Settings.ShadowMayDifferFromTracer` exhibits the difference.
