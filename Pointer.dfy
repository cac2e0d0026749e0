/**
 * The pointer latch behind the `iMouse` uniform (ShaderToy convention):
 * `onMouseEvent` keeps the button state, the click position and the drag
 * position and packs them into the mouse vector; `onFrameRender` marks the
 * frame on which a press is first seen by the sign of the vector's w
 * component. Positions are the host's normalised window coordinates, as reals.
 */
module Pointer {
  import opened Wrappers

  datatype Vec2 = Vec2(x: real, y: real)
  datatype Vec4 = Vec4(x: real, y: real, z: real, w: real)

  datatype Button = Left | Middle | Right
  /** Wheel, enter, leave and any other kind fall to the `default` branch. */
  datatype MouseEventKind = ButtonDown | ButtonUp | Move | OtherMouseEvent
  datatype MouseEvent = MouseEvent(kind: MouseEventKind, button: Button, pos: Vec2)

  /**
   * The three statics of `onMouseEvent`: `sign` is the float that is 1 while
   * a button is held and -1 otherwise, `click` the last press position,
   * `drag` the position the pointer was last seen at while tracked.
   */
  datatype Latch = Latch(sign: real, click: Vec2, drag: Vec2)

  /** The statics' initial values. */
  const Released := Latch(-1.0, Vec2(0.0, 0.0), Vec2(0.0, 0.0))

  predicate ValidSign(s: real) {
    s == 1.0 || s == -1.0
  }

  function Abs(r: real): real {
    if r < 0.0 then -r else r
  }

  /** Only the left and right buttons take part in the latch. */
  predicate Tracked(ev: MouseEvent) {
    ev.button == Left || ev.button == Right
  }

  /** One mouse event applied to the latch. */
  function LatchStep(l: Latch, ev: MouseEvent): (r: Latch)
    ensures ValidSign(l.sign) ==> ValidSign(r.sign)
    ensures !Tracked(ev) && ev.kind != Move ==> r == l
    ensures r.click != l.click ==> ev.kind == ButtonDown && r.click == ev.pos
  {
    match ev.kind
    case ButtonDown =>
      if Tracked(ev) then Latch(1.0, ev.pos, ev.pos) else l
    case ButtonUp =>
      if Tracked(ev) then l.(sign := -1.0, drag := ev.pos) else l
    case Move =>
      if l.sign == 1.0 then l.(drag := ev.pos) else l
    case OtherMouseEvent =>
      l
  }

  /** The mouse vector as the handler leaves it: drag position, then click position with the button sign on x. */
  function MouseVector(l: Latch): (m: Vec4)
    ensures m.x == l.drag.x && m.y == l.drag.y && m.w == l.click.y
    ensures ValidSign(l.sign) ==> Abs(m.z) == Abs(l.click.x)
    ensures ValidSign(l.sign) ==> (m.z > 0.0 <==> (l.sign == 1.0 && l.click.x > 0.0) || (l.sign == -1.0 && l.click.x < 0.0))
  {
    Vec4(l.drag.x, l.drag.y, l.click.x * l.sign, l.click.y * 1.0)
  }

  /** The latch after a sequence of events, delivered in order. */
  function Replay(l: Latch, evs: seq<MouseEvent>): Latch
    decreases |evs|
  {
    if |evs| == 0 then l else Replay(LatchStep(l, evs[0]), evs[1..])
  }

  lemma {:induction false} ReplaySnoc(l: Latch, evs: seq<MouseEvent>, ev: MouseEvent)
    ensures Replay(l, evs + [ev]) == LatchStep(Replay(l, evs), ev)
    decreases |evs|
  {
    if |evs| == 0 {
      assert evs + [ev] == [ev];
    } else {
      assert (evs + [ev])[1..] == evs[1..] + [ev];
      ReplaySnoc(LatchStep(l, evs[0]), evs[1..], ev);
    }
  }

  // ---------------------------------------------------------------------
  // The latch described from the end of the history.

  /** Whether the last left/right press or release of the history is a press; None when there is none. */
  function LastEdge(evs: seq<MouseEvent>): Option<bool>
    decreases |evs|
  {
    if |evs| == 0 then None
    else
      var ev := evs[|evs| - 1];
      if Tracked(ev) && ev.kind == ButtonDown then Some(true)
      else if Tracked(ev) && ev.kind == ButtonUp then Some(false)
      else LastEdge(evs[..|evs| - 1])
  }

  /** The position of the last left/right press; `none` when there is none. */
  function LastPress(evs: seq<MouseEvent>, none: Vec2): Vec2
    decreases |evs|
  {
    if |evs| == 0 then none
    else
      var ev := evs[|evs| - 1];
      if Tracked(ev) && ev.kind == ButtonDown then ev.pos else LastPress(evs[..|evs| - 1], none)
  }

  /** Whether a button is held after the history, starting from `l`. */
  predicate Held(l: Latch, evs: seq<MouseEvent>) {
    match LastEdge(evs)
    case Some(down) => down
    case None => l.sign == 1.0
  }

  /** The last position the pointer was seen at: a press, a release, or a move while held. */
  function LastSeen(l: Latch, evs: seq<MouseEvent>): Vec2
    decreases |evs|
  {
    if |evs| == 0 then l.drag
    else
      var ev := evs[|evs| - 1];
      var before := evs[..|evs| - 1];
      if Tracked(ev) && (ev.kind == ButtonDown || ev.kind == ButtonUp) then ev.pos
      else if ev.kind == Move && Held(l, before) then ev.pos
      else LastSeen(l, before)
  }

  /** The sign is 1 exactly while a left or right button is held. */
  lemma {:induction false} ReplaySign(l: Latch, evs: seq<MouseEvent>)
    requires ValidSign(l.sign)
    ensures Replay(l, evs).sign == 1.0 <==> Held(l, evs)
    ensures ValidSign(Replay(l, evs).sign)
    decreases |evs|
  {
    if |evs| > 0 {
      var before := evs[..|evs| - 1];
      var ev := evs[|evs| - 1];
      assert evs == before + [ev];
      ReplaySign(l, before);
      ReplaySnoc(l, before, ev);
    }
  }

  /** The click position is that of the last left or right press. */
  lemma {:induction false} ReplayClick(l: Latch, evs: seq<MouseEvent>)
    ensures Replay(l, evs).click == LastPress(evs, l.click)
    decreases |evs|
  {
    if |evs| > 0 {
      var before := evs[..|evs| - 1];
      var ev := evs[|evs| - 1];
      assert evs == before + [ev];
      ReplayClick(l, before);
      ReplaySnoc(l, before, ev);
    }
  }

  /** The drag position follows presses, releases and moves while held, and nothing else. */
  lemma {:induction false} ReplayDrag(l: Latch, evs: seq<MouseEvent>)
    requires ValidSign(l.sign)
    ensures Replay(l, evs).drag == LastSeen(l, evs)
    decreases |evs|
  {
    if |evs| > 0 {
      var before := evs[..|evs| - 1];
      var ev := evs[|evs| - 1];
      assert evs == before + [ev];
      ReplayDrag(l, before);
      ReplaySign(l, before);
      ReplaySnoc(l, before, ev);
    }
  }

  /**
   * From the initial statics, the mouse vector's z is positive exactly when
   * the last left/right edge was a press at a positive x, or when the last
   * edge was a release (or there was none) and the last press was at a
   * negative x: the release keeps the click and flips its sign.
   */
  lemma PressedIffHeld(evs: seq<MouseEvent>)
    ensures MouseVector(Replay(Released, evs)).z > 0.0 <==>
              (LastEdge(evs) == Some(true) && LastPress(evs, Vec2(0.0, 0.0)).x > 0.0) ||
              (LastEdge(evs) != Some(true) && LastPress(evs, Vec2(0.0, 0.0)).x < 0.0)
  {
    ReplaySign(Released, evs);
    ReplayClick(Released, evs);
  }

  // ---------------------------------------------------------------------
  // The per-frame edge.

  /**
   * Lines 366-367: w keeps its magnitude and is positive only on a frame
   * where the vector shows a held button and the previous frame did not.
   * `was` is None before the first frame, when the static is initialised
   * from the current vector.
   */
  function FrameEdge(m: Vec4, was: Option<bool>): (r: Vec4)
    ensures r.x == m.x && r.y == m.y && r.z == m.z
    ensures Abs(r.w) == Abs(m.w)
    ensures r.w > 0.0 <==> m.w != 0.0 && m.z > 0.0 && was == Some(false)
  {
    var wasDown := if was.Some? then was.value else m.z > 0.0;
    m.(w := Abs(m.w) * (if !wasDown && m.z > 0.0 then 1.0 else -1.0))
  }

  /** Lines 368-369: the uniform is the vector scaled by the render-target size. */
  function Scaled(m: Vec4, resolution: Vec2): (u: Vec4)
    ensures resolution.x > 0.0 ==> (u.z > 0.0 <==> m.z > 0.0)
    ensures resolution.y > 0.0 ==> (u.w > 0.0 <==> m.w > 0.0)
  {
    Vec4(m.x * resolution.x, m.y * resolution.y, m.z * resolution.x, m.w * resolution.y)
  }

  /** A press is signalled on one frame only: a second frame over the same vector clears it. */
  lemma PressSignalledOnce(m: Vec4, was: Option<bool>)
    ensures var r := FrameEdge(m, was); FrameEdge(r, Some(m.z > 0.0)).w <= 0.0
  {
  }

  /**
   * The pointer state as the source keeps it: the statics of `onMouseEvent`,
   * the member mouse vector, and the static of `onFrameRender`.
   */
  class PointerLatch {
    var isAnyButtonDown: real
    var clickPos: Vec2
    var dragPos: Vec2
    var shadertoyMouse: Vec4
    var wasDownLastFrame: Option<bool>

    function Latched(): Latch
      reads this
    {
      Latch(isAnyButtonDown, clickPos, dragPos)
    }

    /** The mouse vector's initial value is the member's, given here as a parameter. */
    constructor (initialMouse: Vec4)
      ensures Latched() == Released && shadertoyMouse == initialMouse && wasDownLastFrame == None
    {
      isAnyButtonDown, clickPos, dragPos := -1.0, Vec2(0.0, 0.0), Vec2(0.0, 0.0);
      shadertoyMouse, wasDownLastFrame := initialMouse, None;
    }

    /** Lines 409-446: the event never counts as consumed. */
    method OnMouseEvent(ev: MouseEvent) returns (consumed: bool)
      modifies this
      ensures !consumed
      ensures Latched() == LatchStep(old(Latched()), ev)
      ensures shadertoyMouse == MouseVector(Latched())
      ensures wasDownLastFrame == old(wasDownLastFrame)
    {
      match ev.kind {
        case ButtonDown =>
          if ev.button == Left || ev.button == Right {
            clickPos := ev.pos;
            dragPos := ev.pos;
            isAnyButtonDown := 1.0;
          }
        case ButtonUp =>
          if ev.button == Left || ev.button == Right {
            dragPos := ev.pos;
            isAnyButtonDown := -1.0;
          }
        case Move =>
          if isAnyButtonDown == 1.0 {
            dragPos := ev.pos;
          }
        case OtherMouseEvent =>
      }
      shadertoyMouse := Vec4(dragPos.x, dragPos.y, clickPos.x * isAnyButtonDown, clickPos.y * 1.0);
      consumed := false;
    }

    /** Lines 366-369: the edge marking and the uniform written for this frame. */
    method OnFrameRender(resolution: Vec2) returns (iMouse: Vec4)
      modifies this
      ensures shadertoyMouse == FrameEdge(old(shadertoyMouse), old(wasDownLastFrame))
      ensures wasDownLastFrame == Some(shadertoyMouse.z > 0.0)
      ensures iMouse == Scaled(shadertoyMouse, resolution)
      ensures Latched() == old(Latched())
    {
      if wasDownLastFrame.None? {
        wasDownLastFrame := Some(shadertoyMouse.z > 0.0);
      }
      var pressed := !wasDownLastFrame.value && shadertoyMouse.z > 0.0;
      shadertoyMouse := shadertoyMouse.(w := Abs(shadertoyMouse.w) * (if pressed then 1.0 else -1.0));
      iMouse := Vec4(shadertoyMouse.x * resolution.x, shadertoyMouse.y * resolution.y,
                     shadertoyMouse.z * resolution.x, shadertoyMouse.w * resolution.y);
      wasDownLastFrame := Some(shadertoyMouse.z > 0.0);
    }
  }
}
