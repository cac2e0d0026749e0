/**
 * The key handler of lines 382-407: whether a key event counts as consumed,
 * and which side effect it asks for. The clipboard write and the screen
 * capture themselves are outside the model; only the request is returned.
 */
module Keys {
  datatype Key = Escape | C | OtherKey
  /** `released` marks a key release; presses and repeats are the other events, which the handler treats alike. */
  datatype KeyEvent = KeyEvent(released: bool, key: Key, ctrl: bool)

  /** CopyLabel puts the label text on the clipboard; CaptureScreen saves a capture named after it. */
  datatype Action = NoAction | CopyLabel | CaptureScreen

  datatype Outcome = Outcome(consumed: bool, action: Action)

  /**
   * `cameraConsumed` is the camera controller's verdict on the event, which
   * is asked first; an event it takes does nothing else here.
   */
  function OnKeyEvent(cameraConsumed: bool, ev: KeyEvent): (r: Outcome)
    ensures r.action != NoAction ==> r.consumed
    ensures r.action == CopyLabel <==> !cameraConsumed && !ev.released && ev.key == C && ev.ctrl
    ensures r.action == CaptureScreen <==> !cameraConsumed && !ev.released && ev.key == C && !ev.ctrl
    ensures r.consumed <==> cameraConsumed || (!ev.released && ev.key != OtherKey)
  {
    if cameraConsumed then Outcome(true, NoAction)
    else if ev.released then Outcome(false, NoAction)
    else
      match ev.key
      case Escape => Outcome(true, NoAction)
      case C => if ev.ctrl then Outcome(true, CopyLabel) else Outcome(true, CaptureScreen)
      case OtherKey => Outcome(false, NoAction)
  }

  /** Escape is always swallowed, so the host never sees it and does not exit. */
  lemma EscapeNeverPassedOn(cameraConsumed: bool, ctrl: bool)
    ensures OnKeyEvent(cameraConsumed, KeyEvent(false, Escape, ctrl)) == Outcome(true, NoAction)
  {
  }
}
