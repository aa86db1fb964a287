/**
 * The rule both engines apply to a libinput event: pointer buttons, scroll
 * wheel motion and keyboard keys become one of the six event types; every
 * other kind of event is dropped.
 */
module Classifier {
  import opened Wrappers
  import opened Codes
  import opened LibMacroTypes

  /**
   * A libinput event reduced to what the engines read from it: its native
   * kind, the button or key code, the button or key state, which scroll
   * axes it carries (axis 0 vertical, axis 1 horizontal) and their values.
   */
  datatype RawEvent = RawEvent(kind: int, code: int, state: int,
                               hasV: bool, hasH: bool, vValue: int, hValue: int)

  /** The three native kinds the engines handle. */
  predicate Recognised(kind: int) {
    kind == LIBINPUT_EVENT_POINTER_BUTTON
    || kind == LIBINPUT_EVENT_POINTER_SCROLL_WHEEL
    || kind == LIBINPUT_EVENT_KEYBOARD_KEY
  }

  /**
   * The event a raw event is reported as, if any. A nonzero state is a
   * press. A scroll event reports its vertical axis whenever it has one,
   * its horizontal axis only when it has no vertical one, and nothing when
   * it has neither.
   */
  function Classify(ev: RawEvent): (r: Option<Event>)
    ensures r.None? <==> !Recognised(ev.kind)
                         || (ev.kind == LIBINPUT_EVENT_POINTER_SCROLL_WHEEL && !ev.hasV && !ev.hasH)
    ensures ev.kind == LIBINPUT_EVENT_POINTER_BUTTON <==> r.Some? && IsButtonType(r.value.kind)
    ensures ev.kind == LIBINPUT_EVENT_KEYBOARD_KEY <==> r.Some? && IsKeyType(r.value.kind)
    ensures r.Some? && r.value.kind == MouseScrollVertical
            <==> ev.kind == LIBINPUT_EVENT_POINTER_SCROLL_WHEEL && ev.hasV
    ensures r.Some? && r.value.kind == MouseScrollHorizontal
            <==> ev.kind == LIBINPUT_EVENT_POINTER_SCROLL_WHEEL && !ev.hasV && ev.hasH
    ensures r.Some? && !IsScrollType(r.value.kind)
            ==> (IsPressType(r.value.kind) <==> ev.state != 0) && r.value.value == ev.code
    ensures r.Some? && r.value.kind == MouseScrollVertical ==> r.value.value == ev.vValue
    ensures r.Some? && r.value.kind == MouseScrollHorizontal ==> r.value.value == ev.hValue
  {
    if ev.kind == LIBINPUT_EVENT_POINTER_BUTTON then
      Some(Event(if ev.state != 0 then MousePress else MouseRelease, ev.code))
    else if ev.kind == LIBINPUT_EVENT_POINTER_SCROLL_WHEEL then
      if ev.hasV then Some(Event(MouseScrollVertical, ev.vValue))
      else if ev.hasH then Some(Event(MouseScrollHorizontal, ev.hValue))
      else None
    else if ev.kind == LIBINPUT_EVENT_KEYBOARD_KEY then
      Some(Event(if ev.state != 0 then KeyPress else KeyRelease, ev.code))
    else
      None
  }

}
