/**
 * Numeric constants the programs use: event types and codes of the Linux
 * input subsystem (linux/input-event-codes.h) and the event kinds and
 * states of libinput (libinput.h).
 */
module Codes {

  // Event types of linux/input-event-codes.h.
  const EV_SYN: int := 0
  const EV_KEY: int := 1
  const EV_REL: int := 2

  // Codes of linux/input-event-codes.h.
  const SYN_REPORT: int := 0
  const REL_WHEEL: int := 8
  const KEY_ESC: int := 1
  const KEY_E: int := 18
  const KEY_ENTER: int := 28
  const KEY_LEFTCTRL: int := 29
  const KEY_LEFTSHIFT: int := 42
  const KEY_Z: int := 44
  const KEY_RIGHTSHIFT: int := 54
  const KEY_F9: int := 67
  const KEY_RIGHTCTRL: int := 97

  // enum libinput_event_type of libinput.h.
  const LIBINPUT_EVENT_KEYBOARD_KEY: int := 300
  const LIBINPUT_EVENT_POINTER_BUTTON: int := 402
  const LIBINPUT_EVENT_POINTER_SCROLL_WHEEL: int := 404

  // enum libinput_key_state of libinput.h.
  const LIBINPUT_KEY_STATE_PRESSED: int := 1

}
