/**
 * The libmacro toggle-sprint script: a press of either Ctrl toggles whether
 * the sprint key F9 is held, and releasing a key that closes a game screen
 * (Enter, Esc, E, Z) or ends sneaking (either Shift) briefly releases and
 * re-presses F9 so that the game notices it is held.
 */
module ToggleSprintPy {
  import opened Codes
  import opened Device

  /** keys_generated: the only key the script presses or releases. */
  function KeysGenerated(): seq<int> {
    [KEY_F9]
  }

  ghost function GeneratedSet(): (keys: set<int>)
    ensures keys == {KEY_F9}
  {
    assert KEY_F9 in KeysGenerated();
    set k | k in KeysGenerated()
  }

  predicate IsCtrl(keycode: int) {
    keycode == KEY_LEFTCTRL || keycode == KEY_RIGHTCTRL
  }

  /** Releasing one of these may close a game screen. */
  predicate ClosesScreen(keycode: int) {
    keycode == KEY_ENTER || keycode == KEY_ESC || keycode == KEY_E || keycode == KEY_Z
  }

  predicate IsShift(keycode: int) {
    keycode == KEY_LEFTSHIFT || keycode == KEY_RIGHTSHIFT
  }

  /** What toggle_sprint sends once the state has become `sprinting`. */
  function ToggleActions(sprinting: bool): (a: seq<Action>)
    ensures a != [] && a[0] == Release(KEY_F9)
    ensures Held(a, KEY_F9) == sprinting
    ensures CallsWithin(a, {KEY_F9})
  {
    if !sprinting then [Release(KEY_F9)]
    else [Release(KEY_F9), Sleep(50), Press(KEY_F9)]
  }

  /** What quick_release sends in state `sprinting`. */
  function QuickReleaseActions(sprinting: bool): (a: seq<Action>)
    ensures a == [] <==> !sprinting
    ensures sprinting ==> a[0] == Release(KEY_F9) && Held(a, KEY_F9)
    ensures CallsWithin(a, {KEY_F9})
  {
    if sprinting then [Release(KEY_F9), Sleep(50), Press(KEY_F9)] else []
  }

  /** The new sprint state and what was sent. */
  datatype Step = Step(sprinting: bool, sent: seq<Action>)

  /** handle_key in state `sprinting`. */
  function KeyStep(sprinting: bool, keycode: int, pressed: bool): (s: Step)
    ensures s.sprinting != sprinting <==> pressed && IsCtrl(keycode)
    ensures s.sent == [] <==> !(pressed && IsCtrl(keycode))
                              && !(!pressed && (ClosesScreen(keycode) || IsShift(keycode)))
    ensures !pressed && ClosesScreen(keycode) ==> s.sent == [Sleep(100)] + QuickReleaseActions(sprinting)
    ensures !pressed && IsShift(keycode) ==> s.sent == [Sleep(50)] + QuickReleaseActions(sprinting)
  {
    if pressed && IsCtrl(keycode) then Step(!sprinting, ToggleActions(!sprinting))
    else if !pressed && ClosesScreen(keycode) then Step(sprinting, [Sleep(100)] + QuickReleaseActions(sprinting))
    else if !pressed && IsShift(keycode) then Step(sprinting, [Sleep(50)] + QuickReleaseActions(sprinting))
    else Step(sprinting, [])
  }

  /**
   * The script's invariant: it only ever presses or releases the keys it
   * declares, and F9 is left held exactly when it is sprinting.
   */
  ghost predicate Consistent(sprinting: bool, log: seq<Action>) {
    CallsWithin(log, GeneratedSet()) && Held(log, KEY_F9) == sprinting
  }

  lemma KeyStepKeepsConsistent(sprinting: bool, log: seq<Action>, keycode: int, pressed: bool)
    requires Consistent(sprinting, log)
    ensures var s := KeyStep(sprinting, keycode, pressed);
            Consistent(s.sprinting, log + s.sent)
  {
    var s := KeyStep(sprinting, keycode, pressed);
    LastCallAppend(log, s.sent, KEY_F9);
    CallsWithinAppend(log, s.sent, GeneratedSet());
    if !pressed && (ClosesScreen(keycode) || IsShift(keycode)) {
      var q := QuickReleaseActions(sprinting);
      var pause := s.sent[0];
      assert s.sent == [pause] + q;
      LastCallAppend([pause], q, KEY_F9);
      assert LastCall([pause], KEY_F9).None?;
    }
  }

  /** A sequence of key events handled in order, from state `sprinting`. */
  function Replay(sprinting: bool, keys: seq<(int, bool)>): Step
  {
    if keys == [] then Step(sprinting, [])
    else
      var before := Replay(sprinting, keys[..|keys| - 1]);
      var last := keys[|keys| - 1];
      var s := KeyStep(before.sprinting, last.0, last.1);
      Step(s.sprinting, before.sent + s.sent)
  }

  /** From the initial state, any sequence of key events keeps the invariant. */
  lemma {:induction false} ReplayKeepsConsistent(keys: seq<(int, bool)>)
    ensures var s := Replay(false, keys);
            Consistent(s.sprinting, s.sent)
  {
    if keys == [] {
      assert Replay(false, keys).sent == [];
    } else {
      var before := Replay(false, keys[..|keys| - 1]);
      ReplayKeepsConsistent(keys[..|keys| - 1]);
      var last := keys[|keys| - 1];
      KeyStepKeepsConsistent(before.sprinting, before.sent, last.0, last.1);
    }
  }

  /** The script object: its sprint state and what it sent through the engine. */
  class Script {
    var sprintState: bool
    var log: seq<Action>

    ghost predicate Valid()
      reads this
    {
      Consistent(sprintState, log)
    }

    constructor ()
      ensures !sprintState && log == [] && Valid()
    {
      sprintState := false;
      log := [];
    }

    method PressKey(key: int)
      modifies this`log
      ensures log == old(log) + [Press(key)]
    {
      log := log + [Press(key)];
    }

    method ReleaseKey(key: int)
      modifies this`log
      ensures log == old(log) + [Release(key)]
    {
      log := log + [Release(key)];
    }

    method SleepMs(ms: nat)
      modifies this`log
      ensures log == old(log) + [Sleep(ms)]
    {
      log := log + [Sleep(ms)];
    }

    method ToggleSprint()
      requires Valid()
      modifies this
      ensures Valid()
      ensures sprintState == !old(sprintState)
      ensures log == old(log) + ToggleActions(sprintState)
    {
      LastCallAppend(log, ToggleActions(!sprintState), KEY_F9);
      CallsWithinAppend(log, ToggleActions(!sprintState), GeneratedSet());
      sprintState := !sprintState;
      if !sprintState {
        ReleaseKey(KEY_F9);
      } else {
        ReleaseKey(KEY_F9);
        SleepMs(50);
        PressKey(KEY_F9);
      }
    }

    method QuickRelease()
      requires Valid()
      modifies this`log
      ensures Valid()
      ensures log == old(log) + QuickReleaseActions(sprintState)
    {
      LastCallAppend(log, QuickReleaseActions(sprintState), KEY_F9);
      CallsWithinAppend(log, QuickReleaseActions(sprintState), GeneratedSet());
      if sprintState {
        ReleaseKey(KEY_F9);
        SleepMs(50);
        PressKey(KEY_F9);
      }
    }

    method HandleKey(keycode: int, pressed: bool)
      requires Valid()
      modifies this
      ensures Valid()
      ensures var s := KeyStep(old(sprintState), keycode, pressed);
              sprintState == s.sprinting && log == old(log) + s.sent
    {
      ghost var s := KeyStep(sprintState, keycode, pressed);
      KeyStepKeepsConsistent(sprintState, log, keycode, pressed);
      if pressed && IsCtrl(keycode) {
        ToggleSprint();
      } else if !pressed {
        if ClosesScreen(keycode) {
          SleepMs(100);
          QuickRelease();
        } else if IsShift(keycode) {
          SleepMs(50);
          QuickRelease();
          assert log == old(log) + s.sent;
        }
      }
    }

    method HandleMouseButton(button: int, pressed: bool)
      ensures sprintState == old(sprintState) && log == old(log)
    {
    }

    method HandleMouseScroll(vertical: bool, distance: real)
      ensures sprintState == old(sprintState) && log == old(log)
    {
    }
  }

}
