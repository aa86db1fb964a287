/**
 * The older X11 toggle-sprint script: its record handler receives key
 * events as X11 keycodes, a press of either Ctrl toggles F9 on a uinput
 * device, and releasing a screen-closing key or a Shift only pauses, since
 * its quick release does nothing.
 */
module ToggleSprintOld {
  import opened Wrappers
  import opened Codes
  import opened Device

  // X11 keycodes the handler compares against.
  const X_ESCAPE: int := 9
  const X_E: int := 26
  const X_LEFT_CTRL: int := 37
  const X_LEFT_SHIFT: int := 50
  const X_Z: int := 52
  const X_RIGHT_SHIFT: int := 62
  const X_ENTER: int := 104
  const X_RIGHT_CTRL: int := 105

  /** One parsed key event of a record reply: its keycode and whether it is a press. */
  datatype KeyRecord = KeyRecord(keycode: int, press: bool)

  predicate IsCtrl(keycode: int) {
    keycode == X_LEFT_CTRL || keycode == X_RIGHT_CTRL
  }

  /** Releasing one of these may close a game screen; the handler then waits 100 ms. */
  predicate ClosesScreen(keycode: int) {
    keycode == X_ENTER || keycode == X_ESCAPE || keycode == X_E || keycode == X_Z
  }

  predicate IsShift(keycode: int) {
    keycode == X_LEFT_SHIFT || keycode == X_RIGHT_SHIFT
  }

  /** What release_sprint_evdev writes. */
  function ReleaseSprintWrites(): (w: seq<Action>)
    ensures Committed(w) && KeyWritesWithin(w, {KEY_F9})
    ensures LastKeyValue(w, KEY_F9) == Some(0)
  {
    [Write(EV_KEY, KEY_F9, 0), Syn]
  }

  /** What press_sprint_evdev writes: a release first, a pause, then the press. */
  function PressSprintWrites(): (w: seq<Action>)
    ensures Committed(w) && KeyWritesWithin(w, {KEY_F9})
    ensures LastKeyValue(w, KEY_F9) == Some(1)
    ensures |w| == 5 && w[..2] == ReleaseSprintWrites()
  {
    [Write(EV_KEY, KEY_F9, 0), Syn, Sleep(10), Write(EV_KEY, KEY_F9, 1), Syn]
  }

  /** The new sprint state and what was sent. */
  datatype Step = Step(sprinting: bool, sent: seq<Action>)

  /** toggle_sprint_evdev in state `sprinting`. */
  function ToggleStep(sprinting: bool): (s: Step)
    ensures s.sprinting == !sprinting
    ensures s.sent == if s.sprinting then PressSprintWrites() else ReleaseSprintWrites()
  {
    if sprinting then Step(false, ReleaseSprintWrites()) else Step(true, PressSprintWrites())
  }

  /** The handler's body for one parsed key event. */
  function RecordStep(sprinting: bool, r: KeyRecord): (s: Step)
    ensures s.sprinting != sprinting <==> r.press && IsCtrl(r.keycode)
  {
    if r.press && IsCtrl(r.keycode) then ToggleStep(sprinting)
    else if !r.press && ClosesScreen(r.keycode) then Step(sprinting, [Sleep(100)])
    else if !r.press && IsShift(r.keycode) then Step(sprinting, [Sleep(50)])
    else Step(sprinting, [])
  }

  /**
   * Only a Ctrl press changes the sprint state; releasing a screen-closing
   * key pauses 100 ms, releasing a Shift 50 ms, and every other event sends
   * nothing.
   */
  lemma RecordStepCases(sprinting: bool, r: KeyRecord)
    ensures var s := RecordStep(sprinting, r);
            && (s.sprinting != sprinting <==> r.press && IsCtrl(r.keycode))
            && (!r.press && ClosesScreen(r.keycode) ==> s.sent == [Sleep(100)])
            && (!r.press && IsShift(r.keycode) ==> s.sent == [Sleep(50)])
            && (s.sent == [] <==> !(r.press && IsCtrl(r.keycode))
                                  && !(!r.press && (ClosesScreen(r.keycode) || IsShift(r.keycode))))
  {
  }

  /** The handler over the parsed events of one or more replies, in order. */
  function Replay(sprinting: bool, records: seq<KeyRecord>): Step
  {
    if records == [] then Step(sprinting, [])
    else
      var before := Replay(sprinting, records[..|records| - 1]);
      var s := RecordStep(before.sprinting, records[|records| - 1]);
      Step(s.sprinting, before.sent + s.sent)
  }

  /** Replaying one more event is one more RecordStep after the replay so far. */
  lemma ReplaySnoc(sprinting: bool, records: seq<KeyRecord>, r: KeyRecord)
    ensures var before := Replay(sprinting, records);
            var s := RecordStep(before.sprinting, r);
            Replay(sprinting, records + [r]) == Step(s.sprinting, before.sent + s.sent)
  {
    assert (records + [r])[..|records|] == records;
  }

  /** How many of the events are presses of either Ctrl. */
  function CtrlPresses(records: seq<KeyRecord>): nat
  {
    if records == [] then 0
    else
      var r := records[|records| - 1];
      CtrlPresses(records[..|records| - 1]) + (if r.press && IsCtrl(r.keycode) then 1 else 0)
  }

  /** The sprint state flips once per Ctrl press and for nothing else. */
  lemma {:induction false} ReplayCountsToggles(sprinting: bool, records: seq<KeyRecord>)
    ensures Replay(sprinting, records).sprinting == (sprinting != (CtrlPresses(records) % 2 == 1))
  {
    if records != [] {
      ReplayCountsToggles(sprinting, records[..|records| - 1]);
    }
  }

  /**
   * The script's invariant: every key write is F9 and committed by a SYN,
   * and F9 was last written as 1 exactly when sprinting (never written
   * while not sprinting, initially).
   */
  ghost predicate Consistent(sprinting: bool, ui: seq<Action>) {
    KeyWritesWithin(ui, {KEY_F9})
    && Committed(ui)
    && (match LastKeyValue(ui, KEY_F9)
        case None => !sprinting
        case Some(v) => v == (if sprinting then 1 else 0))
  }

  lemma RecordStepKeepsConsistent(sprinting: bool, ui: seq<Action>, r: KeyRecord)
    requires Consistent(sprinting, ui)
    ensures var s := RecordStep(sprinting, r);
            Consistent(s.sprinting, ui + s.sent)
  {
    var s := RecordStep(sprinting, r);
    if r.press && IsCtrl(r.keycode) {
      assert s == ToggleStep(sprinting);
      LastKeyValueAppend(ui, s.sent, KEY_F9);
      CommittedAppend(ui, s.sent);
      KeyWritesWithinAppend(ui, s.sent, {KEY_F9});
    } else {
      assert s.sprinting == sprinting;
      assert s.sent == [] || s.sent == [Sleep(100)] || s.sent == [Sleep(50)];
      LastKeyValueAppend(ui, s.sent, KEY_F9);
      CommittedAppend(ui, s.sent);
      KeyWritesWithinAppend(ui, s.sent, {KEY_F9});
      if s.sent == [] {
        assert ui + s.sent == ui;
      }
    }
  }

  lemma {:induction false} ReplayKeepsConsistent(sprinting: bool, ui: seq<Action>, records: seq<KeyRecord>)
    requires Consistent(sprinting, ui)
    ensures var s := Replay(sprinting, records);
            Consistent(s.sprinting, ui + s.sent)
  {
    if records == [] {
      assert ui + [] == ui;
    } else {
      var n := |records| - 1;
      ReplayKeepsConsistent(sprinting, ui, records[..n]);
      var before := Replay(sprinting, records[..n]);
      RecordStepKeepsConsistent(before.sprinting, ui + before.sent, records[n]);
      var s := RecordStep(before.sprinting, records[n]);
      assert ui + before.sent + s.sent == ui + (before.sent + s.sent);
    }
  }

  /** The script's globals: sprint_state and the uinput device `ui`. */
  class Relay {
    var sprintState: bool
    var ui: seq<Action>

    ghost predicate Valid()
      reads this
    {
      Consistent(sprintState, ui)
    }

    constructor ()
      ensures !sprintState && ui == [] && Valid()
    {
      sprintState := false;
      ui := [];
    }

    method ReleaseSprint()
      modifies this`ui
      ensures ui == old(ui) + ReleaseSprintWrites()
    {
      ui := ui + [Write(EV_KEY, KEY_F9, 0)];
      ui := ui + [Syn];
    }

    method PressSprint()
      modifies this`ui
      ensures ui == old(ui) + PressSprintWrites()
    {
      ui := ui + [Write(EV_KEY, KEY_F9, 0)];
      ui := ui + [Syn];
      ui := ui + [Sleep(10)];
      ui := ui + [Write(EV_KEY, KEY_F9, 1)];
      ui := ui + [Syn];
    }

    /** quick_release_evdev: its only branch is a `pass`. */
    method QuickRelease()
      ensures sprintState == old(sprintState) && ui == old(ui)
    {
      if sprintState {
      }
    }

    method ToggleSprint()
      modifies this`sprintState, this`ui
      ensures var s := ToggleStep(old(sprintState));
              sprintState == s.sprinting && ui == old(ui) + s.sent
    {
      sprintState := !sprintState;
      if !sprintState {
        ReleaseSprint();
      } else {
        PressSprint();
      }
    }

    /** The body of handler's loop for one parsed event. */
    method HandleRecord(event: KeyRecord)
      requires Valid()
      modifies this`sprintState, this`ui
      ensures Valid()
      ensures var s := RecordStep(old(sprintState), event);
              sprintState == s.sprinting && ui == old(ui) + s.sent
    {
      RecordStepKeepsConsistent(sprintState, ui, event);
      var keycode, press := event.keycode, event.press;
      // The source tests the six cases with separate ifs; at most one of
      // them holds for any event, so they are written as one chain here.
      if press && IsCtrl(keycode) {
        ToggleSprint();
      } else if !press {
        if keycode == X_ENTER {
          ui := ui + [Sleep(100)];
          QuickRelease();
        } else if keycode == X_ESCAPE {
          ui := ui + [Sleep(100)];
          QuickRelease();
        } else if keycode == X_E {
          ui := ui + [Sleep(100)];
          QuickRelease();
        } else if keycode == X_Z {
          ui := ui + [Sleep(100)];
          QuickRelease();
        } else if IsShift(keycode) {
          ui := ui + [Sleep(50)];
          QuickRelease();
        }
      }
    }

    /**
     * One turn of handler's loop, from the state `prev` reached so far on
     * top of the device log `u0`: one more RecordStep.
     */
    method HandleNext(ghost prev: Step, ghost u0: seq<Action>, event: KeyRecord)
      requires Valid() && sprintState == prev.sprinting && ui == u0 + prev.sent
      modifies this`sprintState, this`ui
      ensures Valid()
      ensures var step := RecordStep(prev.sprinting, event);
              sprintState == step.sprinting && ui == u0 + (prev.sent + step.sent)
    {
      ghost var step := RecordStep(prev.sprinting, event);
      HandleRecord(event);
      assert u0 + prev.sent + step.sent == u0 + (prev.sent + step.sent);
    }

    /** handler: consume the parsed events of a reply one at a time. */
    method Handler(data: seq<KeyRecord>)
      requires Valid()
      modifies this`sprintState, this`ui
      ensures Valid()
      ensures var s := Replay(old(sprintState), data);
              sprintState == s.sprinting && ui == old(ui) + s.sent
    {
      ghost var s0, u0 := sprintState, ui;
      assert ui == u0 + [];
      var i := 0;
      while i < |data|
        invariant 0 <= i <= |data|
        invariant Valid()
        invariant var s := Replay(s0, data[..i]);
                  sprintState == s.sprinting && ui == u0 + s.sent
      {
        var event := data[i];
        assert data[..i + 1] == data[..i] + [event];
        ReplaySnoc(s0, data[..i], event);
        HandleNext(Replay(s0, data[..i]), u0, event);
        i := i + 1;
      }
      assert data[..i] == data;
    }
  }

}
