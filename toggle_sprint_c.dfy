/**
 * The stand-alone C toggle-sprint daemon: a virtual keyboard declared with
 * the single key F9, and a drain loop that passes every keyboard event to
 * `handle_event`, which toggles the held state of F9 on a press of either
 * Ctrl.
 */
module ToggleSprintC {
  import opened Wrappers
  import opened Codes
  import opened Device
  import opened Classifier

  predicate IsCtrl(kcode: int) {
    kcode == KEY_LEFTCTRL || kcode == KEY_RIGHTCTRL
  }

  /** C's logical negation on int. */
  function Not(x: int): (r: int)
    ensures r == 0 || r == 1
    ensures r == 1 <==> x == 0
  {
    if x == 0 then 1 else 0
  }

  /** The new sprint state and what was written to the device. */
  datatype Step = Step(state: int, written: seq<Action>)

  /** What toggle_sprint writes once the state has become `state`. */
  function ToggleWrites(state: int): (w: seq<Action>)
    ensures Committed(w) && KeyWritesWithin(w, {KEY_F9})
    ensures LastKeyValue(w, KEY_F9) == Some(if state != 0 then 1 else 0)
  {
    if state != 0 then [Write(EV_KEY, KEY_F9, 1), Syn]
    else [Write(EV_KEY, KEY_F9, 0), Syn]
  }

  /** handle_event for one key state and code, in sprint state `state`. */
  function HandleEventStep(state: int, kstate: int, kcode: int): (s: Step)
    ensures s.written != [] <==> kstate == LIBINPUT_KEY_STATE_PRESSED && IsCtrl(kcode)
    ensures s.written == [] ==> s.state == state
    ensures s.written != [] ==> s.state == Not(state) && s.written == ToggleWrites(s.state)
  {
    if kstate == LIBINPUT_KEY_STATE_PRESSED && IsCtrl(kcode) then
      var next := Not(state);
      Step(next, ToggleWrites(next))
    else Step(state, [])
  }

  /** One pass of the drain loop's body over `ev`. */
  function DrainStep(state: int, ev: RawEvent): (s: Step)
    ensures ev.kind != LIBINPUT_EVENT_KEYBOARD_KEY ==> s.state == state && s.written == []
    ensures s.written != [] <==> ev.kind == LIBINPUT_EVENT_KEYBOARD_KEY
                                 && ev.state == LIBINPUT_KEY_STATE_PRESSED && IsCtrl(ev.code)
  {
    if ev.kind == LIBINPUT_EVENT_KEYBOARD_KEY then HandleEventStep(state, ev.state, ev.code)
    else Step(state, [])
  }

  /** The drain loop over a queue of events, from sprint state `state`. */
  function Drained(state: int, queue: seq<RawEvent>): Step
  {
    if queue == [] then Step(state, [])
    else
      var before := Drained(state, queue[..|queue| - 1]);
      var s := DrainStep(before.state, queue[|queue| - 1]);
      Step(s.state, before.written + s.written)
  }

  /** The (key state, key code) of each keyboard event, in arrival order. */
  function KeyInputs(queue: seq<RawEvent>): (ks: seq<(int, int)>)
    ensures |ks| <= |queue|
  {
    if queue == [] then []
    else
      var ev := queue[|queue| - 1];
      KeyInputs(queue[..|queue| - 1])
      + (if ev.kind == LIBINPUT_EVENT_KEYBOARD_KEY then [(ev.state, ev.code)] else [])
  }

  /** handle_event applied to key inputs in order. */
  function HandleAll(state: int, keys: seq<(int, int)>): Step
  {
    if keys == [] then Step(state, [])
    else
      var before := HandleAll(state, keys[..|keys| - 1]);
      var k := keys[|keys| - 1];
      var s := HandleEventStep(before.state, k.0, k.1);
      Step(s.state, before.written + s.written)
  }

  /**
   * Draining a queue does what handling its keyboard events alone, in
   * arrival order, does: the other events have no effect.
   */
  lemma {:induction false} DrainedIsHandleAllOfKeys(state: int, queue: seq<RawEvent>)
    ensures Drained(state, queue) == HandleAll(state, KeyInputs(queue))
  {
    if queue != [] {
      var n := |queue| - 1;
      DrainedIsHandleAllOfKeys(state, queue[..n]);
      var ev := queue[n];
      var keys := KeyInputs(queue[..n]);
      if ev.kind == LIBINPUT_EVENT_KEYBOARD_KEY {
        var all := keys + [(ev.state, ev.code)];
        assert all[..|all| - 1] == keys;
      } else {
        assert KeyInputs(queue) == keys + [];
        assert keys + [] == keys;
      }
    }
  }

  /**
   * The daemon's invariant: sprint state 0 or 1; every key write is F9,
   * the only key declared, and is committed by a SYN; and the last value
   * written for F9 is the sprint state (0, before any write).
   */
  ghost predicate Consistent(state: int, device: seq<Action>) {
    (state == 0 || state == 1)
    && KeyWritesWithin(device, {KEY_F9})
    && Committed(device)
    && (match LastKeyValue(device, KEY_F9)
        case None => state == 0
        case Some(v) => v == state)
  }

  lemma HandleEventKeepsConsistent(state: int, device: seq<Action>, kstate: int, kcode: int)
    requires Consistent(state, device)
    ensures var s := HandleEventStep(state, kstate, kcode);
            Consistent(s.state, device + s.written)
  {
    var s := HandleEventStep(state, kstate, kcode);
    LastKeyValueAppend(device, s.written, KEY_F9);
    CommittedAppend(device, s.written);
    KeyWritesWithinAppend(device, s.written, {KEY_F9});
    if s.written == [] {
      assert device + s.written == device;
    }
  }

  lemma {:induction false} HandleAllKeepsConsistent(state: int, device: seq<Action>, keys: seq<(int, int)>)
    requires Consistent(state, device)
    ensures var s := HandleAll(state, keys);
            Consistent(s.state, device + s.written)
  {
    if keys == [] {
      assert device + [] == device;
    } else {
      var n := |keys| - 1;
      HandleAllKeepsConsistent(state, device, keys[..n]);
      var before := HandleAll(state, keys[..n]);
      HandleEventKeepsConsistent(before.state, device + before.written, keys[n].0, keys[n].1);
      var s := HandleEventStep(before.state, keys[n].0, keys[n].1);
      assert device + before.written + s.written == device + (before.written + s.written);
    }
  }

  /** From the initial state, two presses of either Ctrl, in any mix, write one press and one release of F9. */
  lemma TwoCtrlPresses(a: int, b: int)
    requires IsCtrl(a) && IsCtrl(b)
    ensures HandleAll(0, [(LIBINPUT_KEY_STATE_PRESSED, a), (LIBINPUT_KEY_STATE_PRESSED, b)])
            == Step(0, [Write(EV_KEY, KEY_F9, 1), Syn, Write(EV_KEY, KEY_F9, 0), Syn])
  {
    var first := (LIBINPUT_KEY_STATE_PRESSED, a);
    var keys := [first, (LIBINPUT_KEY_STATE_PRESSED, b)];
    assert keys[..1] == [first];
    assert [first][..0] == [];
    assert HandleAll(0, [first]) == Step(1, [Write(EV_KEY, KEY_F9, 1), Syn]);
  }

  /** The program's static state: sprint_state, the uinput device and the stop flag. */
  class Daemon {
    var sprintState: int
    var device: seq<Action>
    var stop: bool
    /** The keys the virtual keyboard is declared with (UI_SET_KEYBIT). */
    const declaredKeys: set<int>

    ghost predicate Valid()
      reads this
    {
      declaredKeys == {KEY_F9} && Consistent(sprintState, device)
    }

    constructor ()
      ensures Valid() && sprintState == 0 && device == [] && !stop
    {
      sprintState := 0;
      device := [];
      stop := false;
      declaredKeys := {KEY_F9};
    }

    method Emit(evType: int, code: int, val: int)
      modifies this`device
      ensures device == old(device) + [Write(evType, code, val)]
    {
      device := device + [Write(evType, code, val)];
    }

    method ToggleSprint()
      requires Valid()
      modifies this`sprintState, this`device
      ensures Valid()
      ensures sprintState == Not(old(sprintState))
      ensures device == old(device) + ToggleWrites(sprintState)
    {
      HandleEventKeepsConsistent(sprintState, device, LIBINPUT_KEY_STATE_PRESSED, KEY_LEFTCTRL);
      sprintState := Not(sprintState);
      if sprintState != 0 {
        Emit(EV_KEY, KEY_F9, 1);
        Emit(EV_SYN, SYN_REPORT, 0);
      } else {
        Emit(EV_KEY, KEY_F9, 0);
        Emit(EV_SYN, SYN_REPORT, 0);
      }
    }

    /** quick_release is empty here. */
    method QuickRelease()
      ensures sprintState == old(sprintState) && device == old(device)
    {
    }

    method HandleEvent(kstate: int, kcode: int)
      requires Valid()
      modifies this`sprintState, this`device
      ensures Valid()
      ensures var s := HandleEventStep(old(sprintState), kstate, kcode);
              sprintState == s.state && device == old(device) + s.written
    {
      if kstate == LIBINPUT_KEY_STATE_PRESSED && IsCtrl(kcode) {
        ToggleSprint();
      }
    }

    /**
     * The inner loop of main: take every queued event, pass each keyboard
     * event's state and code to handle_event, and destroy the event.
     * Returns the events destroyed, in order.
     */
    method Drain(queue: seq<RawEvent>) returns (destroyed: seq<RawEvent>)
      requires Valid()
      modifies this`sprintState, this`device
      ensures Valid()
      ensures destroyed == queue
      ensures var s := Drained(old(sprintState), queue);
              sprintState == s.state && device == old(device) + s.written
    {
      destroyed := [];
      var i := 0;
      while i < |queue|
        invariant 0 <= i <= |queue|
        invariant Valid()
        invariant destroyed == queue[..i]
        invariant var s := Drained(old(sprintState), queue[..i]);
                  sprintState == s.state && device == old(device) + s.written
      {
        var ev := queue[i];
        assert queue[..i + 1][..i] == queue[..i];
        if ev.kind == LIBINPUT_EVENT_KEYBOARD_KEY {
          HandleEvent(ev.state, ev.code);
        }
        destroyed := destroyed + [ev];
        i := i + 1;
      }
      assert queue[..i] == queue;
    }
  }

}
