/**
 * The Python engine: `libmacro_run` claims the seat, creates the virtual
 * device, then takes events off the libinput queue one at a time, reports
 * each recognised one to the callback and destroys every one of them.
 * `libmacro_press_key` and `libmacro_release_key` write to the virtual
 * device once it exists.
 */
module LibMacroPy {
  import opened Wrappers
  import opened Codes
  import opened Device
  import opened LibMacroTypes
  import opened Classifier

  function AsSeq(o: Option<Event>): (s: seq<Event>)
    ensures |s| <= 1 && (s == [] <==> o.None?)
  {
    if o.Some? then [o.value] else []
  }

  /** The callbacks made for a queue of events, in arrival order. */
  function Callbacks(queue: seq<RawEvent>): (cs: seq<Event>)
    ensures |cs| <= |queue|
  {
    if queue == [] then []
    else Callbacks(queue[..|queue| - 1]) + AsSeq(Classify(queue[|queue| - 1]))
  }

  lemma {:induction false} CallbacksPrepend(ev: RawEvent, queue: seq<RawEvent>)
    ensures Callbacks([ev] + queue) == AsSeq(Classify(ev)) + Callbacks(queue)
  {
    if queue == [] {
      assert [ev] + queue == [ev];
      assert [ev][..0] == [];
    } else {
      var n := |queue| - 1;
      var whole := [ev] + queue;
      var last := queue[n];
      assert whole[..|whole| - 1] == [ev] + queue[..n];
      assert whole[|whole| - 1] == last;
      CallbacksPrepend(ev, queue[..n]);
      var first, middle, final := AsSeq(Classify(ev)), Callbacks(queue[..n]), AsSeq(Classify(last));
      assert Callbacks(whole) == (first + middle) + final;
      assert Callbacks(queue) == middle + final;
      assert (first + middle) + final == first + (middle + final);
    }
  }

  /**
   * A run of vertical scroll events is reported as the same run of vertical
   * scrolls: nothing dropped, nothing reordered, every amount unchanged.
   */
  lemma {:induction false} VerticalScrollsPreserved(queue: seq<RawEvent>)
    requires forall i :: 0 <= i < |queue| ==>
               queue[i].kind == LIBINPUT_EVENT_POINTER_SCROLL_WHEEL && queue[i].hasV
    ensures |Callbacks(queue)| == |queue|
    ensures forall i :: 0 <= i < |queue| ==>
              Callbacks(queue)[i] == Event(MouseScrollVertical, queue[i].vValue)
  {
    if queue != [] {
      var n := |queue| - 1;
      VerticalScrollsPreserved(queue[..n]);
    }
  }

  /** What libmacro_press_key writes: a press of `code` (value 1), then SYN. */
  function PressWrites(code: int): (w: seq<Action>)
    ensures Committed(w) && KeyWritesWithin(w, {code})
    ensures LastKeyValue(w, code) == Some(1)
  {
    [Write(EV_KEY, code, 1), Syn]
  }

  /** What libmacro_release_key writes, as the code stands: value 1, a second press. */
  function ReleaseWritesAsWritten(code: int): (w: seq<Action>)
    ensures Committed(w) && KeyWritesWithin(w, {code})
    ensures LastKeyValue(w, code) == Some(1)
  {
    [Write(EV_KEY, code, 1), Syn]
  }

  /** What a key release writes: value 0, then SYN. */
  function ReleaseWrites(code: int): (w: seq<Action>)
    ensures Committed(w) && KeyWritesWithin(w, {code})
    ensures LastKeyValue(w, code) == Some(0)
  {
    [Write(EV_KEY, code, 0), Syn]
  }

  /** As written, pressing and then "releasing" a key leaves it held. */
  lemma ReleaseAsWrittenLeavesKeyHeld(log: seq<Action>, code: int)
    ensures LastKeyValue(log + PressWrites(code) + ReleaseWritesAsWritten(code), code) == Some(1)
  {
    LastKeyValueAppend(log + PressWrites(code), ReleaseWritesAsWritten(code), code);
  }

  /** With the value corrected to 0, a release after a press leaves the key up. */
  lemma ReleaseWritesReleaseKey(log: seq<Action>, code: int)
    ensures LastKeyValue(log + PressWrites(code) + ReleaseWrites(code), code) == Some(0)
    ensures Committed(log) ==> Committed(log + PressWrites(code) + ReleaseWrites(code))
  {
    LastKeyValueAppend(log + PressWrites(code), ReleaseWrites(code), code);
    if Committed(log) {
      CommittedAppend(log, PressWrites(code));
      CommittedAppend(log + PressWrites(code), ReleaseWrites(code));
    }
  }

  /** The module's global `ui` (the virtual device, once created) and what it was sent. */
  class Engine {
    var hasDevice: bool
    var device: seq<Action>

    constructor ()
      ensures !hasDevice && device == []
    {
      hasDevice := false;
      device := [];
    }

    /**
     * libmacro_run over a finite queue: `seatRc` is what claiming the seat
     * returned, and the run ends when the queue is used up. Returns the
     * callbacks made, the events destroyed, and whether the libinput and
     * udev contexts were released at the end.
     */
    method Run(seatRc: int, queue: seq<RawEvent>)
      returns (callbacks: seq<Event>, destroyed: seq<RawEvent>, released: bool)
      modifies this
      ensures seatRc != 0 ==> hasDevice == old(hasDevice) && device == old(device)
                              && callbacks == [] && destroyed == [] && !released
      ensures seatRc == 0 ==> hasDevice && device == []
                              && callbacks == Callbacks(queue) && destroyed == queue && released
    {
      callbacks, destroyed, released := [], [], false;
      if seatRc != 0 {
        return;
      }
      hasDevice, device := true, [];
      var i := 0;
      while i < |queue|
        invariant 0 <= i <= |queue|
        invariant callbacks == Callbacks(queue[..i])
        invariant destroyed == queue[..i]
      {
        var ev := queue[i];
        var c := Classify(ev);
        if c.Some? {
          callbacks := callbacks + [c.value];
        }
        destroyed := destroyed + [ev];
        assert queue[..i + 1][..i] == queue[..i];
        i := i + 1;
      }
      assert queue[..i] == queue;
      released := true;
    }

    /** libmacro_press_key: a press of `code` and a SYN, once the device exists. */
    method PressKey(code: int)
      modifies this`device
      ensures device == if hasDevice then old(device) + PressWrites(code) else old(device)
    {
      if !hasDevice {
        return;
      }
      device := device + [Write(EV_KEY, code, 1)];
      device := device + [Syn];
    }

    /** libmacro_release_key as the code stands: the same writes as a press. */
    method ReleaseKey(code: int)
      modifies this`device
      ensures device == if hasDevice then old(device) + ReleaseWritesAsWritten(code) else old(device)
    {
      if !hasDevice {
        return;
      }
      device := device + [Write(EV_KEY, code, 1)];
      device := device + [Syn];
    }
  }

}
