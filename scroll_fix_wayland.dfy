/**
 * The GNOME Wayland scroll fix: the first scroll after a change of direction
 * is lost by the compositor, so the script repeats it with one wheel tick in
 * the new direction. Only the sign of each scroll distance matters.
 */
module ScrollFixWayland {
  import opened Codes
  import opened Wrappers
  import opened Device

  /** The relative axis an action moves on the device, if any. */
  function RelAxis(a: Action): Option<int> {
    if a.ScrollV? then Some(REL_WHEEL) else None
  }

  /** Every relative axis the log moves is one of `axes`. */
  predicate RelAxesWithin(log: seq<Action>, axes: seq<int>) {
    forall i :: 0 <= i < |log| && RelAxis(log[i]).Some? ==> RelAxis(log[i]).value in axes
  }

  /**
   * rel_events_generated: the relative axes the device is created with. Every
   * axis an action can move is among them.
   */
  function RelEventsGenerated(): (axes: seq<int>)
    ensures forall a :: RelAxis(a).Some? ==> RelAxis(a).value in axes
  {
    [REL_WHEEL]
  }

  /** Every action is a single vertical wheel tick, up or down. */
  predicate WheelTicksOnly(log: seq<Action>) {
    forall i :: 0 <= i < |log| ==> log[i] == ScrollV(1) || log[i] == ScrollV(-1)
  }

  lemma WheelTicksOnlyAppend(log: seq<Action>, more: seq<Action>)
    requires WheelTicksOnly(log) && WheelTicksOnly(more)
    ensures WheelTicksOnly(log + more)
  {
    forall i | 0 <= i < |log + more|
      ensures (log + more)[i] == ScrollV(1) || (log + more)[i] == ScrollV(-1)
    {
      if i < |log| {
        assert (log + more)[i] == log[i];
      } else {
        assert (log + more)[i] == more[i - |log|];
      }
    }
  }

  /**
   * What handle_mouse_scroll sends for a scroll of `distance` when the
   * previous one was `last`: a tick down when turning from up to down, a
   * tick up when turning from down to up, and nothing otherwise.
   */
  function Repeats(last: real, distance: real): seq<Action>
  {
    (if distance > 0.0 && last < 0.0 then [ScrollV(1)] else [])
    + (if distance < 0.0 && last > 0.0 then [ScrollV(-1)] else [])
  }

  /**
   * At most one tick; a tick down exactly when turning from up to down, a
   * tick up exactly when turning from down to up; its sign is the scroll's.
   */
  lemma RepeatsMeaning(last: real, distance: real)
    ensures var r := Repeats(last, distance);
            && |r| <= 1 && WheelTicksOnly(r)
            && (r == [ScrollV(1)] <==> distance > 0.0 && last < 0.0)
            && (r == [ScrollV(-1)] <==> distance < 0.0 && last > 0.0)
            && (r != [] ==> (r[0].ticks > 0 <==> distance > 0.0))
  {
    var r := Repeats(last, distance);
    if distance > 0.0 && last < 0.0 {
      assert r == [ScrollV(1)];
    } else if distance < 0.0 && last > 0.0 {
      assert r == [ScrollV(-1)];
    } else {
      assert r == [];
    }
  }

  /** A scroll from rest (last distance 0) is never repeated. */
  lemma FirstScrollNeverRepeats(distance: real)
    ensures Repeats(0.0, distance) == []
  {
  }

  /** A log of wheel ticks only moves the axes the device declares. */
  lemma TicksMoveDeclaredAxes(log: seq<Action>)
    requires WheelTicksOnly(log)
    ensures RelAxesWithin(log, RelEventsGenerated())
  {
  }

  /** last_distance and everything sent so far. */
  datatype Step = Step(last: real, sent: seq<Action>)

  /**
   * handle_mouse_scroll applied to the scrolls `ds` in order, starting with
   * last_distance `last`.
   */
  function Replay(last: real, ds: seq<real>): Step
  {
    if ds == [] then Step(last, [])
    else
      var n := |ds| - 1;
      var prev := Replay(last, ds[..n]);
      Step(ds[n], prev.sent + Repeats(prev.last, ds[n]))
  }

  /** After a run of scrolls, last_distance is the last one, even when it is 0. */
  lemma ReplayLast(last: real, ds: seq<real>)
    ensures Replay(last, ds).last == if ds == [] then last else ds[|ds| - 1]
  {
  }

  /** At most one repeat per scroll, and only ever single wheel ticks. */
  lemma {:induction false} ReplayTicks(last: real, ds: seq<real>)
    ensures |Replay(last, ds).sent| <= |ds|
    ensures WheelTicksOnly(Replay(last, ds).sent)
  {
    if ds != [] {
      var n := |ds| - 1;
      ReplayTicks(last, ds[..n]);
      var prev := Replay(last, ds[..n]);
      RepeatsMeaning(prev.last, ds[n]);
      WheelTicksOnlyAppend(prev.sent, Repeats(prev.last, ds[n]));
    }
  }

  /**
   * The same output read pairwise from the front: each scroll is repeated
   * exactly when it turns against the scroll before it (or against `last`
   * for the first one).
   */
  function Reversals(last: real, ds: seq<real>): seq<Action>
    decreases |ds|
  {
    if ds == [] then [] else Repeats(last, ds[0]) + Reversals(ds[0], ds[1..])
  }

  lemma {:induction false} ReversalsSnoc(last: real, ds: seq<real>, d: real)
    ensures Reversals(last, ds + [d])
            == Reversals(last, ds) + Repeats(if ds == [] then last else ds[|ds| - 1], d)
    decreases |ds|
  {
    if ds == [] {
      assert ds + [d] == [d];
      assert [d][1..] == [];
    } else {
      var x, rest := ds[0], ds[1..];
      var final := if rest == [] then x else rest[|rest| - 1];
      assert final == ds[|ds| - 1];
      var head, more := Repeats(last, x), Repeats(final, d);
      assert Reversals(last, ds + [d]) == head + Reversals(x, rest + [d]) by {
        assert (ds + [d])[0] == x && (ds + [d])[1..] == rest + [d];
      }
      var tail := Reversals(x, rest);
      assert Reversals(x, rest + [d]) == tail + more by {
        ReversalsSnoc(x, rest, d);
      }
      assert Reversals(last, ds) == head + tail;
      assert head + (tail + more) == (head + tail) + more;
    }
  }

  /** The step-by-step replay sends exactly the pairwise reversals. */
  lemma {:induction false} ReplayIsReversals(last: real, ds: seq<real>)
    ensures Replay(last, ds).sent == Reversals(last, ds)
  {
    if ds != [] {
      var n := |ds| - 1;
      ReplayIsReversals(last, ds[..n]);
      ReplayLast(last, ds[..n]);
      ReversalsSnoc(last, ds[..n], ds[n]);
      assert ds[..n] + [ds[n]] == ds;
    }
  }

  /**
   * Scrolling down twice, up twice, then down again repeats the first
   * scroll up (the third) and the last scroll down (the fifth).
   */
  lemma DownDownUpUpDown()
    ensures Replay(0.0, [1.0, 1.0]).sent == []
    ensures Replay(0.0, [1.0, 1.0, -1.0]).sent == [ScrollV(-1)]
    ensures Replay(0.0, [1.0, 1.0, -1.0, -1.0]).sent == [ScrollV(-1)]
    ensures Replay(0.0, [1.0, 1.0, -1.0, -1.0, 1.0]).sent == [ScrollV(-1), ScrollV(1)]
  {
    var d1, d2, d3, d4 := [1.0], [1.0, 1.0], [1.0, 1.0, -1.0], [1.0, 1.0, -1.0, -1.0];
    var d5 := [1.0, 1.0, -1.0, -1.0, 1.0];
    assert d1[..0] == [];
    assert Replay(0.0, d1) == Step(1.0, []);
    assert d2[..1] == d1;
    assert Replay(0.0, d2) == Step(1.0, []);
    assert d3[..2] == d2;
    assert Replay(0.0, d3) == Step(-1.0, [ScrollV(-1)]);
    assert d4[..3] == d3;
    assert Replay(0.0, d4) == Step(-1.0, [ScrollV(-1)]);
    assert d5[..4] == d4;
  }

  /** The script object: the last scroll distance and what it sent. */
  class Script {
    var lastDistance: real
    var log: seq<Action>

    ghost predicate Valid()
      reads this
    {
      WheelTicksOnly(log) && RelAxesWithin(log, RelEventsGenerated())
    }

    constructor ()
      ensures lastDistance == 0.0 && log == [] && Valid()
    {
      lastDistance := 0.0;
      log := [];
    }

    method ScrollWheelVertical(ticks: int)
      modifies this`log
      ensures log == old(log) + [ScrollV(ticks)]
    {
      log := log + [ScrollV(ticks)];
    }

    method HandleKey(keycode: int, pressed: bool)
      ensures lastDistance == old(lastDistance) && log == old(log)
    {
    }

    method HandleMouseButton(button: int, pressed: bool)
      ensures lastDistance == old(lastDistance) && log == old(log)
    {
    }

    /**
     * handle_mouse_scroll: `vertical` is not consulted, so a horizontal
     * scroll also updates the last distance and can cause a repeat.
     */
    method HandleMouseScroll(vertical: bool, distance: real)
      requires Valid()
      modifies this`lastDistance, this`log
      ensures Valid()
      ensures lastDistance == distance
      ensures log == old(log) + Repeats(old(lastDistance), distance)
    {
      ghost var r := Repeats(lastDistance, distance);
      if distance > 0.0 && lastDistance < 0.0 {
        ScrollWheelVertical(1);
      }
      if distance < 0.0 && lastDistance > 0.0 {
        ScrollWheelVertical(-1);
      }
      lastDistance := distance;
      RepeatsMeaning(old(lastDistance), distance);
      WheelTicksOnlyAppend(old(log), r);
      TicksMoveDeclaredAxes(log);
    }
  }

}
