/**
 * The older Xwayland scroll fix: it watches wheel scrolls and reports when a
 * one-click scroll reverses the previous direction. The reports are only
 * messages; the virtual device it declares is never written.
 */
module ScrollFixXwayland {
  import opened Device

  /** The two messages handle_scroll can print. */
  datatype Report = RepeatDown | RepeatUp

  /** The values last_direction takes: -1 up, 0 unknown, +1 down. */
  predicate IsDirection(d: real) {
    d == -1.0 || d == 0.0 || d == 1.0
  }

  /**
   * What handle_scroll reports for `amount` after direction `last`: only a
   * scroll of exactly one click against the previous direction.
   */
  function ScrollReports(last: real, amount: real): (r: seq<Report>)
    ensures |r| <= 1
    ensures RepeatDown in r <==> amount == 1.0 && last == -1.0
    ensures RepeatUp in r <==> amount == -1.0 && last == 1.0
    ensures amount != 1.0 && amount != -1.0 ==> r == []
  {
    (if amount == 1.0 && last == -1.0 then [RepeatDown] else [])
    + (if amount == -1.0 && last == 1.0 then [RepeatUp] else [])
  }

  /** last_direction after a scroll of `amount`: its sign, or unchanged for 0. */
  function NextDirection(last: real, amount: real): (d: real)
    ensures amount > 0.0 ==> d == 1.0
    ensures amount < 0.0 ==> d == -1.0
    ensures amount == 0.0 ==> d == last
    ensures IsDirection(last) ==> IsDirection(d)
  {
    if amount > 0.0 then 1.0
    else if amount < 0.0 then -1.0
    else last
  }

  /** The sign of a nonzero amount, as a direction. */
  function Sign(amount: real): (d: real)
    requires amount != 0.0
    ensures IsDirection(d) && d != 0.0
    ensures d > 0.0 <==> amount > 0.0
  {
    if amount > 0.0 then 1.0 else -1.0
  }

  /** last_direction after the scrolls `amounts`, starting from `last`. */
  function DirectionAfter(last: real, amounts: seq<real>): real
  {
    if amounts == [] then last
    else NextDirection(DirectionAfter(last, amounts[..|amounts| - 1]), amounts[|amounts| - 1])
  }

  /** Starting from -1, 0 or 1, the direction never leaves those values. */
  lemma {:induction false} DirectionStaysDirection(last: real, amounts: seq<real>)
    requires IsDirection(last)
    ensures IsDirection(DirectionAfter(last, amounts))
  {
    if amounts != [] {
      DirectionStaysDirection(last, amounts[..|amounts| - 1]);
    }
  }

  /** Scrolls of 0 leave the direction where it was. */
  lemma {:induction false} ZeroScrollsKeepDirection(last: real, amounts: seq<real>)
    requires forall i :: 0 <= i < |amounts| ==> amounts[i] == 0.0
    ensures DirectionAfter(last, amounts) == last
  {
    if amounts != [] {
      var n := |amounts| - 1;
      assert forall i :: 0 <= i < n ==> amounts[..n][i] == amounts[i];
      ZeroScrollsKeepDirection(last, amounts[..n]);
    }
  }

  /** The direction is the sign of the last nonzero scroll. */
  lemma {:induction false} DirectionIsLastNonzeroSign(last: real, amounts: seq<real>, i: int)
    requires 0 <= i < |amounts| && amounts[i] != 0.0
    requires forall j :: i < j < |amounts| ==> amounts[j] == 0.0
    ensures DirectionAfter(last, amounts) == Sign(amounts[i])
  {
    var n := |amounts| - 1;
    if i < n {
      var prefix := amounts[..n];
      assert forall j :: i < j < n ==> prefix[j] == amounts[j];
      DirectionIsLastNonzeroSign(last, prefix, i);
    }
  }

  /** Everything reported for the scrolls `amounts`, in order, starting from `last`. */
  function ReportsOver(last: real, amounts: seq<real>): seq<Report>
  {
    if amounts == [] then []
    else
      var n := |amounts| - 1;
      ReportsOver(last, amounts[..n]) + ScrollReports(DirectionAfter(last, amounts[..n]), amounts[n])
  }

  /** From the unknown direction, one click up then one click down reports a repeat down. */
  lemma UpThenDown()
    ensures ReportsOver(0.0, [-1.0, 1.0]) == [RepeatDown]
  {
    var amounts := [-1.0, 1.0];
    assert amounts[..1] == [-1.0];
    assert [-1.0][..0] == [];
    assert DirectionAfter(0.0, [-1.0]) == -1.0;
  }

  /** A scroll of two clicks after scrolling up reports nothing, yet turns the direction down. */
  lemma TwoClicksAfterUp()
    ensures ReportsOver(0.0, [-1.0, 2.0]) == []
    ensures DirectionAfter(0.0, [-1.0, 2.0]) == 1.0
  {
    var amounts := [-1.0, 2.0];
    assert amounts[..1] == [-1.0];
    assert [-1.0][..0] == [];
  }

  /**
   * The script's globals: last_direction, the messages printed, and the
   * uinput device `ui`, declared but never written.
   */
  class Watcher {
    var lastDirection: real
    var reports: seq<Report>
    var ui: seq<Action>

    ghost predicate Valid()
      reads this
    {
      IsDirection(lastDirection) && ui == []
    }

    constructor ()
      ensures lastDirection == 0.0 && reports == [] && Valid()
    {
      lastDirection := 0.0;
      reports := [];
      ui := [];
    }

    method HandleScroll(amount: real)
      requires Valid()
      modifies this`lastDirection, this`reports
      ensures Valid()
      ensures lastDirection == NextDirection(old(lastDirection), amount)
      ensures reports == old(reports) + ScrollReports(old(lastDirection), amount)
    {
      if amount == 1.0 && lastDirection == -1.0 {
        reports := reports + [RepeatDown];
      }
      if amount == -1.0 && lastDirection == 1.0 {
        reports := reports + [RepeatUp];
      }
      if amount > 0.0 {
        lastDirection := 1.0;
      } else if amount < 0.0 {
        lastDirection := -1.0;
      }
    }
  }

}
