/**
 * A virtual (uinput) output device, seen as the ordered log of what is sent
 * to it, and the facts about such logs that the programs rely on.
 */
module Device {
  import opened Wrappers
  import opened Codes

  datatype Action =
    | Write(evType: int, code: int, value: int)  // one input_event written to the device
    | Sleep(ms: nat)                            // a deliberate delay between writes
    | Press(key: int)                           // a script's press_key(key)
    | Release(key: int)                         // a script's release_key(key)
    | ScrollV(ticks: int)                       // a script's scroll_wheel_vertical(ticks)

  /** The synchronisation event that commits the writes before it. */
  const Syn: Action := Write(EV_SYN, SYN_REPORT, 0)

  predicate IsKeyWrite(a: Action) {
    a.Write? && a.evType == EV_KEY
  }

  /** Every key write is immediately followed by a SYN_REPORT, so none is left uncommitted. */
  ghost predicate Committed(log: seq<Action>) {
    forall i :: 0 <= i < |log| && IsKeyWrite(log[i]) ==> i + 1 < |log| && log[i + 1] == Syn
  }

  /** Every key written belongs to `keys`, the capabilities declared for the device. */
  ghost predicate KeyWritesWithin(log: seq<Action>, keys: set<int>) {
    forall i :: 0 <= i < |log| && IsKeyWrite(log[i]) ==> log[i].code in keys
  }

  /** The value last written for key `code`, or None when the key was never written. */
  function LastKeyValue(log: seq<Action>, code: int): Option<int>
  {
    if log == [] then None
    else
      var a := log[|log| - 1];
      if IsKeyWrite(a) && a.code == code then Some(a.value)
      else LastKeyValue(log[..|log| - 1], code)
  }

  /**
   * The last value is one written for the key with no later write for it,
   * and there is none exactly when the key was never written.
   */
  lemma {:induction false} LastKeyValueMeaning(log: seq<Action>, code: int)
    ensures var r := LastKeyValue(log, code);
            && (r.Some? ==> exists i :: 0 <= i < |log| && log[i] == Write(EV_KEY, code, r.value)
                                        && forall j :: i < j < |log| ==> !(IsKeyWrite(log[j]) && log[j].code == code))
            && (r.None? <==> forall i :: 0 <= i < |log| ==> !(IsKeyWrite(log[i]) && log[i].code == code))
  {
    if log != [] {
      var n := |log| - 1;
      var prefix := log[..n];
      LastKeyValueMeaning(prefix, code);
      assert forall i :: 0 <= i < n ==> prefix[i] == log[i];
      var r := LastKeyValue(log, code);
      if IsKeyWrite(log[n]) && log[n].code == code {
        assert log[n] == Write(EV_KEY, code, r.value);
      } else if r.Some? {
        var i :| 0 <= i < n && prefix[i] == Write(EV_KEY, code, r.value)
                 && forall j :: i < j < n ==> !(IsKeyWrite(prefix[j]) && prefix[j].code == code);
        assert log[i] == Write(EV_KEY, code, r.value);
        assert forall j :: i < j < |log| ==> !(IsKeyWrite(log[j]) && log[j].code == code);
      }
    }
  }

  lemma {:induction false} LastKeyValueAppend(log: seq<Action>, more: seq<Action>, code: int)
    ensures LastKeyValue(log + more, code)
            == if LastKeyValue(more, code).Some? then LastKeyValue(more, code) else LastKeyValue(log, code)
  {
    if more == [] {
      assert log + more == log;
    } else {
      var n := |more| - 1;
      assert (log + more)[..|log + more| - 1] == log + more[..n];
      LastKeyValueAppend(log, more[..n], code);
    }
  }

  lemma CommittedAppend(log: seq<Action>, more: seq<Action>)
    requires Committed(log) && Committed(more)
    ensures Committed(log + more)
  {
    forall i | 0 <= i < |log + more| && IsKeyWrite((log + more)[i])
      ensures i + 1 < |log + more| && (log + more)[i + 1] == Syn
    {
      if i < |log| {
        assert IsKeyWrite(log[i]);
      } else {
        assert IsKeyWrite(more[i - |log|]);
      }
    }
  }

  lemma KeyWritesWithinAppend(log: seq<Action>, more: seq<Action>, keys: set<int>)
    requires KeyWritesWithin(log, keys) && KeyWritesWithin(more, keys)
    ensures KeyWritesWithin(log + more, keys)
  {
    forall i | 0 <= i < |log + more| && IsKeyWrite((log + more)[i])
      ensures (log + more)[i].code in keys
    {
      if i < |log| {
        assert (log + more)[i] == log[i];
      } else {
        assert (log + more)[i] == more[i - |log|];
      }
    }
  }

  /** A script's own press_key / release_key call for `key`. */
  predicate Touches(a: Action, key: int) {
    a == Press(key) || a == Release(key)
  }

  /** The script's last press_key or release_key call for `key`, if any. */
  function LastCall(log: seq<Action>, key: int): Option<Action>
  {
    if log == [] then None
    else if Touches(log[|log| - 1], key) then Some(log[|log| - 1])
    else LastCall(log[..|log| - 1], key)
  }

  /**
   * The last call is a press or release of the key made in the log with no
   * later call for the key, and there is none exactly when there was none.
   */
  lemma {:induction false} LastCallMeaning(log: seq<Action>, key: int)
    ensures var r := LastCall(log, key);
            && (r.Some? ==> Touches(r.value, key)
                            && exists i :: 0 <= i < |log| && log[i] == r.value
                                           && forall j :: i < j < |log| ==> !Touches(log[j], key))
            && (r.None? <==> forall i :: 0 <= i < |log| ==> !Touches(log[i], key))
  {
    if log != [] {
      var n := |log| - 1;
      var prefix := log[..n];
      LastCallMeaning(prefix, key);
      assert forall i :: 0 <= i < n ==> prefix[i] == log[i];
      var r := LastCall(log, key);
      if Touches(log[n], key) {
        assert log[n] == r.value;
      } else if r.Some? {
        var i :| 0 <= i < n && prefix[i] == r.value
                 && forall j :: i < j < n ==> !Touches(prefix[j], key);
        assert log[i] == r.value;
        assert forall j :: i < j < |log| ==> !Touches(log[j], key);
      }
    }
  }

  /** Whether the script leaves `key` held: its last call for `key` was a press. */
  predicate Held(log: seq<Action>, key: int) {
    LastCall(log, key) == Some(Press(key))
  }

  lemma {:induction false} LastCallAppend(log: seq<Action>, more: seq<Action>, key: int)
    ensures LastCall(log + more, key)
            == if LastCall(more, key).Some? then LastCall(more, key) else LastCall(log, key)
  {
    if more == [] {
      assert log + more == log;
    } else {
      var n := |more| - 1;
      assert (log + more)[..|log + more| - 1] == log + more[..n];
      LastCallAppend(log, more[..n], key);
    }
  }

  /** Every key the script presses or releases belongs to `keys`. */
  ghost predicate CallsWithin(log: seq<Action>, keys: set<int>) {
    forall i :: 0 <= i < |log| && (log[i].Press? || log[i].Release?) ==> log[i].key in keys
  }

  lemma CallsWithinAppend(log: seq<Action>, more: seq<Action>, keys: set<int>)
    requires CallsWithin(log, keys) && CallsWithin(more, keys)
    ensures CallsWithin(log + more, keys)
  {
    forall i | 0 <= i < |log + more| && ((log + more)[i].Press? || (log + more)[i].Release?)
      ensures (log + more)[i].key in keys
    {
      if i < |log| {
        assert (log + more)[i] == log[i];
      } else {
        assert (log + more)[i] == more[i - |log|];
      }
    }
  }

}
