/**
 * The C library: `libmacro_init` builds a context around a udev handle and
 * a libinput context claiming the seat, `libmacro_deinit` releases it, and
 * `libmacro_wait_for_event` takes events off the libinput queue, destroying
 * the ones it does not handle, until it can return one it does.
 */
module LibMacroC {
  import opened Wrappers
  import opened LibMacroTypes
  import opened Classifier
  import LibMacroPy

  /**
   * What libmacro_wait_for_event returns for a handled event: the filled-in
   * record, or, for a scroll event with neither axis, a record whose fields
   * were never assigned (their values are unspecified).
   */
  datatype Delivered = Filled(ev: Event) | Uninitialised

  function Deliver(ev: RawEvent): (d: Delivered)
    requires Recognised(ev.kind)
    ensures d.Uninitialised? <==> Classify(ev).None?
    ensures d.Filled? ==> Classify(ev) == Some(d.ev)
  {
    match Classify(ev)
    case Some(e) => Filled(e)
    case None => Uninitialised
  }

  /** What successive calls return when a queue is drained, in order. */
  function DeliverAll(queue: seq<RawEvent>): (ds: seq<Delivered>)
    ensures |ds| <= |queue|
  {
    if queue == [] then []
    else if Recognised(queue[0].kind) then [Deliver(queue[0])] + DeliverAll(queue[1..])
    else DeliverAll(queue[1..])
  }

  /** The records of a sequence of returns that were filled in. */
  function FilledEvents(ds: seq<Delivered>): (es: seq<Event>)
    ensures |es| <= |ds|
  {
    if ds == [] then []
    else (if ds[0].Filled? then [ds[0].ev] else []) + FilledEvents(ds[1..])
  }

  /**
   * The C and the Python engines report the same events for the same queue;
   * the C one also returns an unfilled record for a scroll event with
   * neither axis, where the Python one makes no callback.
   */
  lemma {:induction false} FilledEventsAreCallbacks(queue: seq<RawEvent>)
    ensures FilledEvents(DeliverAll(queue)) == LibMacroPy.Callbacks(queue)
  {
    if queue != [] {
      FilledEventsAreCallbacks(queue[1..]);
      assert queue == [queue[0]] + queue[1..];
      LibMacroPy.CallbacksPrepend(queue[0], queue[1..]);
      if Recognised(queue[0].kind) {
        var d := Deliver(queue[0]);
        assert FilledEvents([d] + DeliverAll(queue[1..]))
               == (if d.Filled? then [d.ev] else []) + FilledEvents(DeliverAll(queue[1..]));
      }
    }
  }

  /**
   * libmacro_wait_for_event over the events queued so far. Returns the event
   * it delivers (None when the queue runs dry: the C loop then goes on
   * waiting), the events left in the queue, and the events it destroyed, in
   * order.
   */
  method WaitForEvent(queue: seq<RawEvent>)
    returns (r: Option<Delivered>, rest: seq<RawEvent>, destroyed: seq<RawEvent>)
    ensures destroyed + rest == queue
    ensures r.None? <==> forall i :: 0 <= i < |queue| ==> !Recognised(queue[i].kind)
    ensures r.None? ==> rest == []
    ensures r.Some? ==> |destroyed| >= 1
                        && Recognised(destroyed[|destroyed| - 1].kind)
                        && r.value == Deliver(destroyed[|destroyed| - 1])
    ensures forall i :: 0 <= i < |destroyed| - 1 ==> !Recognised(destroyed[i].kind)
    ensures DeliverAll(queue) == (if r.Some? then [r.value] else []) + DeliverAll(rest)
  {
    var i := 0;
    destroyed := [];
    while i < |queue|
      invariant 0 <= i <= |queue|
      invariant destroyed == queue[..i]
      invariant forall j :: 0 <= j < i ==> !Recognised(queue[j].kind)
      invariant DeliverAll(queue) == DeliverAll(queue[i..])
    {
      var ev := queue[i];
      assert queue[i..] == [ev] + queue[i + 1..];
      destroyed := destroyed + [ev];
      i := i + 1;
      if Recognised(ev.kind) {
        r, rest := Some(Deliver(ev)), queue[i..];
        assert destroyed + rest == queue;
        return;
      }
    }
    r, rest := None, [];
    assert queue[..i] == queue;
  }

  /** The result libmacro_init hands back to its caller. */
  datatype Pointer = Null | Context | Indeterminate

  /**
   * What is live once a call returns: the malloc'd context, and the
   * references held on the udev handle and on the libinput context.
   */
  datatype Resources = Resources(contextAllocated: bool, udevRefs: nat, libinputRefs: nat)

  predicate Live(res: Resources) {
    res.contextAllocated && res.udevRefs >= 1 && res.libinputRefs >= 1
  }

  /**
   * libmacro_init as the code stands, `seatRc` being what claiming the seat
   * returned. On failure the context is freed and NULL returned, but the
   * udev handle and libinput context stay referenced; on success control
   * reaches the end of the function without a return statement.
   */
  function InitAsWritten(seatRc: int): (r: (Pointer, Resources))
    ensures r.0 == Null <==> seatRc != 0
    ensures seatRc != 0 ==> !r.1.contextAllocated && r.1.udevRefs == 1 && r.1.libinputRefs == 1
    ensures seatRc == 0 ==> r.0 == Indeterminate && Live(r.1)
  {
    if seatRc != 0 then (Null, Resources(false, 1, 1))
    else (Indeterminate, Resources(true, 1, 1))
  }

  /** libmacro_init with the context returned on success. */
  function Init(seatRc: int): (r: (Pointer, Resources))
    ensures r.0 != Indeterminate
    ensures r.0 == Null <==> seatRc != 0
    ensures r.0 == Context ==> Live(r.1)
    ensures r.0 == Null ==> !r.1.contextAllocated
  {
    if seatRc != 0 then (Null, Resources(false, 1, 1))
    else (Context, Resources(true, 1, 1))
  }

  /**
   * On a successful seat assignment the code as written hands back no usable
   * context, so the caller cannot even release what was allocated; the
   * corrected init hands back a live context that deinit accepts.
   */
  lemma InitAsWrittenLosesContext()
    ensures InitAsWritten(0).0 == Indeterminate && Live(InitAsWritten(0).1)
    ensures Init(0).0 == Context && Live(Init(0).1)
  {
  }

  /**
   * libmacro_deinit: nothing for NULL; otherwise drop libinput references
   * until the context is gone, drop the one udev reference, free the context.
   * Passing an indeterminate pointer is undefined in C, so it is excluded.
   */
  method Deinit(p: Pointer, res: Resources) returns (after: Resources)
    requires p != Indeterminate
    requires p == Context ==> Live(res)
    ensures p == Null ==> after == res
    ensures p == Context ==> !after.contextAllocated && after.libinputRefs == 0
                             && after.udevRefs == res.udevRefs - 1
  {
    if p == Null {
      return res;
    }
    var libinputRefs := res.libinputRefs;
    libinputRefs := libinputRefs - 1;
    while libinputRefs != 0
      decreases libinputRefs
    {
      libinputRefs := libinputRefs - 1;
    }
    after := Resources(false, res.udevRefs - 1, libinputRefs);
  }

}
