/**
 * The event model the engine hands to scripts: the closed six-value event
 * type with its integer encoding, and the two-int event record of the C
 * library.
 */
module LibMacroTypes {
  import opened Wrappers

  /** LIBMACRO_EVENT_TYPE of the C library; EventType of the Python module. */
  datatype EventType =
    | KeyPress
    | KeyRelease
    | MousePress
    | MouseRelease
    | MouseScrollVertical
    | MouseScrollHorizontal

  /** The integer value of each type; the last one is implicit in the C enum (one after 4). */
  function Encode(t: EventType): (n: int)
    ensures 0 <= n <= 5
  {
    match t
    case KeyPress => 0
    case KeyRelease => 1
    case MousePress => 2
    case MouseRelease => 3
    case MouseScrollVertical => 4
    case MouseScrollHorizontal => 5
  }

  /** The type an integer stands for, defined exactly on 0..5. */
  function Decode(n: int): (r: Option<EventType>)
    ensures r.Some? <==> 0 <= n <= 5
    ensures r.Some? ==> Encode(r.value) == n
  {
    if n == 0 then Some(KeyPress)
    else if n == 1 then Some(KeyRelease)
    else if n == 2 then Some(MousePress)
    else if n == 3 then Some(MouseRelease)
    else if n == 4 then Some(MouseScrollVertical)
    else if n == 5 then Some(MouseScrollHorizontal)
    else None
  }

  lemma DecodeEncode(t: EventType)
    ensures Decode(Encode(t)) == Some(t)
  {
  }

  lemma EncodeInjective(s: EventType, t: EventType)
    ensures Encode(s) == Encode(t) ==> s == t
  {
  }

  predicate IsKeyType(t: EventType) { t == KeyPress || t == KeyRelease }
  predicate IsButtonType(t: EventType) { t == MousePress || t == MouseRelease }
  predicate IsScrollType(t: EventType) { t == MouseScrollVertical || t == MouseScrollHorizontal }
  predicate IsPressType(t: EventType) { t == KeyPress || t == MousePress }

  /**
   * What the engine reports for one input event: its type and its value, a
   * key or button code, or the signed scroll amount.
   */
  datatype Event = Event(kind: EventType, value: int)

  /** libmacro_event_t: exactly a pair of ints, the encoded type and the value. */
  datatype EventRecord = EventRecord(eventType: int, eventValue: int)

  function ToRecord(e: Event): (r: EventRecord)
    ensures Decode(r.eventType) == Some(e.kind)
    ensures r.eventValue == e.value
  {
    EventRecord(Encode(e.kind), e.value)
  }

  function FromRecord(r: EventRecord): (e: Option<Event>)
    ensures e.Some? <==> 0 <= r.eventType <= 5
    ensures e.Some? ==> Encode(e.value.kind) == r.eventType && e.value.value == r.eventValue
  {
    match Decode(r.eventType)
    case None => None
    case Some(t) => Some(Event(t, r.eventValue))
  }

  lemma RecordRoundTrip(e: Event)
    ensures FromRecord(ToRecord(e)) == Some(e)
  {
  }

  lemma RecordRoundTripBack(r: EventRecord)
    requires 0 <= r.eventType <= 5
    ensures ToRecord(FromRecord(r).value) == r
  {
  }

}
