/**
 * Structured log events as structlog emits them: a level, an event name and
 * the field map built from the bound context and the call's keyword arguments.
 */
module Events {
  import opened Http

  datatype Level = Info | Error

  /** A field value: a string, an integer, Python's None, or a duration in seconds. */
  datatype Value = Str(s: string) | Int(i: int) | Null | Seconds(d: real)

  type Fields = map<string, Value>

  datatype Event = Event(level: Level, name: string, fields: Fields)

  /**
   * `dict.update` and structlog's `bind` followed by keyword arguments: every
   * key of the second map wins, the first map fills in the rest.
   */
  function Merge(base: Fields, overrides: Fields): (r: Fields)
    ensures r.Keys == base.Keys + overrides.Keys
    ensures forall k :: k in overrides ==> r[k] == overrides[k]
    ensures forall k :: k in base && k !in overrides ==> r[k] == base[k]
  {
    base + overrides
  }

  /** An output sink that events are appended to, one per emitted event. */
  class EventLog {
    var events: seq<Event>

    constructor ()
      ensures events == []
    {
      events := [];
    }

    method Emit(e: Event)
      modifies this
      ensures events == old(events) + [e]
    {
      events := events + [e];
    }
  }
}
