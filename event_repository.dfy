/** `EventRepository`: the events loaded from the client, looked up by id, and
    the current events passed through from the client. */
module EventStore {
  import opened Wrappers
  import opened Text
  import opened Events

  /** An event id as the client hands it over; ids are compared through `str`. */
  datatype EventKey = IntKey(n: int) | StrKey(s: string)

  /** `str(event_id)` */
  function KeyString(key: EventKey): string {
    match key
    case IntKey(n) => DecimalString(n)
    case StrKey(s) => s
  }

  /** `str(event.event_id) == str(event_id)` */
  predicate SameId(a: EventKey, b: EventKey) {
    KeyString(a) == KeyString(b)
  }

  /** The integer `n` and the string `str(n)` name the same event. */
  lemma IntAndStrKeysAgree(n: int, key: EventKey)
    ensures SameId(IntKey(n), key) <==> SameId(StrKey(DecimalString(n)), key)
  {
  }

  /** Two integer ids match exactly when they are equal. */
  lemma IntKeysMatchWhenEqual(a: int, b: int)
    ensures SameId(IntKey(a), IntKey(b)) <==> a == b
  {
    DecimalStringInjective(a, b);
  }

  /** What the repository reads of a loaded event: its id and its name. */
  datatype EventRecord = EventRecord(eventId: EventKey, name: Option<string>)

  /** `get_event_name_by_id`: the scan over the loaded events. */
  function NameById(events: seq<EventRecord>, key: EventKey): Option<string> {
    if events == [] then None
    else if SameId(events[0].eventId, key) then events[0].name
    else NameById(events[1..], key)
  }

  /** The lookup gives None when no id matches, and otherwise the name of the
      first event whose id matches. */
  lemma {:induction false} NameByIdFirst(events: seq<EventRecord>, key: EventKey)
    ensures (forall i :: 0 <= i < |events| ==> !SameId(events[i].eventId, key)) ==> NameById(events, key).None?
    ensures (exists i :: 0 <= i < |events| && SameId(events[i].eventId, key)) ==>
      exists k :: 0 <= k < |events| && SameId(events[k].eventId, key) && NameById(events, key) == events[k].name &&
                  forall j :: 0 <= j < k ==> !SameId(events[j].eventId, key)
  {
    if events != [] && !SameId(events[0].eventId, key) {
      var tail := events[1..];
      NameByIdFirst(tail, key);
      assert forall i :: 0 < i < |events| ==> events[i] == tail[i - 1];
      if exists i :: 0 <= i < |events| && SameId(events[i].eventId, key) {
        var i :| 0 <= i < |events| && SameId(events[i].eventId, key);
        assert SameId(tail[i - 1].eventId, key);
        var k :| 0 <= k < |tail| && SameId(tail[k].eventId, key) && NameById(tail, key) == tail[k].name &&
                 forall j :: 0 <= j < k ==> !SameId(tail[j].eventId, key);
        assert events[k + 1] == tail[k];
      } else {
        assert forall i :: 0 <= i < |tail| ==> tail[i] == events[i + 1];
      }
    }
  }

  /** The lookup depends on the id only through its `str` form. */
  lemma {:induction false} NameByIdUsesStr(events: seq<EventRecord>, a: EventKey, b: EventKey)
    requires KeyString(a) == KeyString(b)
    ensures NameById(events, a) == NameById(events, b)
  {
    if events != [] {
      NameByIdUsesStr(events[1..], a, b);
    }
  }

  /** The dict `get_current_events` returns: each of its three lists may be missing. */
  datatype CurrentEvents = CurrentEvents(events: Option<seq<Event>>, challenges: Option<seq<Event>>,
                                         bosses: Option<seq<Event>>)

  /** `{}` */
  const NoCurrentEvents := CurrentEvents(None, None, None)

  /** `get_current_events`: the client's dict unchanged, `{}` after an HTTPError. */
  function GetCurrentEvents(fetched: Result<CurrentEvents>): (r: Result<CurrentEvents>)
    ensures fetched.Ok? ==> r == fetched
    ensures fetched == Raised(HttpError) ==> r == Ok(NoCurrentEvents)
    ensures r.Raised? <==> fetched.Raised? && fetched.error != HttpError
  {
    CatchHttpError(fetched, NoCurrentEvents)
  }

  /** `client.get_events()` and `client.get_current_events()` are not part of
      this model: their results are given as parameters. */
  class EventRepository {
    var events: seq<EventRecord>

    constructor FromLoaded(events: seq<EventRecord>)
      ensures this.events == events
    {
      this.events := events;
    }

    /** `EventRepository(client)`: an HTTPError while loading leaves no events. */
    static method Open(fetched: Result<seq<EventRecord>>) returns (r: Result<EventRepository>)
      ensures r.Ok? <==> CatchHttpError(fetched, []).Ok?
      ensures r.Ok? ==> fresh(r.value) && r.value.events == CatchHttpError(fetched, []).value
      ensures r.Raised? ==> r.error == fetched.error
    {
      var loaded := CatchHttpError(fetched, []);
      if loaded.Raised? {
        return Raised(loaded.error);
      }
      var repository := new EventRepository.FromLoaded(loaded.value);
      return Ok(repository);
    }

    /** The scan returns at the first event whose id matches. */
    method GetEventNameById(eventId: EventKey) returns (name: Option<string>)
      ensures name == NameById(events, eventId)
    {
      var i := 0;
      while i < |events|
        invariant 0 <= i <= |events|
        invariant NameById(events, eventId) == NameById(events[i..], eventId)
      {
        assert events[i..][1..] == events[i + 1..];
        if SameId(events[i].eventId, eventId) {
          return events[i].name;
        }
        i := i + 1;
      }
      return None;
    }

    /** `reload_events`: the list becomes the fresh load, in the client's order;
        an exception other than HTTPError escapes and leaves the list as it was. */
    method ReloadEvents(fetched: Result<seq<EventRecord>>) returns (error: Option<PyError>)
      modifies this
      ensures CatchHttpError(fetched, []).Ok? ==> error.None? && events == CatchHttpError(fetched, []).value
      ensures CatchHttpError(fetched, []).Raised? ==> error == Some(fetched.error) && events == old(events)
    {
      var loaded := CatchHttpError(fetched, []);
      if loaded.Raised? {
        return Some(loaded.error);
      }
      events := loaded.value;
      return None;
    }
  }
}
