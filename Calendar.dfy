/** The calendar store (src/store/useCalendarStore.ts). Event ids come from
    `Math.random().toString(36).substr(2, 9)`; the base-36 digits after "0."
    are a parameter of `AddEvent`. Timestamps are milliseconds. */
module Calendar {
  import opened Common

  datatype EventType = Core | SystemEvent | Recon | Logs

  datatype EventPriority = High | Medium | Low

  datatype EventStatus = Active | Pending | Completed

  datatype CalendarEvent = CalendarEvent(
    id: string,
    title: string,
    description: Option<string>,
    startTimestamp: int,
    endTimestamp: int,
    eventType: EventType,
    priority: EventPriority,
    status: EventStatus,
    alertFired: Option<bool>,
    notes: Option<string>)

  /** What `addEvent` is given: an event without id. */
  datatype EventDraft = EventDraft(
    title: string,
    description: Option<string>,
    startTimestamp: int,
    endTimestamp: int,
    eventType: EventType,
    priority: EventPriority,
    status: EventStatus,
    alertFired: Option<bool>,
    notes: Option<string>)

  /** Only the events are kept in local storage. */
  datatype PersistedCalendar = PersistedCalendar(events: seq<CalendarEvent>)

  function EventId(e: CalendarEvent): string { e.id }

  function WithId(d: EventDraft, id: string): (e: CalendarEvent)
    ensures e.id == id && e.title == d.title && e.startTimestamp == d.startTimestamp && e.endTimestamp == d.endTimestamp
    ensures e.alertFired == d.alertFired && e.status == d.status && e.priority == d.priority
  {
    CalendarEvent(id, d.title, d.description, d.startTimestamp, d.endTimestamp, d.eventType, d.priority, d.status, d.alertFired, d.notes)
  }

  /** `Math.random().toString(36).substr(2, 9)`, given the digits after "0.". */
  function EventIdFrom(digits: string): (r: string)
    ensures |r| <= 9 && |r| <= |digits| && r == digits[..|r|]
  {
    Take(digits, 9)
  }

  function Fired(e: CalendarEvent): CalendarEvent {
    CalendarEvent(e.id, e.title, e.description, e.startTimestamp, e.endTimestamp, e.eventType, e.priority, e.status, Some(true), e.notes)
  }

  /** The events after `markAlertFired(id)`: the flag is set on each event
      with the id, and nothing else changes. */
  function FireMatching(es: seq<CalendarEvent>, id: string): (r: seq<CalendarEvent>)
    ensures |r| == |es|
    ensures forall k :: 0 <= k < |es| && es[k].id == id ==> r[k].alertFired == Some(true)
    ensures forall k :: 0 <= k < |es| ==> (r[k].id == es[k].id && r[k].title == es[k].title && r[k].startTimestamp == es[k].startTimestamp)
    ensures forall k :: 0 <= k < |es| && es[k].id == id ==> r[k] == es[k].(alertFired := Some(true))
    ensures forall k :: 0 <= k < |es| && es[k].id != id ==> r[k] == es[k]
  {
    MapMatching(es, EventId, id, Fired)
  }

  /** Marking an alert a second time changes nothing. */
  lemma {:induction false} FireIdempotent(es: seq<CalendarEvent>, id: string)
    ensures FireMatching(FireMatching(es, id), id) == FireMatching(es, id)
  {
    var once := FireMatching(es, id);
    var twice := FireMatching(once, id);
    forall k | 0 <= k < |es|
      ensures twice[k] == once[k]
    {
      if es[k].id == id {
        assert once[k] == Fired(es[k]);
        assert twice[k] == Fired(once[k]);
      }
    }
  }

  /** Deleting removes every event with the id; an absent id changes
      nothing, and deleting twice is deleting once. */
  lemma DeleteProperties(es: seq<CalendarEvent>, id: string)
    ensures forall k :: 0 <= k < |FilterOut(es, EventId, id)| ==> FilterOut(es, EventId, id)[k].id != id
    ensures (forall k :: 0 <= k < |es| ==> es[k].id != id) ==> FilterOut(es, EventId, id) == es
    ensures FilterOut(FilterOut(es, EventId, id), EventId, id) == FilterOut(es, EventId, id)
  {
    FilterOutIdempotent(es, EventId, id);
  }

  /** With a fresh id, deleting the event just added gives back the events
      as they were. */
  lemma {:induction false} AddThenDelete(es: seq<CalendarEvent>, e: CalendarEvent)
    requires forall k :: 0 <= k < |es| ==> es[k].id != e.id
    ensures FilterOut(es + [e], EventId, e.id) == es
  {
    FilterOutAppend(es, [e], EventId, e.id);
    assert FilterOut([e], EventId, e.id) == [];
  }

  class CalendarStore {
    var events: seq<CalendarEvent>
    var isLoading: bool
    var selectedDate: int

    /** The initial state; `now` is `Date.now()` in a browser and 0 when
        rendered on the server. */
    constructor (now: Option<int>)
      ensures events == [] && !isLoading && selectedDate == now.GetOr(0)
    {
      events, isLoading, selectedDate := [], false, now.GetOr(0);
    }

    /** What `partialize` writes to storage. */
    function Persisted(): (p: PersistedCalendar)
      reads this
      ensures p.events == events
    {
      PersistedCalendar(events)
    }

    method SetEvents(es: seq<CalendarEvent>)
      modifies this
      ensures events == es && isLoading == old(isLoading) && selectedDate == old(selectedDate)
    {
      events := es;
    }

    method AddEvent(draft: EventDraft, digits: string)
      modifies this
      ensures events == old(events) + [WithId(draft, EventIdFrom(digits))]
      ensures isLoading == old(isLoading) && selectedDate == old(selectedDate)
    {
      events := events + [WithId(draft, EventIdFrom(digits))];
    }

    method DeleteEvent(id: string)
      modifies this
      ensures events == FilterOut(old(events), EventId, id)
      ensures isLoading == old(isLoading) && selectedDate == old(selectedDate)
    {
      events := FilterOut(events, EventId, id);
    }

    /** Only the selected day changes, so nothing persisted changes. */
    method SetSelectedDate(date: int)
      modifies this
      ensures selectedDate == date && events == old(events) && isLoading == old(isLoading)
      ensures Persisted() == old(Persisted())
    {
      selectedDate := date;
    }

    method MarkAlertFired(eventId: string)
      modifies this
      ensures events == FireMatching(old(events), eventId)
      ensures isLoading == old(isLoading) && selectedDate == old(selectedDate)
    {
      events := FireMatching(events, eventId);
    }
  }
}
