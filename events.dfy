/**
 * The events slice of the client store: the list of events and the selected
 * one, changed in place by five reducers.
 */
module Events {
  import opened Wrappers
  import opened Seqs

  /**
   * An event record. Its `id` identifies it; the remaining fields stand for the
   * record's payload, with the three date strings every reducer copies.
   * `repetition` is absent for a one-off event.
   */
  datatype Event = Event(
    id: int,
    title: string,
    description: string,
    startDate: string,
    endDate: string,
    eventDate: string,
    repetition: Option<string>)

  /** `{ ...e, startDate: e.startDate, endDate: e.endDate, eventDate: e.eventDate }` */
  function Copy(e: Event): (c: Event)
    ensures c == e
  {
    e.(startDate := e.startDate, endDate := e.endDate, eventDate := e.eventDate)
  }

  function HasId(id: int): Event -> bool {
    (e: Event) => e.id == id
  }

  /** `findIndex(event => event.id === id)`. */
  function IndexOfId(events: seq<Event>, id: int): (k: int)
    ensures -1 <= k < |events|
    ensures k >= 0 ==> events[k].id == id && forall j :: 0 <= j < k ==> events[j].id != id
    ensures k == -1 <==> forall j :: 0 <= j < |events| ==> events[j].id != id
  {
    FindIndex(events, HasId(id))
  }

  /** What `updateEvent(e)` leaves: the first event with `e`'s id replaced by `e`. */
  function ReplaceFirst(events: seq<Event>, e: Event): seq<Event> {
    var k := IndexOfId(events, e.id);
    if k == -1 then events else events[k := e]
  }

  /** What `deleteEvent(id)` leaves: the events whose id differs from `id`. */
  function WithoutId(events: seq<Event>, id: int): seq<Event> {
    Filter(events, (e: Event) => e.id != id)
  }

  /**
   * Only the first event carrying `e`'s id becomes `e`; length and every other
   * position are kept; with no event of that id the list is unchanged.
   */
  lemma ReplaceFirstSpec(events: seq<Event>, e: Event)
    ensures var r := ReplaceFirst(events, e);
      |r| == |events| &&
      ((forall j :: 0 <= j < |events| ==> events[j].id != e.id) ==> r == events) &&
      forall k :: 0 <= k < |events| && events[k].id == e.id &&
                  (forall j :: 0 <= j < k ==> events[j].id != e.id) ==>
        r[k] == e && forall j :: 0 <= j < |events| && j != k ==> r[j] == events[j]
  {
  }

  /**
   * No event with `id` survives, every other event keeps its number of
   * occurrences, the survivors keep their relative order, and an absent id
   * changes nothing.
   */
  lemma WithoutIdSpec(events: seq<Event>, id: int)
    ensures var r := WithoutId(events, id);
      (forall j :: 0 <= j < |r| ==> r[j].id != id) &&
      (forall e: Event :: e.id != id ==> multiset(r)[e] == multiset(events)[e]) &&
      IsSubsequence(r, events) &&
      ((forall j :: 0 <= j < |events| ==> events[j].id != id) ==> r == events)
  {
    var r := WithoutId(events, id);
    forall j | 0 <= j < |r| ensures r[j].id != id {
      assert r[j] in r;
    }
    if forall j :: 0 <= j < |events| ==> events[j].id != id {
      FilterKeepsAll(events, (e: Event) => e.id != id);
    }
  }

  /** `EventsState` and its reducers. `initialState` is the constructor. */
  class EventsState {
    var events: seq<Event>
    var selectedEvent: Option<Event>

    constructor ()
      ensures events == [] && selectedEvent == None
    {
      events := [];
      selectedEvent := None;
    }

    /** `getEvents`: the list becomes the payload, element by element. */
    method GetEvents(payload: seq<Event>)
      modifies this
      ensures events == payload
      ensures selectedEvent == old(selectedEvent)
    {
      events := Map(payload, Copy);
      assert events == payload;
    }

    /** `getEvent`: selects the payload; the list is untouched. */
    method GetEvent(e: Event)
      modifies this
      ensures selectedEvent == Some(e)
      ensures events == old(events)
    {
      selectedEvent := Some(Copy(e));
    }

    /** `addEvent`: appends, with no check for an existing id. */
    method AddEvent(e: Event)
      modifies this
      ensures events == old(events) + [e]
      ensures selectedEvent == old(selectedEvent)
    {
      var newEvent := Copy(e);
      events := events + [newEvent];
    }

    /** `updateEvent`: replaces the first event with the payload's id, if any. */
    method UpdateEvent(e: Event)
      modifies this
      ensures events == ReplaceFirst(old(events), e)
      ensures selectedEvent == old(selectedEvent)
    {
      var index := IndexOfId(events, e.id);
      if index != -1 {
        events := events[index := Copy(e)];
      }
    }

    /** `deleteEvent`: drops every event with the given id. */
    method DeleteEvent(id: int)
      modifies this
      ensures events == WithoutId(old(events), id)
      ensures selectedEvent == old(selectedEvent)
    {
      events := Filter(events, (e: Event) => e.id != id);
    }
  }

  /**
   * A scripted session: load, select, add, update and delete, starting from
   * `initialState`. The selection keeps the stale copy of the event even after
   * that event is updated and deleted.
   */
  method SelectionIsNeverRefreshed(a: Event, b: Event, renamed: string)
    returns (events: seq<Event>, selected: Option<Event>)
    requires a.id != b.id
    ensures events == [b]
    ensures selected == Some(a)
  {
    var state := new EventsState();
    state.GetEvents([a]);
    state.GetEvent(a);
    state.AddEvent(b);
    state.UpdateEvent(a.(title := renamed));
    state.DeleteEvent(a.id);
    WithoutIdSpec([a.(title := renamed), b], a.id);
    assert state.events == [b] by {
      assert Filter([b], (e: Event) => e.id != a.id) == [b];
      assert [a.(title := renamed), b] == [a.(title := renamed)] + [b];
      FilterAppend([a.(title := renamed)], [b], (e: Event) => e.id != a.id);
    }
    events, selected := state.events, state.selectedEvent;
  }
}
