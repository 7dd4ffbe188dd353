/** The calendar view of the chat-driven front end: which days it requests and the
    calendar events it builds from the answers. */
module CalendarView {
  import opened Wrappers
  import opened Strings
  import opened Itinerary
  import Sse

  const AllDays: seq<int> := [1, 2, 3, 4, 5, 6, 7]

  /** `daysToFetch`: the payload's day numbers when they form a non-empty array, else the
      whole week. */
  function DaysToFetch(payload: Option<Sse.Payload>): (r: seq<int>)
    ensures |r| > 0
    ensures payload.Some? && payload.value.dayNumbers.Some? && |payload.value.dayNumbers.value| > 0 ==>
      r == payload.value.dayNumbers.value
    ensures !(payload.Some? && payload.value.dayNumbers.Some? && |payload.value.dayNumbers.value| > 0) ==>
      r == AllDays
  {
    if payload.Some? && payload.value.dayNumbers.Some? && |payload.value.dayNumbers.value| > 0
    then payload.value.dayNumbers.value else AllDays
  }

  /** The URL of each day request, one per day and in the same order. */
  function DayRequests(days: seq<int>): (r: seq<string>)
    ensures |r| == |days|
    ensures forall i :: 0 <= i < |days| ==> r[i] == "/api/day/" + IntToString(days[i])
  {
    seq(|days|, i requires 0 <= i < |days| => "/api/day/" + IntToString(days[i]))
  }

  datatype CalendarEvent = CalendarEvent(id: string, title: string, start: string, end: string)

  function ToEvent(a: Activity): CalendarEvent {
    CalendarEvent(a.id, a.name, a.startTime, a.endTime)
  }

  /** One answer's events: its `activities` (none when the field is missing), each mapped. */
  function DayEvents(activities: Option<seq<Activity>>): (r: seq<CalendarEvent>)
    ensures activities.None? ==> r == []
    ensures activities.Some? ==>
      |r| == |activities.value| && forall j :: 0 <= j < |r| ==> r[j] == ToEvent(activities.value[j])
  {
    var acts := activities.GetOr([]);
    seq(|acts|, j requires 0 <= j < |acts| => ToEvent(acts[j]))
  }

  /** `daysData.flatMap(...)`: the answers' events, concatenated in request order. The
      answer for a day is the `activities` field of the JSON the day request returned. */
  function Events(days: seq<int>, answer: int -> Option<seq<Activity>>): (r: seq<CalendarEvent>)
    ensures days == [] ==> r == []
  {
    if days == [] then []
    else Events(days[..|days| - 1], answer) + DayEvents(answer(days[|days| - 1]))
  }

  /** An event is shown exactly when it comes from the answer of one of the requested days. */
  lemma {:induction false} EventsMembers(days: seq<int>, answer: int -> Option<seq<Activity>>)
    ensures forall e :: e in Events(days, answer) <==> exists i :: 0 <= i < |days| && e in DayEvents(answer(days[i]))
    decreases |days|
  {
    if days != [] {
      var init := days[..|days| - 1];
      EventsMembers(init, answer);
      assert forall i :: 0 <= i < |init| ==> init[i] == days[i];
    }
  }

  /** The events of later requests follow those of earlier ones. */
  lemma {:induction false} EventsConcat(a: seq<int>, b: seq<int>, answer: int -> Option<seq<Activity>>)
    ensures Events(a + b, answer) == Events(a, answer) + Events(b, answer)
    decreases |b|
  {
    if b == [] {
      assert a + b == a;
    } else {
      var init := b[..|b| - 1];
      var last := DayEvents(answer(b[|b| - 1]));
      calc {
        Events(a + b, answer);
        { assert (a + b)[..|a + b| - 1] == a + init; }
        Events(a + init, answer) + last;
        { EventsConcat(a, init, answer); }
        Events(a, answer) + Events(init, answer) + last;
        Events(a, answer) + (Events(init, answer) + last);
      }
    }
  }

  /** The backend's 404 body has no activities field, so a missing day adds no events. */
  lemma MissingDayAddsNothing(days: seq<int>, n: int, answer: int -> Option<seq<Activity>>)
    requires answer(n).None?
    ensures Events(days + [n], answer) == Events(days, answer)
  {
    assert (days + [n])[..|days|] == days;
  }

  /** The view's state. */
  class Calendar {
    var events: seq<CalendarEvent>
    var loading: bool

    constructor ()
      ensures events == [] && loading
    {
      events := [];
      loading := true;
    }

    /** `fetchCalendarData`: returns the requests it issues; on success the events are
        rebuilt, on failure they keep their previous value; loading ends either way. */
    method Load(payload: Option<Sse.Payload>, answer: int -> Option<seq<Activity>>, failed: bool)
      returns (requests: seq<string>)
      modifies this
      ensures requests == DayRequests(DaysToFetch(payload))
      ensures !failed ==> events == Events(DaysToFetch(payload), answer)
      ensures failed ==> events == old(events)
      ensures !loading
    {
      var daysToFetch := DaysToFetch(payload);
      loading := true;
      requests := DayRequests(daysToFetch);
      if !failed {
        events := Events(daysToFetch, answer);
      }
      loading := false;
    }
  }
}
