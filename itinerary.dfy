/** The itinerary JSON that the backend serves and the chat-driven front end reads
    (`/api/itinerary`, `/api/day/{n}`, `/api/activity/{id}`). */
module Itinerary {
  import opened Wrappers

  /** `cost`: both fields may be missing. */
  datatype Cost = Cost(estimatedAmount: Option<int>, category: Option<string>)

  datatype Location = Location(latitude: real, longitude: real, address: Option<string>)

  datatype Activity = Activity(
    id: string,
    name: string,
    description: string,
    category: string,
    startTime: string,
    endTime: string,
    imageUrl: string,
    cost: Option<Cost>,
    location: Option<Location>)

  /** One itinerary day; `activities` is None when the key is missing. */
  datatype Day = Day(day: int, activities: Option<seq<Activity>>)

  /** The loaded document. `otherFields` says whether the JSON object has keys besides
      "itinerary"; an object with no keys at all is falsy in Python. */
  datatype Document = Document(itinerary: Option<seq<Day>>, otherFields: bool) {
    predicate Truthy() {
      itinerary.Some? || otherFields
    }
  }

  /** `data.get("itinerary", [])`. */
  function DaysOf(doc: Document): seq<Day> {
    doc.itinerary.GetOr([])
  }

  /** `day.get("activities", [])`. */
  function ActivitiesOf(d: Day): seq<Activity> {
    d.activities.GetOr([])
  }

  predicate AllHaveActivities(days: seq<Day>) {
    forall i :: 0 <= i < |days| ==> days[i].activities.Some?
  }

  /** `days.flatMap(day => day.activities)` followed by a field read on each element:
      None when some day has no `activities` (the read of `undefined` throws). */
  function FlattenDays(days: seq<Day>): (r: Option<seq<Activity>>)
    ensures r.Some? <==> AllHaveActivities(days)
  {
    if days == [] then Some([])
    else
      var init := FlattenDays(days[..|days| - 1]);
      var last := days[|days| - 1];
      assert AllHaveActivities(days) <==> AllHaveActivities(days[..|days| - 1]) && last.activities.Some?;
      if init.Some? && last.activities.Some? then Some(init.value + last.activities.value) else None
  }

  /** The activities of the whole itinerary in day order; None when the document has no
      "itinerary" key or a day has no activities. */
  function Flatten(doc: Document): (r: Option<seq<Activity>>)
    ensures r.Some? <==> doc.itinerary.Some? && AllHaveActivities(doc.itinerary.value)
  {
    if doc.itinerary.Some? then FlattenDays(doc.itinerary.value) else None
  }

  /** Each activity as a defined array entry. */
  function Defined(acts: seq<Activity>): (r: seq<Option<Activity>>)
    ensures |r| == |acts| && forall k :: 0 <= k < |acts| ==> r[k] == Some(acts[k])
  {
    seq(|acts|, k requires 0 <= k < |acts| => Some(acts[k]))
  }

  /** No entry of the array is `undefined`. */
  predicate AllDefined(r: seq<Option<Activity>>) {
    forall k :: 0 <= k < |r| ==> r[k].Some?
  }

  lemma AllDefinedConcat(a: seq<Option<Activity>>, b: seq<Option<Activity>>)
    ensures AllDefined(a + b) <==> AllDefined(a) && AllDefined(b)
  {
    assert forall k :: 0 <= k < |a| ==> (a + b)[k] == a[k];
    assert forall k :: 0 <= k < |b| ==> (a + b)[|a| + k] == b[k];
  }

  lemma DefinedConcat(a: seq<Activity>, b: seq<Activity>)
    ensures Defined(a + b) == Defined(a) + Defined(b)
  {
    assert forall k :: 0 <= k < |a| ==> (a + b)[k] == a[k];
    assert forall k :: 0 <= k < |b| ==> (a + b)[|a| + k] == b[k];
  }

  /** The array `days.flatMap(day => day.activities)` itself: a day without `activities`
      contributes one `undefined` entry (None), because `flatMap` keeps a result that is
      not an array as a single element. */
  function FlatMapActivities(days: seq<Day>): (r: seq<Option<Activity>>)
    ensures AllDefined(r) <==> AllHaveActivities(days)
    ensures AllHaveActivities(days) ==> r == Defined(FlattenDays(days).value)
  {
    if days == [] then []
    else
      var n := |days| - 1;
      var init := FlatMapActivities(days[..n]);
      assert AllHaveActivities(days) <==> AllHaveActivities(days[..n]) && days[n].activities.Some?;
      if days[n].activities.Some? then
        var acts := days[n].activities.value;
        AllDefinedConcat(init, Defined(acts));
        DefinedConcat(FlattenDays(days[..n]).GetOr([]), acts);
        init + Defined(acts)
      else
        var tail: seq<Option<Activity>> := [None];
        assert !tail[0].Some?;
        AllDefinedConcat(init, tail);
        init + tail
  }

  /** Flattening keeps every activity of every day and nothing else. */
  lemma {:induction false} FlattenDaysMembers(days: seq<Day>, a: Activity)
    requires AllHaveActivities(days)
    ensures a in FlattenDays(days).value <==> exists i :: 0 <= i < |days| && a in days[i].activities.value
  {
    if days != [] {
      var init := days[..|days| - 1];
      FlattenDaysMembers(init, a);
      assert forall i :: 0 <= i < |init| ==> init[i] == days[i];
    }
  }
}
