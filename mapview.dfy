/** The map view of the chat-driven front end: the requested activities that have a
    location, the map centre, and the marker selection. */
module MapView {
  import opened Wrappers
  import opened Seqs
  import opened Itinerary
  import MoodBoard
  import Sse

  /** One marker: an activity's id, name and coordinates. */
  datatype MapLocation = MapLocation(id: string, name: string, latitude: real, longitude: real)

  predicate Relevant(ids: seq<string>, a: Activity) {
    a.id in ids && a.location.Some?
  }

  function ToLocation(a: Activity): MapLocation
    requires a.location.Some?
  {
    MapLocation(a.id, a.name, a.location.value.latitude, a.location.value.longitude)
  }

  /** `relevantLocations`: the requested activities that have a location, in itinerary
      order, each projected to its id, name and coordinates. */
  function RelevantLocations(acts: seq<Activity>, ids: seq<string>): (r: seq<MapLocation>)
    ensures |r| <= |acts|
    ensures forall l :: l in r <==> exists a :: a in acts && Relevant(ids, a) && l == ToLocation(a)
  {
    if acts == [] then []
    else
      var init := acts[..|acts| - 1];
      var a := acts[|acts| - 1];
      assert forall b :: b in acts <==> b in init || b == a by {
        assert acts == init + [a];
      }
      RelevantLocations(init, ids) + (if Relevant(ids, a) then [ToLocation(a)] else [])
  }

  /** The reduce computing the centre: each coordinate divided by the count, summed. */
  function ScaledSum(coords: seq<real>, n: real): real
    requires n != 0.0
  {
    if coords == [] then 0.0 else ScaledSum(coords[..|coords| - 1], n) + coords[|coords| - 1] / n
  }

  function RealSum(coords: seq<real>): real {
    if coords == [] then 0.0 else RealSum(coords[..|coords| - 1]) + coords[|coords| - 1]
  }

  /** Read with exact arithmetic, the reduce is the mean of the coordinates. */
  lemma {:induction false} ScaledSumIsMean(coords: seq<real>, n: real)
    requires n != 0.0
    ensures ScaledSum(coords, n) == RealSum(coords) / n
    decreases |coords|
  {
    if coords != [] {
      ScaledSumIsMean(coords[..|coords| - 1], n);
    }
  }

  function Latitudes(locs: seq<MapLocation>): seq<real> {
    seq(|locs|, i requires 0 <= i < |locs| => locs[i].latitude)
  }

  function Longitudes(locs: seq<MapLocation>): seq<real> {
    seq(|locs|, i requires 0 <= i < |locs| => locs[i].longitude)
  }

  datatype LatLng = LatLng(lat: real, lng: real)

  /** The map centre for a non-empty list: the mean latitude and longitude. */
  function Center(locs: seq<MapLocation>): (c: LatLng)
    requires |locs| > 0
    ensures c.lat == RealSum(Latitudes(locs)) / |locs| as real
    ensures c.lng == RealSum(Longitudes(locs)) / |locs| as real
  {
    var n := |locs| as real;
    ScaledSumIsMean(Latitudes(locs), n);
    ScaledSumIsMean(Longitudes(locs), n);
    LatLng(ScaledSum(Latitudes(locs), n), ScaledSum(Longitudes(locs), n))
  }

  /** `acts.find(act => act.id === id)` on an array without `undefined` entries. */
  function FindById(acts: seq<Activity>, id: string): (r: Option<Activity>)
    ensures r.Some? ==> exists k :: (0 <= k < |acts| && acts[k] == r.value && r.value.id == id
                                     && forall j :: 0 <= j < k ==> acts[j].id != id)
    ensures r.None? <==> forall k :: 0 <= k < |acts| ==> acts[k].id != id
  {
    if acts == [] then None
    else if acts[0].id == id then Some(acts[0])
    else
      var r := FindById(acts[1..], id);
      assert forall k :: 1 <= k < |acts| ==> acts[1..][k - 1] == acts[k];
      r
  }

  /** The outcome of `find` on an array that may hold `undefined` entries: the first
      match, no match (`undefined`), or a TypeError from reading `id` of an `undefined`
      entry reached before any match. */
  datatype Lookup = Found(activity: Activity) | NotFound | Threw

  /** No entry before position `k` is undefined or has the id. */
  predicate ClearBefore(acts: seq<Option<Activity>>, id: string, k: int) {
    forall j :: 0 <= j < k && j < |acts| ==> acts[j].Some? && acts[j].value.id != id
  }

  /** `allActivities.find(act => act.id === id)`, scanning from the front. */
  function Find(acts: seq<Option<Activity>>, id: string): (r: Lookup)
    ensures r.Found? ==> exists k :: 0 <= k < |acts| && ClearBefore(acts, id, k)
                                    && acts[k] == Some(r.activity) && r.activity.id == id
    ensures r.NotFound? <==> ClearBefore(acts, id, |acts|)
    ensures r.Threw? <==> exists k :: 0 <= k < |acts| && ClearBefore(acts, id, k) && acts[k].None?
  {
    if acts == [] then NotFound
    else if acts[0].None? then
      assert ClearBefore(acts, id, 0);
      Threw
    else if acts[0].value.id == id then
      assert ClearBefore(acts, id, 0);
      Found(acts[0].value)
    else
      var r := Find(acts[1..], id);
      assert forall k :: 0 <= k <= |acts[1..]| ==> (ClearBefore(acts[1..], id, k) <==> ClearBefore(acts, id, k + 1)) by {
        forall k | 0 <= k <= |acts[1..]|
          ensures ClearBefore(acts[1..], id, k) <==> ClearBefore(acts, id, k + 1)
        {
          assert forall j :: 0 <= j < k ==> acts[1..][j] == acts[j + 1];
        }
      }
      assert forall k :: 0 <= k < |acts[1..]| ==> acts[1..][k] == acts[k + 1];
      assert ClearBefore(acts, id, 1);
      if r.Threw? then
        var k :| 0 <= k < |acts[1..]| && ClearBefore(acts[1..], id, k) && acts[1..][k].None?;
        assert ClearBefore(acts, id, k + 1) && acts[k + 1].None?;
        r
      else if r.Found? then
        var k :| 0 <= k < |acts[1..]| && ClearBefore(acts[1..], id, k) && acts[1..][k] == Some(r.activity);
        assert ClearBefore(acts, id, k + 1) && acts[k + 1] == Some(r.activity);
        assert forall k :: 0 <= k < |acts| && ClearBefore(acts, id, k) ==> !acts[k].None? by {
          forall k | 0 <= k < |acts| && ClearBefore(acts, id, k) ensures !acts[k].None? {
            if k > 0 { assert ClearBefore(acts[1..], id, k - 1); }
          }
        }
        r
      else
        assert forall k :: 0 <= k < |acts| && ClearBefore(acts, id, k) ==> !acts[k].None? by {
          forall k | 0 <= k < |acts| && ClearBefore(acts, id, k) ensures !acts[k].None? {
            if k > 0 { assert ClearBefore(acts[1..], id, k - 1); }
          }
        }
        r
  }

  /** On an array of defined activities `find` never throws, and it agrees with FindById. */
  lemma {:induction false} FindDefined(acts: seq<Activity>, id: string)
    ensures Find(Defined(acts), id) == if FindById(acts, id).Some? then Found(FindById(acts, id).value) else NotFound
    decreases |acts|
  {
    if acts != [] && acts[0].id != id {
      assert Defined(acts)[1..] == Defined(acts[1..]);
      FindDefined(acts[1..], id);
    }
  }

  /** What the view shows. */
  datatype Screen = Spinner | NoLocations(message: string) | Markers(locations: seq<MapLocation>, center: LatLng)

  function Render(loading: bool, locations: seq<MapLocation>): (s: Screen)
    ensures s == Spinner <==> loading
    ensures s.NoLocations? <==> !loading && locations == []
    ensures s.NoLocations? ==> s.message == "No locations to display on the map."
    ensures s.Markers? ==> s.locations == locations && locations != [] && s.center == Center(locations)
  {
    if loading then Spinner
    else if locations == [] then NoLocations("No locations to display on the map.")
    else Markers(locations, Center(locations))
  }

  /** The view's state. `allActivities` holds the array `flatMap` built, which may contain
      `undefined` entries (None). */
  class Map {
    var allActivities: seq<Option<Activity>>
    var locations: seq<MapLocation>
    var loading: bool
    var selectedActivity: Option<Activity>

    constructor ()
      ensures allActivities == [] && locations == [] && loading && selectedActivity.None?
    {
      allActivities := [];
      locations := [];
      loading := true;
      selectedActivity := None;
    }

    /** `fetchMapData`. A missing payload throws before anything is set, so the spinner
        stays; no requested ids end loading without a fetch. Otherwise, once the document
        has an itinerary, the flattened array is stored even when it holds `undefined`
        entries; the filter then throws on the first of them, so the locations are only
        replaced when every day has activities. A failed fetch (`fetched` is None) or a
        document without an itinerary throws before either list is set. */
    method Load(payload: Option<Sse.Payload>, fetched: Option<Document>)
      modifies this
      ensures payload.None? ==> loading == old(loading)
      ensures payload.Some? ==> !loading
      ensures Fetched(payload, fetched) ==> allActivities == FlatMapActivities(fetched.value.itinerary.value)
      ensures !Fetched(payload, fetched) ==> allActivities == old(allActivities)
      ensures Fetched(payload, fetched) && Flatten(fetched.value).Some? ==>
        locations == RelevantLocations(Flatten(fetched.value).value, payload.value.activityIds.value)
      ensures !(Fetched(payload, fetched) && Flatten(fetched.value).Some?) ==> locations == old(locations)
      ensures selectedActivity == old(selectedActivity)
    {
      if payload.None? {
        return;
      }
      if !MoodBoard.NamesActivities(payload) {
        loading := false;
        return;
      }
      loading := true;
      if fetched.Some? && fetched.value.itinerary.Some? {
        allActivities := FlatMapActivities(fetched.value.itinerary.value);
        match Flatten(fetched.value)
        case Some(activities) =>
          locations := RelevantLocations(activities, payload.value.activityIds.value);
        case None =>
      }
      loading := false;
    }

    /** `handleMarkerClick`: selects the first activity with the marker's id, clears the
        selection when there is none (`find` gives `undefined`), and changes nothing when
        `find` throws on an `undefined` entry. */
    method MarkerClick(locationId: string)
      modifies this
      ensures Find(allActivities, locationId).Found? ==> selectedActivity == Some(Find(allActivities, locationId).activity)
      ensures Find(allActivities, locationId).NotFound? ==> selectedActivity.None?
      ensures Find(allActivities, locationId).Threw? ==> selectedActivity == old(selectedActivity)
      ensures allActivities == old(allActivities) && locations == old(locations) && loading == old(loading)
    {
      match Find(allActivities, locationId)
      case Found(a) => selectedActivity := Some(a);
      case NotFound => selectedActivity := None;
      case Threw =>
    }

    /** A click on the map or on the info window's close button clears the selection. */
    method ClearSelection()
      modifies this
      ensures selectedActivity.None?
      ensures allActivities == old(allActivities) && locations == old(locations) && loading == old(loading)
    {
      selectedActivity := None;
    }
  }

  /** The fetch got as far as `flatMap`: ids were requested, the fetch answered and the
      document has an itinerary. */
  predicate Fetched(payload: Option<Sse.Payload>, fetched: Option<Document>) {
    payload.Some? && MoodBoard.NamesActivities(payload) && fetched.Some? && fetched.value.itinerary.Some?
  }

  /** After a load that found every day's activities, a marker click never throws and
      selects what FindById finds among the flattened activities. */
  lemma LoadedFindDefined(days: seq<Day>, id: string)
    requires AllHaveActivities(days)
    ensures Find(FlatMapActivities(days), id)
      == if FindById(FlattenDays(days).value, id).Some? then Found(FindById(FlattenDays(days).value, id).value) else NotFound
  {
    FindDefined(FlattenDays(days).value, id);
  }
}
