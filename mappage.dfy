/** The map page of the page-based front end: the map centre, the hovered and active
    pins, and how they highlight the markers and the list of planned locations. */
module MapPage {
  import opened Wrappers
  import opened Trip
  import MapView

  /** `defaultCenter`, a rough centre of Istanbul. */
  const DefaultCenter := MapView.LatLng(41.0082, 28.9784)

  function Latitudes(itinerary: seq<Activity>): (r: seq<real>)
    ensures |r| == |itinerary| && forall i :: 0 <= i < |r| ==> r[i] == itinerary[i].location.coordinates.lat
  {
    seq(|itinerary|, i requires 0 <= i < |itinerary| => itinerary[i].location.coordinates.lat)
  }

  function Longitudes(itinerary: seq<Activity>): (r: seq<real>)
    ensures |r| == |itinerary| && forall i :: 0 <= i < |r| ==> r[i] == itinerary[i].location.coordinates.lng
  {
    seq(|itinerary|, i requires 0 <= i < |itinerary| => itinerary[i].location.coordinates.lng)
  }

  /** `mapCenter`: the default centre for an empty itinerary, otherwise the mean
      coordinates, read with exact arithmetic. */
  function MapCenter(itinerary: seq<Activity>): (c: MapView.LatLng)
    ensures itinerary == [] ==> c == DefaultCenter
  {
    if itinerary == [] then DefaultCenter
    else
      var n := |itinerary| as real;
      MapView.LatLng(MapView.RealSum(Latitudes(itinerary)) / n, MapView.RealSum(Longitudes(itinerary)) / n)
  }

  /** A sum of `n` values between `lo` and `hi` lies between `n * lo` and `n * hi`. */
  lemma {:induction false} SumBounds(xs: seq<real>, lo: real, hi: real)
    requires forall i :: 0 <= i < |xs| ==> lo <= xs[i] <= hi
    ensures |xs| as real * lo <= MapView.RealSum(xs) <= |xs| as real * hi
    decreases |xs|
  {
    if xs != [] {
      var init := xs[..|xs| - 1];
      SumBounds(init, lo, hi);
      assert MapView.RealSum(xs) == MapView.RealSum(init) + xs[|xs| - 1];
      assert |xs| as real * lo == |init| as real * lo + lo;
      assert |xs| as real * hi == |init| as real * hi + hi;
    }
  }

  /** The mean of values between `lo` and `hi` lies between them. */
  lemma MeanBounds(xs: seq<real>, lo: real, hi: real)
    requires xs != []
    requires forall i :: 0 <= i < |xs| ==> lo <= xs[i] <= hi
    ensures lo <= MapView.RealSum(xs) / |xs| as real <= hi
  {
    SumBounds(xs, lo, hi);
    DivideBounds(MapView.RealSum(xs), |xs| as real, lo, hi);
  }

  lemma DivideBounds(sum: real, n: real, lo: real, hi: real)
    requires n > 0.0 && n * lo <= sum <= n * hi
    ensures lo <= sum / n <= hi
  {
    var m := sum / n;
    assert n * (m - lo) == sum - n * lo;
    assert n * (hi - m) == n * hi - sum;
  }

  /** The centre lies within any box holding every activity's coordinates; in particular
      activities all at one spot centre the map on that spot. */
  lemma CenterInBox(itinerary: seq<Activity>, south: real, north: real, west: real, east: real)
    requires itinerary != []
    requires forall a :: a in itinerary ==>
      south <= a.location.coordinates.lat <= north && west <= a.location.coordinates.lng <= east
    ensures var c := MapCenter(itinerary);
      south <= c.lat <= north && west <= c.lng <= east
  {
    var lats := Latitudes(itinerary);
    var lngs := Longitudes(itinerary);
    forall i | 0 <= i < |itinerary| ensures south <= lats[i] <= north && west <= lngs[i] <= east {
      assert itinerary[i] in itinerary;
    }
    MeanBounds(lats, south, north);
    MeanBounds(lngs, west, east);
  }

  const ErrorMessage := "Error loading maps. Please check the API key."

  /** One location in the side list: highlighted when hovered or active. */
  datatype Entry = Entry(id: string, highlighted: bool)

  /** One marker: drawn in the primary colour when hovered, in the accent colour otherwise. */
  datatype Marker = Marker(id: string, primaryFill: bool, at: Coordinates)

  /** What the page shows: only the error line on a load error; otherwise the map (or
      its loading line) beside the list of planned locations. */
  datatype Screen =
    | LoadError(message: string)
    | Page(markers: Option<seq<Marker>>, center: MapView.LatLng, entries: seq<Entry>)

  predicate ListHighlighted(hoveredPin: Option<string>, activeMarker: Option<string>, id: string) {
    hoveredPin == Some(id) || activeMarker == Some(id)
  }

  predicate PrimaryFill(hoveredPin: Option<string>, id: string) {
    hoveredPin == Some(id)
  }

  function Markers(itinerary: seq<Activity>, hoveredPin: Option<string>): (r: seq<Marker>)
    ensures |r| == |itinerary|
    ensures forall i :: 0 <= i < |r| ==> (r[i].id == itinerary[i].id
      && r[i].at == itinerary[i].location.coordinates
      && (r[i].primaryFill <==> hoveredPin == Some(itinerary[i].id)))
  {
    seq(|itinerary|, i requires 0 <= i < |itinerary| =>
      Marker(itinerary[i].id, PrimaryFill(hoveredPin, itinerary[i].id), itinerary[i].location.coordinates))
  }

  function Entries(itinerary: seq<Activity>, hoveredPin: Option<string>, activeMarker: Option<string>): (r: seq<Entry>)
    ensures |r| == |itinerary|
    ensures forall i :: 0 <= i < |r| ==> (r[i].id == itinerary[i].id
      && (r[i].highlighted <==> hoveredPin == Some(itinerary[i].id) || activeMarker == Some(itinerary[i].id)))
  {
    seq(|itinerary|, i requires 0 <= i < |itinerary| =>
      Entry(itinerary[i].id, ListHighlighted(hoveredPin, activeMarker, itinerary[i].id)))
  }

  function Render(loadError: bool, isLoaded: bool, itinerary: seq<Activity>,
                  hoveredPin: Option<string>, activeMarker: Option<string>): (s: Screen)
    ensures s.LoadError? <==> loadError
    ensures s.LoadError? ==> s.message == ErrorMessage
    ensures s.Page? ==> ((s.markers.Some? <==> isLoaded)
      && (s.markers.Some? ==> s.markers.value == Markers(itinerary, hoveredPin))
      && s.center == MapCenter(itinerary)
      && s.entries == Entries(itinerary, hoveredPin, activeMarker))
  {
    if loadError then LoadError(ErrorMessage)
    else Page(if isLoaded then Some(Markers(itinerary, hoveredPin)) else None,
              MapCenter(itinerary), Entries(itinerary, hoveredPin, activeMarker))
  }

  /** A marker in the primary colour always has its list entry highlighted. */
  lemma PrimaryMarkerHighlightsEntry(itinerary: seq<Activity>, hoveredPin: Option<string>,
                                     activeMarker: Option<string>, i: nat)
    requires i < |itinerary| && Markers(itinerary, hoveredPin)[i].primaryFill
    ensures Entries(itinerary, hoveredPin, activeMarker)[i].highlighted
  {
  }

  /** The pins' state. */
  class Pins {
    var hoveredPin: Option<string>
    var activeMarker: Option<string>

    constructor ()
      ensures hoveredPin.None? && activeMarker.None?
    {
      hoveredPin := None;
      activeMarker := None;
    }

    function View(loadError: bool, isLoaded: bool, itinerary: seq<Activity>): (s: Screen)
      reads this
      ensures s == Render(loadError, isLoaded, itinerary, hoveredPin, activeMarker)
    {
      Render(loadError, isLoaded, itinerary, hoveredPin, activeMarker)
    }

    /** `handleMarkerClick`, from a marker or a list entry. */
    method Click(id: string)
      modifies this
      ensures hoveredPin == Some(id) && activeMarker == Some(id)
    {
      activeMarker := Some(id);
      hoveredPin := Some(id);
    }

    /** Mouse-over of a marker or mouse-enter of a list entry. */
    method Hover(id: string)
      modifies this
      ensures hoveredPin == Some(id) && activeMarker == old(activeMarker)
    {
      hoveredPin := Some(id);
    }

    /** Mouse-out of a marker or mouse-leave of a list entry: only the hover is cleared. */
    method Leave()
      modifies this
      ensures hoveredPin.None? && activeMarker == old(activeMarker)
    {
      hoveredPin := None;
    }
  }

  /** Clicking an entry and moving the pointer away keeps it highlighted through the
      active marker, while its marker goes back to the accent colour. */
  method ClickThenLeave(p: Pins, id: string)
    modifies p
    ensures ListHighlighted(p.hoveredPin, p.activeMarker, id)
    ensures !PrimaryFill(p.hoveredPin, id)
  {
    p.Click(id);
    p.Leave();
  }
}
