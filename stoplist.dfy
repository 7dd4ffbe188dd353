/** The stop list sidebar: an accordion of stops in which at most one id is expanded. */
module StopList {
  import opened Wrappers
  import opened Strings
  import Sse

  datatype Stop = Stop(id: string, name: string, address: Option<string>,
                       packages: Option<string>, eta: Option<string>, status: Option<string>)

  /** `prev === id ? null : id`. */
  function Toggled(prev: Option<string>, id: string): (r: Option<string>)
    ensures r == None <==> prev == Some(id)
    ensures r != None ==> r == Some(id)
  {
    if prev == Some(id) then None else Some(id)
  }

  /** Toggling an id twice restores a collapsed list and a list with that id expanded; a
      list with another id expanded ends collapsed. */
  lemma ToggleTwice(prev: Option<string>, id: string)
    ensures prev == None || prev == Some(id) ==> Toggled(Toggled(prev, id), id) == prev
    ensures prev != None && prev != Some(id) ==> Toggled(Toggled(prev, id), id) == None
  {
  }

  /** The accordion's state: the single expanded id. */
  class Accordion {
    var expandedId: Option<string>

    constructor ()
      ensures expandedId.None?
    {
      expandedId := None;
    }

    /** `toggleExpand`: flips the id's expansion and returns the id handed to `onSelect`,
        which is called only when the id was not the expanded one before the click. */
    method ToggleExpand(id: string, hasOnSelect: bool) returns (selected: Option<string>)
      modifies this
      ensures expandedId == Toggled(old(expandedId), id)
      ensures selected.Some? <==> hasOnSelect && old(expandedId) != Some(id)
      ensures selected.Some? ==> selected.value == id
    {
      var before := expandedId;
      expandedId := Toggled(expandedId, id);
      selected := None;
      if hasOnSelect && before != Some(id) {
        selected := Some(id);
      }
    }

    /** The selection effect: a truthy selectedId becomes the expanded one; otherwise the
        expansion stays. */
    method SelectionChanged(selectedId: Option<string>)
      modifies this
      ensures Sse.Truthy(selectedId) ==> expandedId == selectedId
      ensures !Sse.Truthy(selectedId) ==> expandedId == old(expandedId)
    {
      if Sse.Truthy(selectedId) {
        expandedId := selectedId;
      }
    }
  }

  /** `x || fallback` for an optional text. */
  function OrElse(s: Option<string>, fallback: string): string {
    if Sse.Truthy(s) then s.value else fallback
  }

  /** One rendered row. */
  datatype Row = Row(number: nat, name: string, addressPreview: string, expanded: bool, selected: bool)

  /** What the list shows. */
  datatype Screen = Empty(message: string) | Rows(header: nat, rows: seq<Row>)

  /** The list: "No stops found." for a missing or empty list; otherwise one row per
      stop, labelled from 1, with a fallback for a missing address. */
  function Render(stops: Option<seq<Stop>>, expandedId: Option<string>, selectedId: Option<string>): (s: Screen)
    ensures s.Empty? <==> stops.None? || stops.value == []
    ensures s.Empty? ==> s.message == "No stops found."
    ensures s.Rows? ==> s.header == |stops.value| && |s.rows| == |stops.value|
    ensures s.Rows? ==> forall k :: 0 <= k < |s.rows| ==>
      s.rows[k].number == k + 1
      && s.rows[k].addressPreview == OrElse(stops.value[k].address, "Address not available")
      && (s.rows[k].expanded <==> expandedId == Some(stops.value[k].id))
      && (s.rows[k].selected <==> selectedId == Some(stops.value[k].id))
  {
    if stops.None? || stops.value == [] then Empty("No stops found.")
    else
      var st := stops.value;
      Rows(|st|, seq(|st|, k requires 0 <= k < |st| =>
        Row(k + 1, st[k].name, OrElse(st[k].address, "Address not available"),
            expandedId == Some(st[k].id), selectedId == Some(st[k].id))))
  }

  /** With distinct ids, at most one row is expanded. */
  lemma AtMostOneExpanded(stops: seq<Stop>, expandedId: Option<string>, selectedId: Option<string>, i: nat, j: nat)
    requires forall a, b :: 0 <= a < b < |stops| ==> stops[a].id != stops[b].id
    requires stops != []
    ensures var s := Render(Some(stops), expandedId, selectedId);
      i < j < |s.rows| && s.rows[i].expanded ==> !s.rows[j].expanded
  {
  }

  /** The details panel of an expanded stop, with its fallbacks. */
  datatype Details = Details(customer: string, address: string, packages: string, eta: string,
                             statusClass: string, statusText: string)

  function StopDetails(stop: Stop): (d: Details)
    ensures d.customer == stop.name
    ensures Sse.Truthy(stop.address) ==> d.address == stop.address.value
    ensures !Sse.Truthy(stop.address) ==> d.address == "N/A"
    ensures Sse.Truthy(stop.packages) ==> d.packages == stop.packages.value
    ensures !Sse.Truthy(stop.packages) ==> d.packages == "1 Item"
    ensures Sse.Truthy(stop.eta) ==> d.eta == stop.eta.value
    ensures !Sse.Truthy(stop.eta) ==> d.eta == "Pending"
    ensures Sse.Truthy(stop.status) ==> d.statusText == stop.status.value
    ensures Sse.Truthy(stop.status) ==> |d.statusClass| == |stop.status.value|
    ensures Sse.Truthy(stop.status) ==>
      forall i :: 0 <= i < |d.statusClass| ==> d.statusClass[i] == LowerChar(stop.status.value[i])
    ensures !Sse.Truthy(stop.status) ==> d.statusText == "Pending" && d.statusClass == "pending"
  {
    Details(stop.name, OrElse(stop.address, "N/A"), OrElse(stop.packages, "1 Item"), OrElse(stop.eta, "Pending"),
            if Sse.Truthy(stop.status) then ToLower(stop.status.value) else "pending",
            OrElse(stop.status, "Pending"))
  }
}
