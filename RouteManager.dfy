/** The administrator's route editor: an ordered list of stops built up by
    appending stops and removing them by position, saved as a new route or
    over the route being edited. */
module RouteManager {
  import opened Common
  import opened Types

  datatype View = List | Create

  /** What the editor asks the route store to do. */
  datatype SaveRequest =
    | CreateRoute(name: string, stops: seq<Stop>)
    | UpdateRoute(id: string, name: string, stops: seq<Stop>)

  function RequestStops(q: SaveRequest): seq<Stop> {
    match q
    case CreateRoute(_, stops) => stops
    case UpdateRoute(_, _, stops) => stops
  }

  function RequestName(q: SaveRequest): string {
    match q
    case CreateRoute(name, _) => name
    case UpdateRoute(_, name, _) => name
  }

  /** `stops.filter((_, idx) => idx !== i)`: the list without position `i`,
      the rest in order; a position outside the list removes nothing. */
  function RemoveAt<T>(s: seq<T>, i: int): (r: seq<T>)
    ensures 0 <= i < |s| ==> |r| == |s| - 1
    ensures 0 <= i < |s| ==> forall j :: 0 <= j < i ==> r[j] == s[j]
    ensures 0 <= i < |s| ==> forall j :: i <= j < |r| ==> r[j] == s[j + 1]
    ensures !(0 <= i < |s|) ==> r == s
    decreases |s|
  {
    if s == [] then []
    else (if i == 0 then [] else [s[0]]) + RemoveAt(s[1..], i - 1)
  }

  /** Removing the stop that Add Stop just appended gives back the list
      from before the add, and the position removed is the new stop's. */
  lemma {:induction false} RemoveUndoesAdd<T>(s: seq<T>, x: T)
    ensures RemoveAt(s + [x], |s|) == s
    ensures (s + [x])[|s|] == x
  {
    var r := RemoveAt(s + [x], |s|);
    assert |r| == |s|;
    forall j | 0 <= j < |s|
      ensures r[j] == s[j]
    {
      assert r[j] == (s + [x])[j];
    }
  }

  /** The editor's form state, and every request sent to the route store. */
  class Editor {
    var view: View
    var editId: Option<string>
    var routeName: string
    var stops: seq<Stop>
    var stopName: string
    var stopLat: string
    var stopLng: string
    var tempMarker: Option<Fix>
    ghost var requests: seq<SaveRequest>

    /** Every route sent to the store is named and has at least one stop. */
    ghost predicate Valid()
      reads this
    {
      forall k :: 0 <= k < |requests| ==> RequestName(requests[k]) != "" && |RequestStops(requests[k])| >= 1
    }

    constructor ()
      ensures Valid()
      ensures view == List && editId.None? && routeName == "" && stops == []
      ensures stopName == "" && stopLat == "" && stopLng == "" && tempMarker.None?
      ensures requests == []
    {
      view, editId, routeName, stops := List, None, "", [];
      stopName, stopLat, stopLng, tempMarker := "", "", "", None;
      requests := [];
    }

    /** Add Stop. With the name, latitude or longitude field empty nothing
        changes. Otherwise a stop built from the fields (with the caller's
        fresh id; `parse` reads a coordinate field) is appended, and the
        name, coordinates and marker are cleared. */
    method AddStop(freshId: string, parse: string -> real)
      requires Valid()
      modifies this
      ensures Valid()
      ensures view == old(view) && editId == old(editId) && routeName == old(routeName)
      ensures requests == old(requests)
      ensures old(stopName) == "" || old(stopLat) == "" || old(stopLng) == "" ==>
        && stops == old(stops) && stopName == old(stopName)
        && stopLat == old(stopLat) && stopLng == old(stopLng) && tempMarker == old(tempMarker)
      ensures old(stopName) != "" && old(stopLat) != "" && old(stopLng) != "" ==>
        && stops == old(stops) + [Stop(freshId, old(stopName), parse(old(stopLat)), parse(old(stopLng)))]
        && stopName == "" && stopLat == "" && stopLng == "" && tempMarker.None?
    {
      if stopName == "" || stopLat == "" || stopLng == "" {
        return;
      }
      var newStop := Stop(freshId, stopName, parse(stopLat), parse(stopLng));
      stops := stops + [newStop];
      stopName := "";
      tempMarker := None;
      stopLat := "";
      stopLng := "";
    }

    /** The remove button of the stop at position `i`. */
    method RemoveStop(i: int)
      requires Valid()
      modifies this`stops
      ensures Valid()
      ensures stops == RemoveAt(old(stops), i)
    {
      stops := RemoveAt(stops, i);
    }

    /** Save Route. With no name or no stops nothing happens. Otherwise the
        route is sent as an update of the route being edited, or as a new
        route; when the store accepts it the form is reset to an empty list
        view, and when the store fails the form is left as it was. */
    method SaveRoute(storeOk: bool)
      requires Valid()
      modifies this
      ensures Valid()
      ensures old(routeName) == "" || |old(stops)| == 0 ==>
        view == old(view) && editId == old(editId) && routeName == old(routeName) && stops == old(stops)
        && stopLat == old(stopLat) && stopLng == old(stopLng) && tempMarker == old(tempMarker)
        && requests == old(requests)
      ensures old(routeName) != "" && |old(stops)| > 0 ==>
        requests == old(requests) + [
          if Truthy(old(editId)) then UpdateRoute(old(editId).value, old(routeName), old(stops))
          else CreateRoute(old(routeName), old(stops))]
      ensures old(routeName) != "" && |old(stops)| > 0 && storeOk ==>
        && routeName == "" && stops == [] && editId.None? && tempMarker.None?
        && stopLat == "" && stopLng == "" && view == List
      ensures old(routeName) != "" && |old(stops)| > 0 && !storeOk ==>
        view == old(view) && editId == old(editId) && routeName == old(routeName) && stops == old(stops)
        && stopLat == old(stopLat) && stopLng == old(stopLng) && tempMarker == old(tempMarker)
      ensures stopName == old(stopName)
    {
      if routeName == "" || |stops| == 0 {
        return;
      }
      if Truthy(editId) {
        requests := requests + [UpdateRoute(editId.value, routeName, stops)];
      } else {
        requests := requests + [CreateRoute(routeName, stops)];
      }
      if !storeOk {
        return;
      }
      routeName := "";
      stops := [];
      editId := None;
      tempMarker := None;
      stopLat := "";
      stopLng := "";
      view := List;
    }

    /** Edit: load the route's id, name and stops into the form and open it. */
    method Edit(route: Route)
      requires Valid()
      modifies this
      ensures Valid()
      ensures editId == Some(route.id) && routeName == route.name && stops == route.stops
      ensures tempMarker.None? && stopLat == "" && stopLng == "" && view == Create
      ensures stopName == old(stopName) && requests == old(requests)
    {
      editId := Some(route.id);
      routeName := route.name;
      stops := route.stops;
      tempMarker := None;
      stopLat := "";
      stopLng := "";
      view := Create;
    }

    /** Create Route: an empty form for a new route. */
    method NewRoute()
      requires Valid()
      modifies this
      ensures Valid()
      ensures editId.None? && routeName == "" && stops == []
      ensures tempMarker.None? && stopLat == "" && stopLng == "" && view == Create
      ensures stopName == old(stopName) && requests == old(requests)
    {
      editId := None;
      routeName := "";
      stops := [];
      tempMarker := None;
      stopLat := "";
      stopLng := "";
      view := Create;
    }

    /** Cancel: clear the form and return to the list. */
    method Cancel()
      requires Valid()
      modifies this
      ensures Valid()
      ensures editId.None? && routeName == "" && stops == []
      ensures tempMarker.None? && stopLat == "" && stopLng == "" && view == List
      ensures stopName == old(stopName) && requests == old(requests)
    {
      editId := None;
      routeName := "";
      stops := [];
      tempMarker := None;
      stopLat := "";
      stopLng := "";
      view := List;
    }
  }
}
