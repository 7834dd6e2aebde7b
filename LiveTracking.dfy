/** The fleet operator's live map: which bus records count as active, how a
    bus's van and route are described, which bus and route are selected, and
    how long ago a record was updated. */
module LiveTracking {
  import opened Common
  import opened Types

  /** A record not flagged offline; one without the flag (older data)
      counts as online. */
  predicate NotOffline(b: BusLocation) {
    b.isOnline != Some(false)
  }

  /** The active buses: every record not flagged offline, in delivered order. */
  function ActiveBuses(all: seq<BusLocation>): (r: seq<BusLocation>)
    ensures forall i :: 0 <= i < |r| ==> r[i] in all && r[i].isOnline != Some(false)
    ensures forall i :: 0 <= i < |all| && all[i].isOnline != Some(false) ==> all[i] in r
    ensures (forall i :: 0 <= i < |all| ==> all[i].isOnline.None?) ==> r == all
  {
    FilterAllOrNone(all, NotOffline);
    Filter(all, NotOffline)
  }

  /** Two deliveries one after the other show the active buses of the first
      followed by those of the second: the filter keeps the order. */
  lemma ActiveBusesKeepsOrder(xs: seq<BusLocation>, ys: seq<BusLocation>)
    ensures ActiveBuses(xs + ys) == ActiveBuses(xs) + ActiveBuses(ys)
  {
    FilterAppend(xs, ys, NotOffline);
  }

  /** How a van is shown: its number and capacity. */
  datatype VanDetails = VanDetails(number: string, capacity: int)

  /** How a route is shown: its name, and the route itself when known. */
  datatype RouteDetails = RouteDetails(name: string, route: Option<Route>)

  /** The van of a bus: a placeholder with capacity 0 when the record has no
      van id or no van has that id; otherwise the number and capacity of the
      first van with that id. */
  function GetVanDetails(vans: seq<Van>, vanId: Option<string>): (r: VanDetails)
    ensures !Truthy(vanId) ==> r == VanDetails("Unknown Van (No ID)", 0)
    ensures Truthy(vanId) && (forall i :: 0 <= i < |vans| ==> vans[i].id != vanId.value) ==>
      r == VanDetails("Unknown Van (" + vanId.value + ")", 0)
    ensures forall k :: (Truthy(vanId) && 0 <= k < |vans| && vans[k].id == vanId.value
                         && forall j :: 0 <= j < k ==> vans[j].id != vanId.value) ==>
      r == VanDetails(vans[k].vanNumber, vans[k].capacity)
  {
    if !Truthy(vanId) then VanDetails("Unknown Van (No ID)", 0)
    else
      match Find(vans, (v: Van) => v.id == vanId.value)
      case Some(van) => VanDetails(van.vanNumber, van.capacity)
      case None => VanDetails("Unknown Van (" + vanId.value + ")", 0)
  }

  /** The route of a bus: "Unknown Route" and no route when the record has
      no route id or no route has it; otherwise the first such route. */
  function GetRouteDetails(routes: seq<Route>, routeId: Option<string>): (r: RouteDetails)
    ensures r.route.None? ==> r.name == "Unknown Route"
    ensures r.route.Some? ==> r.route.value in routes && Some(r.route.value.id) == routeId && r.name == r.route.value.name
    ensures r.route.None? <==> !Truthy(routeId) || forall i :: 0 <= i < |routes| ==> routes[i].id != routeId.value
    ensures forall k :: (Truthy(routeId) && 0 <= k < |routes| && routes[k].id == routeId.value
                         && forall j :: 0 <= j < k ==> routes[j].id != routeId.value) ==>
      r == RouteDetails(routes[k].name, Some(routes[k]))
  {
    if !Truthy(routeId) then RouteDetails("Unknown Route", None)
    else
      match Find(routes, (rt: Route) => rt.id == routeId.value)
      case Some(route) => RouteDetails(route.name, Some(route))
      case None => RouteDetails("Unknown Route", None)
  }

  /** The selected bus: the first active bus with the selected id; none when
      nothing is selected or no active bus has that id. */
  function SelectedBus(active: seq<BusLocation>, selectedId: Option<string>): (r: Option<BusLocation>)
    ensures r.Some? ==> r.value in active && selectedId == Some(r.value.busId)
    ensures r.None? <==> selectedId.None? || forall i :: 0 <= i < |active| ==> active[i].busId != selectedId.value
    ensures forall k :: (selectedId.Some? && 0 <= k < |active| && active[k].busId == selectedId.value
                         && forall j :: 0 <= j < k ==> active[j].busId != selectedId.value) ==> r == Some(active[k])
  {
    Find(active, (b: BusLocation) => Some(b.busId) == selectedId)
  }

  /** The route whose stops are drawn: only with a selected bus, and only
      when that bus's route id names a known route. */
  function SelectedRoute(routes: seq<Route>, selected: Option<BusLocation>): (r: Option<Route>)
    ensures selected.None? ==> r.None?
    ensures r.Some? ==> selected.Some? && r.value in routes && selected.value.routeId == Some(r.value.id)
    ensures selected.Some? ==> r == GetRouteDetails(routes, selected.value.routeId).route
  {
    if selected.Some? then GetRouteDetails(routes, selected.value.routeId).route else None
  }

  /** "Updated N s ago": whole seconds since `updatedAt`, rounded down (so a
      record stamped ahead of the local clock gives a negative count). */
  function SecondsAgo(now: int, updatedAt: int): (r: int)
    ensures r * 1000 <= now - updatedAt < r * 1000 + 1000
    ensures now >= updatedAt ==> r >= 0
    ensures now < updatedAt ==> r < 0
  {
    (now - updatedAt) / 1000
  }
}
