/** The driver's trip: which stop the van is heading to, whether it is near
    it, and the location record each of the dashboard's six entry points
    publishes (a GPS sample, the 5-second heartbeat, Start Trip, Mark
    Arrived, Next Stop / Finish Trip, Stop Trip).

    Each entry point is first stated as a function from the trip state
    before it to the trip state after it and the record it publishes
    (`PositionStep` … `StopStep`); the `Dashboard` class holds the same
    state in fields and its methods are proved to follow those functions.
    The great-circle distance is not computed here: it is the parameter
    `distance`, and the model only compares its value with the 100 m
    radius. */
module DriverDashboard {
  import opened Common
  import opened Types

  /** Distance (metres) under which the van counts as arriving at its stop. */
  const ArrivalRadius: real := 100.0

  /** `calculateDistance(lat1, lng1, lat2, lng2)` in metres. */
  type Distance = (real, real, real, real) -> real

  /** What the dashboard loaded before any trip: the signed-in user's uid and
      the van and route assigned to the driver (either may be missing). */
  datatype Assignment = Assignment(uid: Option<string>, van: Option<Van>, route: Option<Route>)

  /** The trip state kept between events. `heartbeatFix` is the location
      the heartbeat timer's closure captured when the trip was started; the
      timer keeps sending it however the van moves afterwards. */
  datatype Trip = Trip(
    isDriving: bool,
    stopIndex: nat,
    status: ArrivalStatus,
    location: Option<Fix>,
    heartbeatFix: Option<Fix>)

  /** The state after an entry point and the record it published, if any. */
  datatype Outcome = Outcome(trip: Trip, write: Option<LocationUpdate>)

  /** Off duty, heading to the first stop, no position yet. */
  const Initial: Trip := Trip(false, 0, EnRoute, None, None)

  // ----- small helpers for the `x?.field || ''` forms of the handlers -----

  /** `route && route.stops[index]`: the stop the van is heading to. */
  function TargetStop(route: Option<Route>, index: nat): Option<Stop> {
    if route.Some? && index < |route.value.stops| then Some(route.value.stops[index]) else None
  }

  function RouteIdOrEmpty(route: Option<Route>): string {
    if route.Some? then route.value.id else ""
  }

  function VanIdOrEmpty(van: Option<Van>): string {
    if van.Some? then van.value.id else ""
  }

  /** `location?.[0] || 0` and `location?.[1] || 0`. */
  function LatOrZero(fix: Option<Fix>): real {
    if fix.Some? then fix.value.lat else 0.0
  }

  function LngOrZero(fix: Option<Fix>): real {
    if fix.Some? then fix.value.lng else 0.0
  }

  /** Classifies the distance to the target stop against the radius. */
  function ProximityStatus(dist: real): ArrivalStatus {
    if dist < ArrivalRadius then Arriving else EnRoute
  }

  /** The record both ways of ending a trip publish: position (0, 0), no
      route, stamped with the clock and marked offline. */
  function OfflineUpdate(uid: Option<string>, now: int): LocationUpdate {
    var busId := if uid.Some? then uid.value else "";
    LocationUpdate(busId, 0.0, 0.0, None, "", None, None, None, None, Some(now), Some(false))
  }

  /** The records an outcome adds to the published log. */
  function Writes(o: Outcome): seq<LocationUpdate> {
    if o.write.Some? then [o.write.value] else []
  }

  // ----- the six entry points -----

  /** A position from the geolocation watch (only registered while driving
      with a signed-in user). The status is re-derived from the distance to
      the current target stop; with no stop at the index it is published as
      en route with empty next-stop fields and the local status is left
      alone. The index and the driving flag are never touched. */
  function PositionStep(a: Assignment, t: Trip, s: GpsSample, distance: Distance): (r: Outcome)
    requires t.isDriving && a.uid.Some?
    ensures r.trip == t.(location := Some(Fix(s.lat, s.lng)), status := r.trip.status)
    ensures r.write.Some?
    ensures var w := r.write.value;
      && w.busId == a.uid.value && w.lat == s.lat && w.lng == s.lng
      && w.speed == Some(if s.speed.Some? then s.speed.value else 0.0)
      && w.routeId == (if a.route.Some? then a.route.value.id else "")
      && w.vanId == Some(if a.van.Some? then a.van.value.id else "")
      && w.updatedAt.None? && w.isOnline.None?
      && w.arrivalStatus != Some(Arrived)
    ensures a.route.Some? && t.stopIndex < |a.route.value.stops| ==>
      var stop := a.route.value.stops[t.stopIndex];
      var w := r.write.value;
      && (w.arrivalStatus == Some(Arriving) <==> distance(s.lat, s.lng, stop.lat, stop.lng) < ArrivalRadius)
      && (w.arrivalStatus == Some(EnRoute) <==> distance(s.lat, s.lng, stop.lat, stop.lng) >= ArrivalRadius)
      && w.nextStopId == Some(stop.id) && w.nextStopName == Some(stop.name)
      && Some(r.trip.status) == w.arrivalStatus
    ensures !(a.route.Some? && t.stopIndex < |a.route.value.stops|) ==>
      var w := r.write.value;
      && w.arrivalStatus == Some(EnRoute)
      && w.nextStopId == Some("") && w.nextStopName == Some("")
      && r.trip.status == t.status
  {
    var stop := TargetStop(a.route, t.stopIndex);
    var status :=
      if stop.Some? then ProximityStatus(distance(s.lat, s.lng, stop.value.lat, stop.value.lng))
      else EnRoute;
    var local := if stop.Some? then status else t.status;
    var write := LocationUpdate(
      a.uid.value, s.lat, s.lng,
      Some(if s.speed.Some? then s.speed.value else 0.0),
      RouteIdOrEmpty(a.route), Some(VanIdOrEmpty(a.van)),
      Some(if stop.Some? then stop.value.id else ""),
      Some(if stop.Some? then stop.value.name else ""),
      Some(status), None, None);
    Outcome(t.(location := Some(Fix(s.lat, s.lng)), status := local), Some(write))
  }

  /** The 5-second heartbeat (only registered while driving with a
      signed-in user). It writes only when both route and van are loaded,
      always with speed 0 and status en route whatever the local status,
      at the position captured when the trip started (0 when there was
      none); a missing stop at the index leaves the next-stop fields
      undefined. It changes no trip state. */
  function HeartbeatStep(a: Assignment, t: Trip): (r: Outcome)
    requires t.isDriving && a.uid.Some?
    ensures r.trip == t
    ensures r.write.Some? <==> a.route.Some? && a.van.Some?
    ensures r.write.Some? ==>
      var w := r.write.value;
      var stops := a.route.value.stops;
      && w.busId == a.uid.value
      && w.speed == Some(0.0) && w.arrivalStatus == Some(EnRoute)
      && w.lat == (if t.heartbeatFix.Some? then t.heartbeatFix.value.lat else 0.0)
      && w.lng == (if t.heartbeatFix.Some? then t.heartbeatFix.value.lng else 0.0)
      && w.routeId == a.route.value.id && w.vanId == Some(a.van.value.id)
      && (t.stopIndex < |stops| ==> w.nextStopId == Some(stops[t.stopIndex].id) && w.nextStopName == Some(stops[t.stopIndex].name))
      && (t.stopIndex >= |stops| ==> w.nextStopId.None? && w.nextStopName.None?)
      && w.updatedAt.None? && w.isOnline.None?
  {
    if a.route.Some? && a.van.Some? then
      var stop := TargetStop(a.route, t.stopIndex);
      Outcome(t, Some(LocationUpdate(
        a.uid.value, LatOrZero(t.heartbeatFix), LngOrZero(t.heartbeatFix), Some(0.0),
        a.route.value.id, Some(a.van.value.id),
        if stop.Some? then Some(stop.value.id) else None,
        if stop.Some? then Some(stop.value.name) else None,
        Some(EnRoute), None, None)))
    else
      Outcome(t, None)
  }

  /** Start Trip. The van starts driving, the heartbeat captures the current
      position, and (with user, route and van present) a record naming the
      first stop, or `''` when the route has none, is published as en route.
      The index and the local status are left as they were. */
  function StartStep(a: Assignment, t: Trip): (r: Outcome)
    ensures r.trip == t.(isDriving := true, heartbeatFix := t.location)
    ensures r.write.Some? <==> a.uid.Some? && a.route.Some? && a.van.Some?
    ensures r.write.Some? ==>
      var w := r.write.value;
      var stops := a.route.value.stops;
      && w.busId == a.uid.value
      && w.lat == LatOrZero(t.location) && w.lng == LngOrZero(t.location)
      && w.speed == Some(0.0) && w.arrivalStatus == Some(EnRoute)
      && w.routeId == a.route.value.id && w.vanId == Some(a.van.value.id)
      && w.nextStopId == Some(if |stops| > 0 then stops[0].id else "")
      && w.nextStopName == Some(if |stops| > 0 then stops[0].name else "")
      && w.updatedAt.None? && w.isOnline.None?
  {
    var t' := t.(isDriving := true, heartbeatFix := t.location);
    if a.uid.Some? && a.route.Some? && a.van.Some? then
      var stops := a.route.value.stops;
      Outcome(t', Some(LocationUpdate(
        a.uid.value, LatOrZero(t.location), LngOrZero(t.location), Some(0.0),
        a.route.value.id, Some(a.van.value.id),
        Some(if |stops| > 0 then stops[0].id else ""),
        Some(if |stops| > 0 then stops[0].name else ""),
        Some(EnRoute), None, None)))
    else
      Outcome(t', None)
  }

  /** Mark Arrived. The local status becomes arriving, but the record
      published says arrived. Nothing is published without a position fix
      or a user, nor when a loaded route has no stop at the index (reading
      the stop's id fails before the write). */
  function ArrivedStep(a: Assignment, t: Trip): (r: Outcome)
    ensures r.trip == t.(status := Arriving)
    ensures r.write.Some? <==>
      t.location.Some? && a.uid.Some? && (a.route.Some? ==> t.stopIndex < |a.route.value.stops|)
    ensures r.write.Some? ==>
      var w := r.write.value;
      && w.busId == a.uid.value
      && w.lat == t.location.value.lat && w.lng == t.location.value.lng
      && w.arrivalStatus == Some(Arrived) && w.speed.None?
      && w.routeId == RouteIdOrEmpty(a.route) && w.vanId == Some(VanIdOrEmpty(a.van))
      && (a.route.Some? ==>
            && w.nextStopId == Some(a.route.value.stops[t.stopIndex].id)
            && w.nextStopName == Some(a.route.value.stops[t.stopIndex].name))
      && (a.route.None? ==> w.nextStopId.None? && w.nextStopName.None?)
      && w.updatedAt.None? && w.isOnline.None?
  {
    var t' := t.(status := Arriving);
    if t.location.Some? && a.uid.Some? then
      if a.route.Some? && t.stopIndex >= |a.route.value.stops| then
        Outcome(t', None)
      else
        var stop := TargetStop(a.route, t.stopIndex);
        Outcome(t', Some(LocationUpdate(
          a.uid.value, t.location.value.lat, t.location.value.lng, None,
          RouteIdOrEmpty(a.route), Some(VanIdOrEmpty(a.van)),
          if stop.Some? then Some(stop.value.id) else None,
          if stop.Some? then Some(stop.value.name) else None,
          Some(Arrived), None, None)))
    else
      Outcome(t', None)
  }

  /** Next Stop / Finish Trip. Without a route nothing happens. Before the
      last stop the index moves on by exactly one, the status resets to en
      route and (with user and van) the new target stop is published.
      At the last stop, or on a route with no stops, the trip ends: driving
      stops, the index returns to 0 and the offline record is published.
      The handler itself does not check that a trip is running. */
  function NextStep(a: Assignment, t: Trip, now: int): (r: Outcome)
    ensures a.route.None? ==> r == Outcome(t, None)
    ensures a.route.Some? && t.stopIndex + 1 < |a.route.value.stops| ==>
      var stops := a.route.value.stops;
      && r.trip == t.(stopIndex := t.stopIndex + 1, status := EnRoute)
      && (r.write.Some? <==> a.uid.Some? && a.van.Some?)
      && (r.write.Some? ==>
            var w := r.write.value;
            && w.busId == a.uid.value
            && w.lat == LatOrZero(t.location) && w.lng == LngOrZero(t.location)
            && w.nextStopId == Some(stops[t.stopIndex + 1].id)
            && w.nextStopName == Some(stops[t.stopIndex + 1].name)
            && w.arrivalStatus == Some(EnRoute)
            && w.routeId == a.route.value.id && w.vanId == Some(a.van.value.id)
            && w.speed.None? && w.updatedAt.None? && w.isOnline.None?)
    ensures a.route.Some? && t.stopIndex + 1 >= |a.route.value.stops| ==>
      && r.trip == t.(isDriving := false, stopIndex := 0)
      && r.write.Some?
      && var w := r.write.value;
      && w.busId == (if a.uid.Some? then a.uid.value else "")
      && w.lat == 0.0 && w.lng == 0.0 && w.routeId == ""
      && w.isOnline == Some(false) && w.updatedAt == Some(now)
      && w.speed.None? && w.vanId.None? && w.nextStopId.None? && w.nextStopName.None?
      && w.arrivalStatus.None?
  {
    if a.route.None? then Outcome(t, None)
    else
      var stops := a.route.value.stops;
      if t.stopIndex < |stops| - 1 then
        var next := t.stopIndex + 1;
        var t' := t.(stopIndex := next, status := EnRoute);
        if a.uid.Some? && a.van.Some? then
          Outcome(t', Some(LocationUpdate(
            a.uid.value, LatOrZero(t.location), LngOrZero(t.location), None,
            a.route.value.id, Some(a.van.value.id),
            Some(stops[next].id), Some(stops[next].name),
            Some(EnRoute), None, None)))
        else
          Outcome(t', None)
      else
        Outcome(t.(isDriving := false, stopIndex := 0), Some(OfflineUpdate(a.uid, now)))
  }

  /** Stop Trip & Go Offline, after the driver's confirmation: driving
      stops, the index returns to 0 and the offline record is published.
      Declining the confirmation changes nothing. */
  function StopStep(a: Assignment, t: Trip, confirmed: bool, now: int): (r: Outcome)
    ensures !confirmed ==> r == Outcome(t, None)
    ensures confirmed ==>
      && r.trip == t.(isDriving := false, stopIndex := 0)
      && r.write.Some?
      && var w := r.write.value;
      && w.busId == (if a.uid.Some? then a.uid.value else "")
      && w.lat == 0.0 && w.lng == 0.0 && w.routeId == ""
      && w.isOnline == Some(false) && w.updatedAt == Some(now)
      && w.speed.None? && w.vanId.None? && w.nextStopId.None? && w.nextStopName.None?
      && w.arrivalStatus.None?
  {
    if confirmed then
      Outcome(t.(isDriving := false, stopIndex := 0), Some(OfflineUpdate(a.uid, now)))
    else
      Outcome(t, None)
  }

  // ----- the entry points as events of one run -----

  datatype Event =
    | Position(sample: GpsSample)
    | Heartbeat
    | StartTrip
    | MarkArrived
    | NextStop(now: int)
    | StopTrip(confirmed: bool, now: int)

  /** Whether an event can happen in a state: the geolocation watch and the
      heartbeat exist only while driving with a signed-in user; the buttons
      exist only once van and route are loaded, Start Trip only while off
      duty and the other three only while driving. */
  predicate Enabled(a: Assignment, t: Trip, e: Event) {
    match e
    case Position(_) => t.isDriving && a.uid.Some?
    case Heartbeat => t.isDriving && a.uid.Some?
    case StartTrip => a.van.Some? && a.route.Some? && !t.isDriving
    case _ => a.van.Some? && a.route.Some? && t.isDriving
  }

  /** The index points at a stop of the route, or is 0; off duty it is 0. */
  predicate TripValid(a: Assignment, t: Trip) {
    && (!t.isDriving ==> t.stopIndex == 0)
    && (t.stopIndex == 0 || (a.route.Some? && t.stopIndex < |a.route.value.stops|))
  }

  function Dispatch(a: Assignment, t: Trip, e: Event, distance: Distance): Outcome
    requires Enabled(a, t, e)
  {
    match e
    case Position(s) => PositionStep(a, t, s, distance)
    case Heartbeat => HeartbeatStep(a, t)
    case StartTrip => StartStep(a, t)
    case MarkArrived => ArrivedStep(a, t)
    case NextStop(now) => NextStep(a, t, now)
    case StopTrip(confirmed, now) => StopStep(a, t, confirmed, now)
  }

  /** One event. Every event keeps the index valid; during a trip the index
      only moves forward, by one stop at a time; leaving a trip always
      returns the index to 0 with one offline record; and only Mark Arrived
      ever publishes the arrived status. */
  function Step(a: Assignment, t: Trip, e: Event, distance: Distance): (r: Outcome)
    ensures !Enabled(a, t, e) ==> r == Outcome(t, None)
    ensures TripValid(a, t) ==> TripValid(a, r.trip)
    ensures t.isDriving && r.trip.isDriving ==>
      r.trip.stopIndex == t.stopIndex || r.trip.stopIndex == t.stopIndex + 1
    ensures t.isDriving && !r.trip.isDriving ==>
      && r.trip.stopIndex == 0
      && r.write.Some? && r.write.value.isOnline == Some(false)
    ensures r.write.Some? && r.write.value.arrivalStatus == Some(Arrived) ==> e.MarkArrived?
  {
    if Enabled(a, t, e) then Dispatch(a, t, e, distance) else Outcome(t, None)
  }

  /** The trip state after a sequence of events. */
  function Run(a: Assignment, t: Trip, events: seq<Event>, distance: Distance): Trip
    decreases |events|
  {
    if events == [] then t
    else Run(a, Step(a, t, events[0], distance).trip, events[1..], distance)
  }

  /** Every record published along a sequence of events, in order. */
  function Published(a: Assignment, t: Trip, events: seq<Event>, distance: Distance): seq<LocationUpdate>
    decreases |events|
  {
    if events == [] then []
    else
      var o := Step(a, t, events[0], distance);
      Writes(o) + Published(a, o.trip, events[1..], distance)
  }

  /** No sequence of events breaks the index invariant. */
  lemma {:induction false} RunKeepsTripValid(a: Assignment, t: Trip, events: seq<Event>, distance: Distance)
    requires TripValid(a, t)
    ensures TripValid(a, Run(a, t, events, distance))
    decreases |events|
  {
    if events != [] {
      RunKeepsTripValid(a, Step(a, t, events[0], distance).trip, events[1..], distance);
    }
  }

  /** From the initial state, on a route with at least one stop, the index
      always names a stop of the route, whatever the events. */
  lemma StopIndexInRange(a: Assignment, events: seq<Event>, distance: Distance)
    requires a.route.Some? && |a.route.value.stops| >= 1
    ensures Run(a, Initial, events, distance).stopIndex < |a.route.value.stops|
  {
    RunKeepsTripValid(a, Initial, events, distance);
  }

  /** No automatic path publishes arrived: a run made only of GPS samples
      and heartbeats never does. */
  lemma {:induction false} NoAutomaticArrival(a: Assignment, t: Trip, events: seq<Event>, distance: Distance)
    requires forall i :: 0 <= i < |events| ==> events[i].Position? || events[i].Heartbeat?
    ensures forall w :: w in Published(a, t, events, distance) ==> w.arrivalStatus != Some(Arrived)
    decreases |events|
  {
    if events != [] {
      var o := Step(a, t, events[0], distance);
      NoAutomaticArrival(a, o.trip, events[1..], distance);
    }
  }

  /** A two-stop trip driven to the end: Start Trip, a sample near the
      first stop, Next Stop, a sample near the second stop, Finish Trip.
      The published records name the first stop en route, then arriving,
      then the second stop en route, then arriving, then the van offline. */
  lemma TwoStopTrip(a: Assignment, first: Stop, second: Stop, nearFirst: GpsSample, nearSecond: GpsSample,
                    distance: Distance, now: int)
    requires a.uid.Some? && a.van.Some? && a.route.Some? && a.route.value.stops == [first, second]
    requires distance(nearFirst.lat, nearFirst.lng, first.lat, first.lng) < ArrivalRadius
    requires distance(nearSecond.lat, nearSecond.lng, second.lat, second.lng) < ArrivalRadius
    ensures var events := [StartTrip, Position(nearFirst), NextStop(now), Position(nearSecond), NextStop(now)];
      var ws := Published(a, Initial, events, distance);
      && |ws| == 5
      && ws[0].nextStopId == Some(first.id) && ws[0].arrivalStatus == Some(EnRoute)
      && ws[1].nextStopId == Some(first.id) && ws[1].arrivalStatus == Some(Arriving)
      && ws[2].nextStopId == Some(second.id) && ws[2].arrivalStatus == Some(EnRoute)
      && ws[3].nextStopId == Some(second.id) && ws[3].arrivalStatus == Some(Arriving)
      && ws[4].isOnline == Some(false)
      && Run(a, Initial, events, distance) == Initial.(location := Some(Fix(nearSecond.lat, nearSecond.lng)),
                                                      heartbeatFix := None, status := Arriving)
  {
    var events := [StartTrip, Position(nearFirst), NextStop(now), Position(nearSecond), NextStop(now)];
    var o1 := Step(a, Initial, events[0], distance);
    var o2 := Step(a, o1.trip, events[1], distance);
    var o3 := Step(a, o2.trip, events[2], distance);
    var o4 := Step(a, o3.trip, events[3], distance);
    var o5 := Step(a, o4.trip, events[4], distance);
    assert o1.trip.isDriving && o1.trip.stopIndex == 0;
    assert o2.trip.stopIndex == 0 && o2.trip.status == Arriving;
    assert o3.trip.stopIndex == 1 && o3.trip.isDriving;
    assert o4.trip.stopIndex == 1 && o4.trip.status == Arriving;
    assert events[1..][1..][1..][1..][1..] == [];
    assert Published(a, o4.trip, events[4..], distance) == Writes(o5);
    assert Published(a, o3.trip, events[3..], distance) == Writes(o4) + Writes(o5);
    assert Published(a, o2.trip, events[2..], distance) == Writes(o3) + Writes(o4) + Writes(o5);
    assert Published(a, o1.trip, events[1..], distance) == Writes(o2) + Writes(o3) + Writes(o4) + Writes(o5);
    assert Run(a, o4.trip, events[4..], distance) == o5.trip;
    assert Run(a, o3.trip, events[3..], distance) == o5.trip;
    assert Run(a, o2.trip, events[2..], distance) == o5.trip;
    assert Run(a, o1.trip, events[1..], distance) == o5.trip;
  }

  /** The dashboard's trip state, in the fields the screen keeps. The
      assignment is loaded before any trip and is fixed here; `published`
      records every `updateLocation` call in order. */
  class Dashboard {
    const uid: Option<string>
    const van: Option<Van>
    const route: Option<Route>
    const distance: Distance

    var isDriving: bool
    var stopIndex: nat
    var status: ArrivalStatus
    var location: Option<Fix>
    var heartbeatFix: Option<Fix>
    ghost var published: seq<LocationUpdate>

    function Loaded(): Assignment {
      Assignment(uid, van, route)
    }

    function Snapshot(): Trip
      reads this
    {
      Trip(isDriving, stopIndex, status, location, heartbeatFix)
    }

    ghost predicate Valid()
      reads this
    {
      TripValid(Loaded(), Snapshot())
    }

    constructor (uid: Option<string>, van: Option<Van>, route: Option<Route>, distance: Distance)
      ensures Loaded() == Assignment(uid, van, route) && this.distance == distance
      ensures Snapshot() == Initial && published == []
      ensures Valid()
    {
      this.uid, this.van, this.route, this.distance := uid, van, route, distance;
      isDriving, stopIndex, status := false, 0, EnRoute;
      location, heartbeatFix := None, None;
      published := [];
    }

    /** Appends one record to the published log. */
    method Publish(w: LocationUpdate)
      modifies this
      ensures published == old(published) + [w]
      ensures Snapshot() == old(Snapshot())
    {
      published := published + [w];
    }

    method OnPosition(s: GpsSample)
      requires Valid() && isDriving && uid.Some?
      modifies this
      ensures Valid()
      ensures var o := PositionStep(Loaded(), old(Snapshot()), s, distance);
        Snapshot() == o.trip && published == old(published) + Writes(o)
    {
      location := Some(Fix(s.lat, s.lng));
      var reported := EnRoute;
      var nextStopId, nextStopName := "", "";
      if route.Some? && stopIndex < |route.value.stops| {
        var stop := route.value.stops[stopIndex];
        nextStopId, nextStopName := stop.id, stop.name;
        if distance(s.lat, s.lng, stop.lat, stop.lng) < ArrivalRadius {
          reported := Arriving;
        }
        status := reported;
      }
      Publish(LocationUpdate(
        uid.value, s.lat, s.lng, Some(if s.speed.Some? then s.speed.value else 0.0),
        RouteIdOrEmpty(route), Some(VanIdOrEmpty(van)),
        Some(nextStopId), Some(nextStopName), Some(reported), None, None));
    }

    method OnHeartbeat()
      requires Valid() && isDriving && uid.Some?
      modifies this
      ensures Valid()
      ensures var o := HeartbeatStep(Loaded(), old(Snapshot()));
        Snapshot() == o.trip && published == old(published) + Writes(o)
    {
      if route.Some? && van.Some? {
        var stop := TargetStop(route, stopIndex);
        Publish(LocationUpdate(
          uid.value, LatOrZero(heartbeatFix), LngOrZero(heartbeatFix), Some(0.0),
          route.value.id, Some(van.value.id),
          if stop.Some? then Some(stop.value.id) else None,
          if stop.Some? then Some(stop.value.name) else None,
          Some(EnRoute), None, None));
      }
    }

    method StartTrip()
      requires Valid() && !isDriving
      modifies this
      ensures Valid()
      ensures var o := StartStep(Loaded(), old(Snapshot()));
        Snapshot() == o.trip && published == old(published) + Writes(o)
    {
      isDriving := true;
      heartbeatFix := location;
      if uid.Some? && route.Some? && van.Some? {
        var stops := route.value.stops;
        Publish(LocationUpdate(
          uid.value, LatOrZero(location), LngOrZero(location), Some(0.0),
          route.value.id, Some(van.value.id),
          Some(if |stops| > 0 then stops[0].id else ""),
          Some(if |stops| > 0 then stops[0].name else ""),
          Some(EnRoute), None, None));
      }
    }

    method MarkArrived()
      requires Valid()
      modifies this
      ensures Valid()
      ensures var o := ArrivedStep(Loaded(), old(Snapshot()));
        Snapshot() == o.trip && published == old(published) + Writes(o)
    {
      status := Arriving;
      if location.Some? && uid.Some? {
        if route.Some? && stopIndex >= |route.value.stops| {
          return;
        }
        var stop := TargetStop(route, stopIndex);
        Publish(LocationUpdate(
          uid.value, location.value.lat, location.value.lng, None,
          RouteIdOrEmpty(route), Some(VanIdOrEmpty(van)),
          if stop.Some? then Some(stop.value.id) else None,
          if stop.Some? then Some(stop.value.name) else None,
          Some(Arrived), None, None));
      }
    }

    /** Only reachable while driving (the button is shown only then); the
        handler has no such check of its own. */
    method ManualNext(now: int)
      requires Valid() && isDriving
      modifies this
      ensures Valid()
      ensures var o := NextStep(Loaded(), old(Snapshot()), now);
        Snapshot() == o.trip && published == old(published) + Writes(o)
    {
      if route.None? {
        return;
      }
      var stops := route.value.stops;
      if stopIndex < |stops| - 1 {
        var next := stopIndex + 1;
        stopIndex := next;
        status := EnRoute;
        if uid.Some? && van.Some? {
          Publish(LocationUpdate(
            uid.value, LatOrZero(location), LngOrZero(location), None,
            route.value.id, Some(van.value.id),
            Some(stops[next].id), Some(stops[next].name),
            Some(EnRoute), None, None));
        }
      } else {
        isDriving := false;
        stopIndex := 0;
        Publish(OfflineUpdate(uid, now));
      }
    }

    method StopTrip(confirmed: bool, now: int)
      requires Valid()
      modifies this
      ensures Valid()
      ensures var o := StopStep(Loaded(), old(Snapshot()), confirmed, now);
        Snapshot() == o.trip && published == old(published) + Writes(o)
    {
      if confirmed {
        isDriving := false;
        stopIndex := 0;
        Publish(OfflineUpdate(uid, now));
      }
    }
  }
}
