# School-bus tracking: trip state machine and observer views, in Dafny

This project models the logic inside four screens of a school-van tracking
web app. The driver's phone reports where the van is. Parents and the fleet
administrator watch the van on a live map. Administrators edit routes.

- **Driver dashboard** (`DriverDashboard.dfy`). This is the trip state
  machine: whether the driver is on a trip (`isDriving`), which stop of the
  assigned route is the target (`stopIndex`), the local arrival status, and
  the last GPS position. It has six entry points: a GPS sample, the
  5-second heartbeat, Start Trip, Mark Arrived, Next Stop / Finish Trip and
  Stop Trip. Each publishes at most one partial location record through
  `updateLocation`.
  - Each entry point is a pure function from the trip state before to the
    trip state after plus the record written (`PositionStep` … `StopStep`).
    Their contracts state the record's contents.
  - `Step` applies one event, but only where the screen allows it: the GPS
    watch and the timer exist only while driving, and each button only
    where it is rendered. `Run` and `Published` fold `Step` over a sequence
    of events. The lemmas prove that the stop index stays in range.
  - The class `Dashboard` keeps the same state in fields, plus a ghost log
    `published` of every write. Each method is proved to follow its step
    function.
- **Student dashboard** (`StudentDashboard.dfy`). This covers which live
  buses a parent sees, the ETA line, when the setup form is shown, the
  guard on saving setup, and how the assigned van and route are looked up.
  The class `Screen` keeps the shown bus list and a ghost log of profile
  updates.
- **Live tracking** (`LiveTracking.dfy`). This covers the administrator's
  list of online buses, the van and route descriptions with their
  fallbacks, the selected bus and route, and the "Updated N s ago" count.
- **Route manager** (`RouteManager.dfy`). This is the stop-list editor. The
  class `Editor` holds the form fields. Its methods append a stop, remove a
  stop by position, save with guards, and reset the form. A ghost log
  records every request sent to the route store, and the class invariant
  proves every saved route has a name and at least one stop.
- `Common.dfy` holds `Option`, the truthiness test `Truthy`, and the
  array methods `filter` and `find` as `Filter` and `Find`. `Types.dfy`
  holds the records: stops, routes, vans, GPS samples, the written
  `LocationUpdate` and the read `BusLocation`.

Parameters replace what the code gets from outside:
- `calculateDistance` is the parameter `distance`; the model only compares
  its value with 100 m.
- The clock value written as `updatedAt` is the parameter `now`.
- The driver's answer to "End trip and go offline?" is the parameter
  `confirmed`.
- The new stop's id is the parameter `freshId`, and coordinate parsing is
  the parameter `parse`.
- Whether the route store accepted a save is the parameter `storeOk`.

## Notable behaviour of the code

The model keeps these behaviours of the code as they are:
- A trip can start on a route with no stops. Start Trip publishes an empty
  next stop, and Next then ends the trip at once.
- Ending a trip does not reset the local arrival status. Start Trip does not
  reset the stop index either; every exit path has already set it to 0.
- The heartbeat always publishes `en_route` and speed 0. Its position is the
  one captured when the trip started: the timer's closure holds the
  `location` of that render.
- Mark Arrived keeps the local status at `arriving` but publishes
  `arrived`. On a loaded route with no stop at the index, reading the
  stop's id throws before the write, so nothing is published.
- Next Stop has no check of its own that a trip is running. Only the screen
  keeps it from being pressed off duty.
- On a route with at least one stop, the index never equals the number of
  stops: finishing resets it to 0. On a route with no stops, a running
  trip sits at index 0, which is the number of stops.
- The code has no timestamp comparison, no stale-write rejection, no
  staleness window and no subscriber registry. Observers filter on the
  stored `isOnline` flag only.

## Model

| member | source | states |
|---|---|---|
| `DriverDashboard.PositionStep` | src/pages/DriverDashboard.tsx:82-126 | A GPS sample never changes the index or the driving flag and never publishes arrived. With a stop at the index, the published status is arriving iff the distance is under 100 m (en route iff at least 100), names that stop, and becomes the local status. Without one, it publishes en route with empty next-stop fields and leaves the local status. Speed is 0 when absent; route id is `''` without a route. |
| `DriverDashboard.HeartbeatStep` | src/pages/DriverDashboard.tsx:141-157 | Writes iff route and van are loaded. It always sends speed 0 and en route, at the position captured at trip start (0 if none). Next-stop fields are undefined when the index has no stop. Trip state is unchanged. |
| `DriverDashboard.StartStep` | src/pages/DriverDashboard.tsx:338-353 | The trip starts and the heartbeat captures the current position. Index and local status are unchanged. With user, route and van present, it publishes stop 0 (or `''` on an empty route) en route with speed 0, with no timestamp and no online flag. |
| `DriverDashboard.ArrivedStep` | src/pages/DriverDashboard.tsx:202-217 | The local status becomes arriving, while the record published says arrived. It publishes iff there is a position fix and a user and, when a route is loaded, the index names one of its stops. The record then names that stop (id and name), or leaves the next-stop fields undefined without a route. It carries no speed, timestamp or online flag, so the store keeps the earlier ones. |
| `DriverDashboard.NextStep` | src/pages/DriverDashboard.tsx:166-200 | Without a route, nothing happens. Before the last stop, the index grows by exactly 1, the status resets to en route, and (with user and van) the write names `stops[index+1]` and carries no speed, timestamp or online flag. At the last stop or on an empty route, the trip ends with index 0 and one offline record: bus id the user's uid (or `''`), lat 0, lng 0, route `''`, `isOnline` false, stamped now, and no speed, van, next stop or status. |
| `DriverDashboard.StopStep` | src/pages/DriverDashboard.tsx:377-390 | Once confirmed, driving stops, the index returns to 0 and the offline record is published: bus id the uid (or `''`), lat 0, lng 0, route `''`, `isOnline` false, stamped now, and no speed, van, next stop or status. Declining changes nothing. |
| `DriverDashboard.Step` | src/pages/DriverDashboard.tsx:336-396 | An event the screen does not offer changes nothing. Each event keeps the index invariant. During a trip the index only stays or moves up by one. Leaving a trip resets the index to 0 with an offline write. Only Mark Arrived publishes arrived. |
| `DriverDashboard.RunKeepsTripValid` | src/pages/DriverDashboard.tsx:166-200 | Over any sequence of events, the index stays 0 or names a stop, and it is 0 whenever the van is off duty. |
| `DriverDashboard.StopIndexInRange` | src/pages/DriverDashboard.tsx:169-190 | From the initial state, on a route with at least one stop, the index stays within [0, len-1] whatever the events. |
| `DriverDashboard.NoAutomaticArrival` | src/pages/DriverDashboard.tsx:99-110 | GPS samples and heartbeats alone never publish arrived. |
| `DriverDashboard.TwoStopTrip` | src/pages/DriverDashboard.tsx:82-200 | A two-stop trip publishes five records in order: first stop en route, arriving, second stop en route, arriving, then offline. The van ends off duty at index 0. |
| `DriverDashboard.Dashboard.constructor` | src/pages/DriverDashboard.tsx:18-30 | The dashboard starts off duty, at index 0, en route, with no position and nothing published. |
| `DriverDashboard.Dashboard.OnPosition` | src/pages/DriverDashboard.tsx:82-126 | The fields and the published log follow `PositionStep`, and the index invariant is kept. |
| `DriverDashboard.Dashboard.OnHeartbeat` | src/pages/DriverDashboard.tsx:141-157 | The fields and the published log follow `HeartbeatStep`. |
| `DriverDashboard.Dashboard.StartTrip` | src/pages/DriverDashboard.tsx:338-353 | The fields and the published log follow `StartStep`. |
| `DriverDashboard.Dashboard.MarkArrived` | src/pages/DriverDashboard.tsx:202-217 | The fields and the published log follow `ArrivedStep`. |
| `DriverDashboard.Dashboard.ManualNext` | src/pages/DriverDashboard.tsx:166-200 | The fields and the published log follow `NextStep`, and the index invariant is kept. |
| `DriverDashboard.Dashboard.StopTrip` | src/pages/DriverDashboard.tsx:377-390 | The fields and the published log follow `StopStep`. |
| `StudentDashboard.AssignedBuses` | src/pages/StudentDashboard.tsx:45-52 | With a profile van id, the result holds exactly the records with that van id and `isOnline` true. Without one, it is empty. |
| `StudentDashboard.AssignedBusesKeepsOrder` | src/pages/StudentDashboard.tsx:48 | Filtering keeps input order: filtering two batches in sequence gives the first batch's buses, then the second's. |
| `StudentDashboard.CurrentBus` | src/pages/StudentDashboard.tsx:80 | The current bus is the first shown bus, and absent iff none is shown. |
| `StudentDashboard.Eta` | src/pages/StudentDashboard.tsx:84-89 | Each of the four texts holds exactly in its case: no bus, arriving, arrived, any other status. |
| `StudentDashboard.SetupRequired` | src/pages/StudentDashboard.tsx:35-41 | Setup is never required without a profile, and not when name and van id are both filled in. It is required when either is missing or empty. |
| `StudentDashboard.SavedSetupIsComplete` | src/pages/StudentDashboard.tsx:56-68 | Every update the setup form has sent (the `Screen` log keeps only complete ones) leaves a profile that no longer asks for setup. |
| `StudentDashboard.AssignedVan` | src/pages/StudentDashboard.tsx:78 | The first van whose id equals the profile's van id. It is absent iff there is no profile or no such van. |
| `StudentDashboard.AssignedRoute` | src/pages/StudentDashboard.tsx:81 | The first route in list order whose id is the current bus's or the assigned van's route id. It is absent iff none matches. |
| `StudentDashboard.Screen.constructor` | src/pages/StudentDashboard.tsx:9-19 | Starts with no buses shown, not saving, and no updates sent; the log invariant (every update complete) holds. |
| `StudentDashboard.Screen.OnBusesSnapshot` | src/pages/StudentDashboard.tsx:44-54 | The shown buses become `AssignedBuses` of the delivered records. |
| `StudentDashboard.Screen.SaveSetup` | src/pages/StudentDashboard.tsx:56-76 | No update is sent when the user, name, student id or van id is missing. Otherwise exactly that update is sent and the busy flag ends off. Every update in the log has all fields filled in (class invariant). |
| `LiveTracking.ActiveBuses` | src/components/Admin/LiveTracking.tsx:35-41 | The result holds exactly the records not flagged `isOnline` false, so a missing flag counts as online. If no record has the flag, all are kept. |
| `LiveTracking.ActiveBusesKeepsOrder` | src/components/Admin/LiveTracking.tsx:38 | Filtering two deliveries in sequence gives the first's active buses, then the second's. |
| `LiveTracking.GetVanDetails` | src/components/Admin/LiveTracking.tsx:50-54 | No id gives `Unknown Van (No ID)` with capacity 0. An unknown id gives `Unknown Van (<id>)` with capacity 0. Otherwise it gives the first matching van's number and capacity. |
| `LiveTracking.GetRouteDetails` | src/components/Admin/LiveTracking.tsx:56-60 | No id or no match gives `Unknown Route` and no route. Otherwise it gives the first matching route and its name. |
| `LiveTracking.SelectedBus` | src/components/Admin/LiveTracking.tsx:64 | The first active bus whose `busId` is the selected id. It is absent iff nothing is selected or nothing matches. |
| `LiveTracking.SelectedRoute` | src/components/Admin/LiveTracking.tsx:65 | Defined only with a selected bus whose route id resolves, and then it is that route. |
| `LiveTracking.SecondsAgo` | src/components/Admin/LiveTracking.tsx:154 | The result is `floor((now - updatedAt) / 1000)`, stated as r·1000 ≤ now − updatedAt < r·1000 + 1000. It is negative exactly when the record is stamped ahead of the clock. |
| `RouteManager.RemoveAt` | src/components/Admin/RouteManager.tsx:286 | Removing a position in range shortens the list by one and keeps the stops before and after it in order. Out of range, the list is unchanged. |
| `RouteManager.RemoveUndoesAdd` | src/components/Admin/RouteManager.tsx:43 | Removing the last position after an append (the stop Add Stop just added) gives back the list from before the add. |
| `RouteManager.Editor.constructor` | src/components/Admin/RouteManager.tsx:7-22 | Starts in the list view with an empty form and no requests. |
| `RouteManager.Editor.AddStop` | src/components/Admin/RouteManager.tsx:35-51 | With an empty name, lat or lng field, nothing changes. Otherwise the new stop is appended last, earlier stops are unchanged, and the name, lat and lng fields and the marker are cleared. |
| `RouteManager.Editor.RemoveStop` | src/components/Admin/RouteManager.tsx:286 | The stop list becomes `RemoveAt` of the old list. |
| `RouteManager.Editor.SaveRoute` | src/components/Admin/RouteManager.tsx:85-106 | With no name or no stops, nothing happens, so every sent route has at least one stop (class invariant). Otherwise it sends an update (editing) or a create. When the store accepts, the form resets: name `''`, no stops, no edit id, no marker, lat/lng `''`, list view. |
| `RouteManager.Editor.Edit` | src/components/Admin/RouteManager.tsx:108-116 | Loads the route's id, name and stops, clears marker and coordinates, and opens the create view. |
| `RouteManager.Editor.NewRoute` | src/components/Admin/RouteManager.tsx:135-143 | Resets the edit id, route name, stops, marker and lat/lng fields and opens the create view. The stop-name field keeps its value. |
| `RouteManager.Editor.Cancel` | src/components/Admin/RouteManager.tsx:118-126 | Resets the edit id, route name, stops, marker and lat/lng fields and returns to the list view. The stop-name field keeps its value. |
| `Common.Filter` | src/components/Admin/LiveTracking.tsx:38 | Keeps exactly the elements satisfying the predicate and is no longer than its input. |
| `Common.FilterAppend` | src/pages/StudentDashboard.tsx:48 | `filter` keeps order: filtering a concatenation is the concatenation of the filtered parts. |
| `Common.FilterAllOrNone` | src/components/Admin/LiveTracking.tsx:38-40 | A predicate every element meets keeps the whole list; one no element meets keeps nothing. |
| `Common.FindIndex` | src/components/Admin/LiveTracking.tsx:64 | The index of the first matching element, and absent iff no element matches. |
| `Common.Find` | src/pages/StudentDashboard.tsx:78 | `find` gives the first matching element, and nothing iff no element matches. |

## Left out

- Great-circle distance: `calculateDistance` is not part of this model (it is floating-point trigonometry). It is a parameter, and only its comparison with 100 m is modelled.
- Geolocation watch registration and clearing, `setInterval`/`clearInterval`, effect wiring and the ref mirrors of state: the model treats the state as already in sync. The GPS callback and the heartbeat are plain calls, allowed only while driving with a user. Their interleaving with the buttons is concurrency and is not modelled.
- Loading the assignment, vans, routes and profiles from the store: these are I/O. The loaded values are constants or parameters.
- `updateLocation`, `updateUserProfile`, `createRoute`/`updateRoute`: the services are not shown. The model logs each call's arguments in a ghost sequence. How the store merges partial records, and any timestamps it adds, are not modelled.
- Real numbers stand for JavaScript doubles. NaN and `parseFloat` failures are not modelled.
- `StudentDashboard.Screen.SaveSetup`: does not model the busy flag being on while the update is awaited, or the error alert; only the end state is stated.
- Map clicks, the place search (a network fetch), `toFixed` coordinate formatting, the km/h speed display and the progress percentage are not modelled.
- Login, the student, driver and van management forms, and the sidebar are outside the modelled screens.
- All rendering, `alert` and `confirm` are not modelled; `confirm`'s answer is a parameter.
