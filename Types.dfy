/** The records the tracking screens exchange: routes and their stops, vans,
    the position a driver's phone reports, the partial location record a
    driver publishes, and the live bus record observers read back. */
module Types {
  import opened Common

  /** A stop on a route; lat/lng in degrees. */
  datatype Stop = Stop(id: string, name: string, lat: real, lng: real)

  /** A route: its stops, in the order they are served. */
  datatype Route = Route(id: string, name: string, stops: seq<Stop>)

  /** A van; it may be assigned to a route. */
  datatype Van = Van(id: string, vanNumber: string, capacity: int, routeId: Option<string>)

  datatype ArrivalStatus = EnRoute | Arriving | Arrived

  /** The driver's last known position, `[latitude, longitude]`. */
  datatype Fix = Fix(lat: real, lng: real)

  /** One position delivered by the phone's geolocation watch; `speed` is
      absent when the device does not report one. */
  datatype GpsSample = GpsSample(lat: real, lng: real, speed: Option<real>)

  /** The fields one `updateLocation` call sends for a bus. A field that the
      call leaves out (or sends as `undefined`) is `None`. */
  datatype LocationUpdate = LocationUpdate(
    busId: string,
    lat: real,
    lng: real,
    speed: Option<real>,
    routeId: string,
    vanId: Option<string>,
    nextStopId: Option<string>,
    nextStopName: Option<string>,
    arrivalStatus: Option<ArrivalStatus>,
    updatedAt: Option<int>,
    isOnline: Option<bool>)

  /** A bus record as the live subscription delivers it to observers;
      `updatedAt` is in milliseconds. Older records may lack `isOnline`. */
  datatype BusLocation = BusLocation(
    busId: string,
    lat: real,
    lng: real,
    speed: Option<real>,
    routeId: Option<string>,
    vanId: Option<string>,
    nextStopName: Option<string>,
    arrivalStatus: Option<ArrivalStatus>,
    updatedAt: int,
    isOnline: Option<bool>)
}
