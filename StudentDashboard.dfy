/** The rider's screen: which live buses a student's parent sees, the ETA
    line shown for the first of them, when the setup form is shown, the
    guard on saving it, and how the assigned van and route are looked up. */
module StudentDashboard {
  import opened Common
  import opened Types

  /** The signed-in student's profile fields the screen reads. */
  datatype Profile = Profile(studentName: Option<string>, vanId: Option<string>)

  /** The fields the setup form sends to the profile store. */
  datatype ProfileUpdate = ProfileUpdate(uid: string, studentName: string, studentId: string, vanId: string)

  /** A record of the given van that is flagged online. */
  predicate OnAssignedVan(vanId: Option<string>, b: BusLocation) {
    b.vanId == vanId && b.isOnline == Some(true)
  }

  /** The buses shown: with an assigned van, the online records of that van
      in the order delivered; without one, none. */
  function AssignedBuses(profile: Option<Profile>, all: seq<BusLocation>): (r: seq<BusLocation>)
    ensures !(profile.Some? && Truthy(profile.value.vanId)) ==> r == []
    ensures profile.Some? && Truthy(profile.value.vanId) ==>
      && (forall i :: 0 <= i < |r| ==> r[i] in all && r[i].vanId == profile.value.vanId && r[i].isOnline == Some(true))
      && (forall i :: 0 <= i < |all| && all[i].vanId == profile.value.vanId && all[i].isOnline == Some(true) ==> all[i] in r)
  {
    if profile.Some? && Truthy(profile.value.vanId) then
      var vanId := profile.value.vanId;
      Filter(all, (b: BusLocation) => OnAssignedVan(vanId, b))
    else
      []
  }

  /** The filtered list keeps the order of the delivered records: the buses
      of two batches delivered one after the other are those of the first
      followed by those of the second. */
  lemma AssignedBusesKeepsOrder(profile: Option<Profile>, xs: seq<BusLocation>, ys: seq<BusLocation>)
    ensures AssignedBuses(profile, xs + ys) == AssignedBuses(profile, xs) + AssignedBuses(profile, ys)
  {
    if profile.Some? && Truthy(profile.value.vanId) {
      var vanId := profile.value.vanId;
      FilterAppend(xs, ys, (b: BusLocation) => OnAssignedVan(vanId, b));
    }
  }

  /** `buses[0]`: the bus the ETA line is about. */
  function CurrentBus(buses: seq<BusLocation>): (r: Option<BusLocation>)
    ensures r.None? <==> buses == []
    ensures r.Some? ==> r.value == buses[0]
  {
    if buses == [] then None else Some(buses[0])
  }

  /** The ETA line: waiting with no bus, otherwise the bus's published status
      in words, en route for any status other than arriving or arrived. */
  function Eta(bus: Option<BusLocation>): (r: string)
    ensures r == "Waiting for bus..." <==> bus.None?
    ensures r == "Arriving Now!" <==> bus.Some? && bus.value.arrivalStatus == Some(Arriving)
    ensures r == "Arrived at Stop" <==> bus.Some? && bus.value.arrivalStatus == Some(Arrived)
    ensures r == "En Route" <==>
      bus.Some? && bus.value.arrivalStatus != Some(Arriving) && bus.value.arrivalStatus != Some(Arrived)
  {
    if bus.None? then "Waiting for bus..."
    else if bus.value.arrivalStatus == Some(Arriving) then "Arriving Now!"
    else if bus.value.arrivalStatus == Some(Arrived) then "Arrived at Stop"
    else "En Route"
  }

  /** The setup form is shown exactly when a profile is loaded and lacks the
      student's name or van. */
  function SetupRequired(profile: Option<Profile>): (r: bool)
    ensures profile.None? ==> !r
    ensures profile.Some? && Truthy(profile.value.studentName) && Truthy(profile.value.vanId) ==> !r
    ensures profile.Some? && (profile.value.studentName.None? || profile.value.vanId.None?) ==> r
    ensures profile.Some? && (profile.value.studentName == Some("") || profile.value.vanId == Some("")) ==> r
  {
    profile.Some? && (!Truthy(profile.value.studentName) || !Truthy(profile.value.vanId))
  }

  /** An update the setup form may send: every field filled in. */
  predicate Complete(u: ProfileUpdate) {
    u.studentName != "" && u.studentId != "" && u.vanId != ""
  }

  /** The profile fields the screen reads after the store applied `u`. */
  function SavedProfile(u: ProfileUpdate): Profile {
    Profile(Some(u.studentName), Some(u.vanId))
  }

  /** Every update the setup form has sent leaves a profile that no longer
      asks for setup. */
  lemma {:induction false} SavedSetupIsComplete(updates: seq<ProfileUpdate>)
    requires forall k :: 0 <= k < |updates| ==> Complete(updates[k])
    ensures forall k :: 0 <= k < |updates| ==> !SetupRequired(Some(SavedProfile(updates[k])))
  {
    forall k | 0 <= k < |updates|
      ensures !SetupRequired(Some(SavedProfile(updates[k])))
    {
      assert Complete(updates[k]);
    }
  }

  /** The assigned van: the first van whose id is the profile's van id. */
  function AssignedVan(vans: seq<Van>, profile: Option<Profile>): (r: Option<Van>)
    ensures r.Some? ==> r.value in vans && profile.Some? && profile.value.vanId == Some(r.value.id)
    ensures r.None? <==> profile.None? || forall i :: 0 <= i < |vans| ==> profile.value.vanId != Some(vans[i].id)
    ensures forall k :: (0 <= k < |vans| && profile.Some? && profile.value.vanId == Some(vans[k].id)
                         && forall j :: 0 <= j < k ==> vans[j].id != vans[k].id) ==> r == Some(vans[k])
  {
    var wanted := if profile.Some? then profile.value.vanId else None;
    Find(vans, (v: Van) => Some(v.id) == wanted)
  }

  /** Whether a route is the current bus's route or the assigned van's. */
  predicate ServesStudent(r: Route, bus: Option<BusLocation>, van: Option<Van>) {
    || (bus.Some? && bus.value.routeId == Some(r.id))
    || (van.Some? && van.value.routeId == Some(r.id))
  }

  /** The assigned route: the first route, in list order, that is the current
      bus's route or the assigned van's route. */
  function AssignedRoute(routes: seq<Route>, bus: Option<BusLocation>, van: Option<Van>): (r: Option<Route>)
    ensures r.Some? ==> r.value in routes && ServesStudent(r.value, bus, van)
    ensures r.None? <==> forall i :: 0 <= i < |routes| ==> !ServesStudent(routes[i], bus, van)
    ensures forall k :: (0 <= k < |routes| && ServesStudent(routes[k], bus, van)
                         && forall j :: 0 <= j < k ==> !ServesStudent(routes[j], bus, van)) ==> r == Some(routes[k])
  {
    Find(routes, (r: Route) => ServesStudent(r, bus, van))
  }

  /** The screen's state: the buses shown, whether a save is in flight, and
      every profile update sent, in order. The user and profile come from
      the sign-in context and are fixed here. */
  class Screen {
    const uid: Option<string>
    const profile: Option<Profile>
    var buses: seq<BusLocation>
    var isSaving: bool
    ghost var profileUpdates: seq<ProfileUpdate>

    /** Every update sent has all its fields filled in. */
    ghost predicate Valid()
      reads this
    {
      forall k :: 0 <= k < |profileUpdates| ==> Complete(profileUpdates[k])
    }

    constructor (uid: Option<string>, profile: Option<Profile>)
      ensures Valid()
      ensures this.uid == uid && this.profile == profile
      ensures buses == [] && !isSaving && profileUpdates == []
    {
      this.uid, this.profile := uid, profile;
      buses, isSaving := [], false;
      profileUpdates := [];
    }

    /** The live subscription delivered every bus record. */
    method OnBusesSnapshot(all: seq<BusLocation>)
      requires Valid()
      modifies this
      ensures Valid()
      ensures buses == AssignedBuses(profile, all)
      ensures isSaving == old(isSaving) && profileUpdates == old(profileUpdates)
    {
      if profile.Some? && Truthy(profile.value.vanId) {
        var vanId := profile.value.vanId;
        buses := Filter(all, (b: BusLocation) => OnAssignedVan(vanId, b));
      } else {
        buses := [];
      }
    }

    /** Save setup: refused, with nothing sent, unless there is a user and
      every field is filled in; otherwise one update is sent and the busy
      flag is back off once the call has returned, whether it succeeded
      or not. */
    method SaveSetup(name: string, studentId: string, vanId: string)
      requires Valid()
      modifies this
      ensures Valid()
      ensures uid.None? || name == "" || studentId == "" || vanId == "" ==>
        profileUpdates == old(profileUpdates) && isSaving == old(isSaving)
      ensures uid.Some? && name != "" && studentId != "" && vanId != "" ==>
        profileUpdates == old(profileUpdates) + [ProfileUpdate(uid.value, name, studentId, vanId)] && !isSaving
      ensures buses == old(buses)
    {
      if uid.None? || name == "" || studentId == "" || vanId == "" {
        return;
      }
      isSaving := true;
      profileUpdates := profileUpdates + [ProfileUpdate(uid.value, name, studentId, vanId)];
      isSaving := false;
    }
  }
}
