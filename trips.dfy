/** backend/routers/trips_router.py: the dispatch guard of create_trip, the coupled
    trip/vehicle/driver updates of update_trip_status, and delete_trip. */
module Trips {
  import opened Models
  import Stats
  import Store
  import Licenses

  /** schemas.TripCreate. */
  datatype TripCreate = TripCreate(vehicleId: Id, driverId: Id, destination: string, cargoWeight: real)

  /** `mileage_estimate = trip.cargo_weight * 0.01`: kilometres added per kilogram of cargo. */
  const KmPerKg: real := 0.01

  // ---------------------------------------------------------------------------
  // create_trip

  function RequestedVehicle(f: Fleet, t: TripCreate): Option<Vehicle> {
    FindVehicle(f.vehicles, t.vehicleId)
  }

  function RequestedDriver(f: Fleet, t: TripCreate): Option<Driver> {
    FindDriver(f.drivers, t.driverId)
  }

  /** Both referenced rows exist. */
  predicate Found(f: Fleet, t: TripCreate) {
    RequestedVehicle(f, t).Some? && RequestedDriver(f, t).Some?
  }

  /** Overweight means strictly heavier than the vehicle's capacity. */
  predicate Overweight(f: Fleet, t: TripCreate)
    requires Found(f, t)
  {
    t.cargoWeight > RequestedVehicle(f, t).value.maxWeight
  }

  /** The licence check is strict: a licence expiring today still passes. */
  predicate LicenseLapsedOn(d: Driver, today: Day) {
    d.licenseExpiry < today
  }

  /** Every rule of the guard passes. */
  predicate Admissible(f: Fleet, t: TripCreate, today: Day) {
    && Found(f, t)
    && !Overweight(f, t)
    && RequestedVehicle(f, t).value.status == Available
    && !LicenseLapsedOn(RequestedDriver(f, t).value, today)
    && RequestedDriver(f, t).value.dutyStatus == On
  }

  function OverweightAlert(t: TripCreate, v: Vehicle): Alert {
    Alert(OverweightCargo, OverweightText(t.cargoWeight, v.plateNumber, v.maxWeight), Critical, v.id)
  }

  function ExpiredLicenseAlert(d: Driver): Alert {
    Alert(ExpiredLicense, TripBlockedText(d.name, d.licenseExpiry), Critical, d.id)
  }

  /** The row create_trip inserts. */
  function NewTrip(t: TripCreate, newId: Id): Trip {
    Trip(newId, t.vehicleId, t.driverId, t.destination, t.cargoWeight, None, None, Draft)
  }

  /** create_trip. The rules are tried in order and the first that fails decides the
      response; only the overweight and expired-licence refusals raise an alert, and
      a refusal changes no table. */
  function CreateTripStep(f: Fleet, t: TripCreate, today: Day, newId: Id): (o: Outcome<Trip>)
    // rule 1 and 2: dangling references
    ensures RequestedVehicle(f, t).None? ==> o == Outcome(f, [], Err(404, NoVehicle))
    ensures RequestedVehicle(f, t).Some? && RequestedDriver(f, t).None? ==>
              o == Outcome(f, [], Err(404, NoDriver))
    // rule 3: capacity, with one critical alert about the vehicle
    ensures Found(f, t) && Overweight(f, t) ==>
              var v := RequestedVehicle(f, t).value;
              o == Outcome(f, [AlertPublish(OverweightAlert(t, v))], Err(400, CargoTooHeavy(t.cargoWeight, v.maxWeight)))
    // rule 4: vehicle availability
    ensures Found(f, t) && !Overweight(f, t) && RequestedVehicle(f, t).value.status != Available ==>
              o == Outcome(f, [], Err(400, VehicleBusy(RequestedVehicle(f, t).value.status)))
    // rule 5: licence expiry, with one critical alert about the driver
    ensures Found(f, t) && !Overweight(f, t) && RequestedVehicle(f, t).value.status == Available &&
            LicenseLapsedOn(RequestedDriver(f, t).value, today) ==>
              var d := RequestedDriver(f, t).value;
              o == Outcome(f, [AlertPublish(ExpiredLicenseAlert(d))], Err(400, LicenseLapsed(d.name, d.licenseExpiry)))
    // rule 6: driver on duty
    ensures Found(f, t) && !Overweight(f, t) && RequestedVehicle(f, t).value.status == Available &&
            !LicenseLapsedOn(RequestedDriver(f, t).value, today) && RequestedDriver(f, t).value.dutyStatus != On ==>
              var d := RequestedDriver(f, t).value;
              o == Outcome(f, [], Err(400, DriverOffDuty(d.name, d.dutyStatus)))
    // admission: one draft trip is added, then committed, then the counters broadcast
    ensures o.response.Ok? <==> Admissible(f, t, today)
    ensures Admissible(f, t, today) ==>
              && o.response == Ok(NewTrip(t, newId))
              && o.fleet == f.(trips := f.trips + [NewTrip(t, newId)])
              && o.events == [Commit, Publish(DashboardUpdate, StatsData(Stats.BuildStats(o.fleet)))]
  {
    var v := RequestedVehicle(f, t);
    var d := RequestedDriver(f, t);
    if v.None? then Outcome(f, [], Err(404, NoVehicle))
    else if d.None? then Outcome(f, [], Err(404, NoDriver))
    else if t.cargoWeight > v.value.maxWeight then
      Outcome(f, [AlertPublish(OverweightAlert(t, v.value))], Err(400, CargoTooHeavy(t.cargoWeight, v.value.maxWeight)))
    else if v.value.status != Available then
      Outcome(f, [], Err(400, VehicleBusy(v.value.status)))
    else if d.value.licenseExpiry < today then
      Outcome(f, [AlertPublish(ExpiredLicenseAlert(d.value))], Err(400, LicenseLapsed(d.value.name, d.value.licenseExpiry)))
    else if d.value.dutyStatus != On then
      Outcome(f, [], Err(400, DriverOffDuty(d.value.name, d.value.dutyStatus)))
    else
      var f' := f.(trips := f.trips + [NewTrip(t, newId)]);
      Outcome(f', [Commit, Publish(DashboardUpdate, StatsData(Stats.BuildStats(f')))], Ok(NewTrip(t, newId)))
  }

  /** A refused create changes no table, commits nothing and raises at most one
      alert: exactly one for overweight cargo or an expired licence, none otherwise. */
  lemma CreateRefusalIsInert(f: Fleet, t: TripCreate, today: Day, newId: Id)
    requires CreateTripStep(f, t, today, newId).response.Err?
    ensures var o := CreateTripStep(f, t, today, newId);
      && o.fleet == f
      && Commit !in o.events
      && |AlertsIn(o.events)| == (if o.response.reason.CargoTooHeavy? || o.response.reason.LicenseLapsed? then 1 else 0)
      && o.response.code == (if o.response.reason == NoVehicle || o.response.reason == NoDriver then 404 else 400)
  {
    var o := CreateTripStep(f, t, today, newId);
    if o.events != [] {
      assert o.events[1..] == [];
    }
  }

  /** Overweight cargo is refused with an alert whatever the vehicle's status, the
      licence and the duty status, as long as both rows exist. */
  lemma OverweightAlwaysAlerts(f: Fleet, t: TripCreate, today: Day, newId: Id)
    requires Found(f, t) && Overweight(f, t)
    ensures var o := CreateTripStep(f, t, today, newId);
      o.response.Err? && o.response.reason.CargoTooHeavy? &&
      AlertsIn(o.events) == [OverweightAlert(t, RequestedVehicle(f, t).value)]
  {
    var o := CreateTripStep(f, t, today, newId);
    assert o.events[1..] == [];
  }

  /** Cargo exactly at capacity is admitted when the other rules pass. */
  lemma FullLoadAdmitted(f: Fleet, t: TripCreate, today: Day, newId: Id)
    requires Found(f, t)
    requires t.cargoWeight == RequestedVehicle(f, t).value.maxWeight
    requires RequestedVehicle(f, t).value.status == Available
    requires RequestedDriver(f, t).value.licenseExpiry >= today
    requires RequestedDriver(f, t).value.dutyStatus == On
    ensures CreateTripStep(f, t, today, newId).response.Ok?
  {
  }

  /** A licence that expires today passes create_trip, while the licence alerts of the
      drivers and reports routers already classify it as expired. */
  lemma ExpiryTodayAdmittedButAlerted(f: Fleet, t: TripCreate, today: Day, newId: Id)
    requires Found(f, t) && !Overweight(f, t)
    requires RequestedVehicle(f, t).value.status == Available
    requires RequestedDriver(f, t).value.licenseExpiry == today
    requires RequestedDriver(f, t).value.dutyStatus == On
    ensures CreateTripStep(f, t, today, newId).response.Ok?
    ensures Licenses.Classify(RequestedDriver(f, t).value.licenseExpiry, today) == Licenses.Expired
  {
  }

  /** A successful create adds one pending shipment and leaves every other counter as it was. */
  lemma CreateAddsPendingShipment(f: Fleet, t: TripCreate, today: Day, newId: Id)
    requires Admissible(f, t, today)
    ensures var s, s' := Stats.BuildStats(f), Stats.BuildStats(CreateTripStep(f, t, today, newId).fleet);
      s' == s.(pendingShipments := s.pendingShipments + 1)
  {
    Stats.CountAppend(f.trips, NewTrip(t, newId), Stats.IsPending);
  }

  method CreateTrip(db: Store.Session, t: TripCreate, today: Day, newId: Id) returns (r: Response<Trip>)
    modifies db
    ensures var o := CreateTripStep(old(db.Snapshot()), t, today, newId);
      && r == o.response
      && db.Snapshot() == o.fleet
      && db.outbox == old(db.outbox) + o.events
    ensures db.users == old(db.users)
  {
    var vehicle := FindVehicle(db.vehicles, t.vehicleId);
    var driver := FindDriver(db.drivers, t.driverId);
    if vehicle.None? {
      return Err(404, NoVehicle);
    }
    if driver.None? {
      return Err(404, NoDriver);
    }
    var v, d := vehicle.value, driver.value;
    if t.cargoWeight > v.maxWeight {
      db.SendAlert(OverweightAlert(t, v));
      return Err(400, CargoTooHeavy(t.cargoWeight, v.maxWeight));
    }
    if v.status != Available {
      return Err(400, VehicleBusy(v.status));
    }
    if d.licenseExpiry < today {
      db.SendAlert(ExpiredLicenseAlert(d));
      return Err(400, LicenseLapsed(d.name, d.licenseExpiry));
    }
    if d.dutyStatus != On {
      return Err(400, DriverOffDuty(d.name, d.dutyStatus));
    }
    var trip := NewTrip(t, newId);
    db.trips := db.trips + [trip];
    db.Commit();
    db.Broadcast(DashboardUpdate, StatsData(Stats.BuildStats(db.Snapshot())));
    return Ok(trip);
  }

  // ---------------------------------------------------------------------------
  // update_trip_status

  function LowerChar(c: char): char {
    if 'A' <= c <= 'Z' then (c as int + 32) as char else c
  }

  /** `str.lower()` on the letters A-Z. */
  function Lower(s: string): (r: string)
    ensures |r| == |s|
    ensures forall i :: 0 <= i < |s| ==> r[i] == LowerChar(s[i])
  {
    if s == [] then [] else [LowerChar(s[0])] + Lower(s[1..])
  }

  /** A string without upper-case letters is its own lower-case form. */
  lemma {:induction false} LowerOfLower(s: string)
    requires forall i :: 0 <= i < |s| ==> !('A' <= s[i] <= 'Z')
    ensures Lower(s) == s
  {
    if s != [] {
      LowerOfLower(s[1..]);
    }
  }

  /** `new_status = body.status.lower()` checked against
      `allowed = ["draft", "sent", "done", "canceled"]`. */
  function ParseTripStatus(s: string): (r: Option<TripStatus>)
    ensures r.Some? <==> Lower(s) in {"draft", "sent", "done", "canceled"}
    ensures r.Some? ==> TripStatusName(r.value) == Lower(s)
  {
    var l := Lower(s);
    if l == "draft" then Some(Draft)
    else if l == "sent" then Some(Sent)
    else if l == "done" then Some(Done)
    else if l == "canceled" then Some(Canceled)
    else None
  }

  /** Every wire name of a trip status is accepted as that status. */
  lemma ParseTripStatusName(s: TripStatus)
    ensures ParseTripStatus(TripStatusName(s)) == Some(s)
  {
    match s
    case Draft => NameParses("draft", Draft);
    case Sent => NameParses("sent", Sent);
    case Done => NameParses("done", Done);
    case Canceled => NameParses("canceled", Canceled);
  }

  /** A lower-case wire name parses to its status. */
  lemma NameParses(n: string, s: TripStatus)
    requires n == TripStatusName(s)
    ensures ParseTripStatus(n) == Some(s)
  {
    NoUpper(s);
    LowerOfLower(n);
  }

  /** The wire names are written in lower case. */
  lemma NoUpper(s: TripStatus)
    ensures forall i :: 0 <= i < |TripStatusName(s)| ==> !('A' <= TripStatusName(s)[i] <= 'Z')
  {
  }

  /** What the transition does to the trip row itself. */
  function TripAfter(trip: Trip, s: TripStatus, now: Instant): Trip {
    match s
    case Sent => trip.(startTime := Some(now), status := Sent)
    case Done => trip.(endTime := Some(now), status := Done)
    case _ => trip.(status := s)
  }

  /** What the transition does to the trip's vehicle. */
  function VehicleAfter(v: Vehicle, trip: Trip, s: TripStatus): Vehicle {
    match s
    case Sent => v.(status := OnTrip)
    case Done => v.(mileage := v.mileage + trip.cargoWeight * KmPerKg, status := Available)
    case Canceled => if v.status == OnTrip then v.(status := Available) else v
    case Draft => v
  }

  /** What the transition does to the trip's driver. */
  function DriverAfter(d: Driver, s: TripStatus): Driver {
    match s
    case Sent => d.(dutyStatus := DriverOnTrip)
    case Done => d.(dutyStatus := On)
    case Canceled => if d.dutyStatus == DriverOnTrip then d.(dutyStatus := On) else d
    case Draft => d
  }

  /** Rewrites the vehicle `trip.vehicle` loads, if there is one. */
  function TouchVehicle(vs: seq<Vehicle>, trip: Trip, s: TripStatus): seq<Vehicle> {
    match VehicleIndex(vs, trip.vehicleId)
    case None => vs
    case Some(i) => vs[i := VehicleAfter(vs[i], trip, s)]
  }

  /** Rewrites the driver `trip.driver` loads, if there is one. */
  function TouchDriver(ds: seq<Driver>, trip: Trip, s: TripStatus): seq<Driver> {
    match DriverIndex(ds, trip.driverId)
    case None => ds
    case Some(i) => ds[i := DriverAfter(ds[i], s)]
  }

  /** update_trip_status. The trip's current status is never read: any accepted
      target is applied from any state. */
  function UpdateTripStatusStep(f: Fleet, tripId: Id, status: string, now: Instant): (o: Outcome<Trip>)
    ensures TripIndex(f.trips, tripId).None? ==> o == Outcome(f, [], Err(404, NoTrip))
    ensures TripIndex(f.trips, tripId).Some? && ParseTripStatus(status).None? ==>
              o == Outcome(f, [], Err(400, UnknownStatus))
    ensures o.response.Ok? <==> TripIndex(f.trips, tripId).Some? && ParseTripStatus(status).Some?
    ensures o.response.Ok? ==>
              var i, s := TripIndex(f.trips, tripId).value, ParseTripStatus(status).value;
              var trip := f.trips[i];
              && o.response.value == TripAfter(trip, s, now)
              && o.fleet == Fleet(TouchVehicle(f.vehicles, trip, s), TouchDriver(f.drivers, trip, s),
                                  f.trips[i := TripAfter(trip, s, now)], f.logs)
              && o.events == [Commit, Publish(TripStatusUpdated, TripStatusData(trip.id, s)),
                              Publish(DashboardUpdate, StatsData(Stats.BuildStats(o.fleet)))]
  {
    match TripIndex(f.trips, tripId)
    case None => Outcome(f, [], Err(404, NoTrip))
    case Some(i) =>
      match ParseTripStatus(status)
      case None => Outcome(f, [], Err(400, UnknownStatus))
      case Some(s) =>
        var trip := f.trips[i];
        var f' := Fleet(TouchVehicle(f.vehicles, trip, s), TouchDriver(f.drivers, trip, s),
                        f.trips[i := TripAfter(trip, s, now)], f.logs);
        Outcome(f', [Commit, Publish(TripStatusUpdated, TripStatusData(trip.id, s)),
                     Publish(DashboardUpdate, StatsData(Stats.BuildStats(f')))],
                Ok(TripAfter(trip, s, now)))
  }

  /** The transition never changes the trip's identity, references, destination or weight. */
  lemma TransitionKeepsTripContent(trip: Trip, s: TripStatus, now: Instant)
    ensures var t' := TripAfter(trip, s, now);
      && t'.status == s
      && (t'.id, t'.vehicleId, t'.driverId, t'.destination, t'.cargoWeight) ==
         (trip.id, trip.vehicleId, trip.driverId, trip.destination, trip.cargoWeight)
      && t'.startTime == (if s == Sent then Some(now) else trip.startTime)
      && t'.endTime == (if s == Done then Some(now) else trip.endTime)
  {
  }

  /** The new status of the vehicle and the driver after each accepted target: `sent`
      reserves both, `done` releases both, `canceled` releases only what is currently
      reserved, `draft` touches neither. Only `done` changes the mileage, by
      cargo_weight x 0.01, in exact arithmetic. */
  lemma TransitionEffects(v: Vehicle, d: Driver, trip: Trip, s: TripStatus)
    ensures VehicleAfter(v, trip, s).status ==
      match s
      case Sent => OnTrip
      case Done => Available
      case Canceled => if v.status == OnTrip then Available else v.status
      case Draft => v.status
    ensures DriverAfter(d, s).dutyStatus ==
      match s
      case Sent => DriverOnTrip
      case Done => On
      case Canceled => if d.dutyStatus == DriverOnTrip then On else d.dutyStatus
      case Draft => d.dutyStatus
    ensures VehicleAfter(v, trip, s).mileage == v.mileage + (if s == Done then trip.cargoWeight * KmPerKg else 0.0)
    ensures s == Draft ==> VehicleAfter(v, trip, s) == v && DriverAfter(d, s) == d
    ensures VehicleAfter(v, trip, s).(status := v.status, mileage := v.mileage) == v
    ensures DriverAfter(d, s).(dutyStatus := d.dutyStatus) == d
  {
  }

  /** Only the trip's own vehicle and driver rows are rewritten. */
  lemma TouchLeavesOthers(vs: seq<Vehicle>, ds: seq<Driver>, trip: Trip, s: TripStatus)
    ensures |TouchVehicle(vs, trip, s)| == |vs| && |TouchDriver(ds, trip, s)| == |ds|
    ensures forall j :: 0 <= j < |vs| && Some(j) != VehicleIndex(vs, trip.vehicleId) ==>
              TouchVehicle(vs, trip, s)[j] == vs[j]
    ensures forall j :: 0 <= j < |ds| && Some(j) != DriverIndex(ds, trip.driverId) ==>
              TouchDriver(ds, trip, s)[j] == ds[j]
    ensures VehicleIndex(TouchVehicle(vs, trip, s), trip.vehicleId) == VehicleIndex(vs, trip.vehicleId)
    ensures DriverIndex(TouchDriver(ds, trip, s), trip.driverId) == DriverIndex(ds, trip.driverId)
  {
    SameIdsSameVehicleIndex(vs, TouchVehicle(vs, trip, s), trip.vehicleId);
    SameIdsSameDriverIndex(ds, TouchDriver(ds, trip, s), trip.driverId);
  }

  /** Where an accepted transition leaves the trip, its vehicle and its driver: the
      same positions, found again by the same ids. */
  lemma AcceptedTransitionShape(f: Fleet, tripId: Id, status: string, now: Instant)
    requires TripIndex(f.trips, tripId).Some? && ParseTripStatus(status).Some?
    ensures
      var i, s := TripIndex(f.trips, tripId).value, ParseTripStatus(status).value;
      var trip := f.trips[i];
      var o := UpdateTripStatusStep(f, tripId, status, now);
      && TripIndex(o.fleet.trips, tripId) == Some(i)
      && o.fleet.trips[i] == TripAfter(trip, s, now)
      && VehicleIndex(o.fleet.vehicles, trip.vehicleId) == VehicleIndex(f.vehicles, trip.vehicleId)
      && DriverIndex(o.fleet.drivers, trip.driverId) == DriverIndex(f.drivers, trip.driverId)
      && (VehicleIndex(f.vehicles, trip.vehicleId).Some? ==>
            var vi := VehicleIndex(f.vehicles, trip.vehicleId).value;
            o.fleet.vehicles[vi] == VehicleAfter(f.vehicles[vi], trip, s))
      && (DriverIndex(f.drivers, trip.driverId).Some? ==>
            var di := DriverIndex(f.drivers, trip.driverId).value;
            o.fleet.drivers[di] == DriverAfter(f.drivers[di], s))
  {
    var i, s := TripIndex(f.trips, tripId).value, ParseTripStatus(status).value;
    var trip := f.trips[i];
    var o := UpdateTripStatusStep(f, tripId, status, now);
    SameIdsSameTripIndex(f.trips, o.fleet.trips, tripId);
    TouchLeavesOthers(f.vehicles, f.drivers, trip, s);
  }

  /** The end-to-end trip of a load: sending and then completing a trip whose vehicle
      and driver exist returns the vehicle to `available` with its mileage increased by
      exactly cargo_weight x 0.01 in exact arithmetic (the source's float rounding is not
      modelled), returns the driver to `on`, and stamps both times.
      The requests may spell the statuses in any case (`"SENT"`, `"Done"`). */
  lemma SendThenComplete(f: Fleet, tripId: Id, sendReq: string, sentAt: Instant, doneReq: string, doneAt: Instant)
    requires TripIndex(f.trips, tripId).Some?
    requires VehicleIndex(f.vehicles, f.trips[TripIndex(f.trips, tripId).value].vehicleId).Some?
    requires DriverIndex(f.drivers, f.trips[TripIndex(f.trips, tripId).value].driverId).Some?
    requires ParseTripStatus(sendReq) == Some(Sent) && ParseTripStatus(doneReq) == Some(Done)
    ensures
      var i := TripIndex(f.trips, tripId).value;
      var trip := f.trips[i];
      var vi := VehicleIndex(f.vehicles, trip.vehicleId).value;
      var di := DriverIndex(f.drivers, trip.driverId).value;
      var o1 := UpdateTripStatusStep(f, tripId, sendReq, sentAt);
      var o2 := UpdateTripStatusStep(o1.fleet, tripId, doneReq, doneAt);
      && o1.response.Ok? && o2.response.Ok?
      && o1.fleet.vehicles[vi].status == OnTrip && o1.fleet.drivers[di].dutyStatus == DriverOnTrip
      && o2.fleet.vehicles[vi] == f.vehicles[vi].(status := Available,
                                                   mileage := f.vehicles[vi].mileage + trip.cargoWeight * KmPerKg)
      && o2.fleet.drivers[di] == f.drivers[di].(dutyStatus := On)
      && o2.fleet.trips[i] == trip.(status := Done, startTime := Some(sentAt), endTime := Some(doneAt))
  {
    var i := TripIndex(f.trips, tripId).value;
    var trip := f.trips[i];
    AcceptedTransitionShape(f, tripId, sendReq, sentAt);
    var o1 := UpdateTripStatusStep(f, tripId, sendReq, sentAt);
    AcceptedTransitionShape(o1.fleet, tripId, doneReq, doneAt);
  }

  /** A completed (or cancelled) trip can be sent again: the terminal statuses are not
      terminal here, and the resend reserves the vehicle even if it is in the shop. */
  lemma CompletedTripCanBeResent(f: Fleet, tripId: Id, now: Instant)
    requires TripIndex(f.trips, tripId).Some?
    requires f.trips[TripIndex(f.trips, tripId).value].status in {Done, Canceled}
    requires VehicleIndex(f.vehicles, f.trips[TripIndex(f.trips, tripId).value].vehicleId).Some?
    ensures
      var trip := f.trips[TripIndex(f.trips, tripId).value];
      var vi := VehicleIndex(f.vehicles, trip.vehicleId).value;
      var o := UpdateTripStatusStep(f, tripId, "sent", now);
      && o.response.Ok? && o.response.value.status == Sent
      && o.fleet.vehicles[vi].status == OnTrip
  {
    ParseTripStatusName(Sent);
  }

  // ---------------------------------------------------------------------------
  // The "sent if and only if reserved" coupling, and how the handlers break it.

  predicate VehicleReserved(f: Fleet, id: Id) {
    FindVehicle(f.vehicles, id).Some? && FindVehicle(f.vehicles, id).value.status == OnTrip
  }

  predicate DriverReserved(f: Fleet, id: Id) {
    FindDriver(f.drivers, id).Some? && FindDriver(f.drivers, id).value.dutyStatus == DriverOnTrip
  }

  /** Every sent trip holds its vehicle and driver, and every vehicle on a trip is held by a sent trip. */
  predicate Coupled(f: Fleet) {
    && (forall i :: 0 <= i < |f.trips| && f.trips[i].status == Sent ==>
          VehicleReserved(f, f.trips[i].vehicleId) && DriverReserved(f, f.trips[i].driverId))
    && (forall j :: 0 <= j < |f.vehicles| && f.vehicles[j].status == OnTrip ==>
          exists i :: 0 <= i < |f.trips| && f.trips[i].status == Sent && f.trips[i].vehicleId == f.vehicles[j].id)
  }

  /** Completing a trip frees its vehicle even while another sent trip holds the same
      vehicle, so that sent trip is left without its reservation. */
  lemma CompletingFreesSharedVehicle(f: Fleet, tripId: Id, status: string, now: Instant, k: nat)
    requires TripIndex(f.trips, tripId).Some? && ParseTripStatus(status) == Some(Done)
    requires k < |f.trips| && k != TripIndex(f.trips, tripId).value
    requires f.trips[k].status == Sent
    requires f.trips[k].vehicleId == f.trips[TripIndex(f.trips, tripId).value].vehicleId
    requires VehicleIndex(f.vehicles, f.trips[k].vehicleId).Some?
    ensures var o := UpdateTripStatusStep(f, tripId, status, now);
      && o.response.Ok? && o.fleet.trips[k] == f.trips[k]
      && !VehicleReserved(o.fleet, f.trips[k].vehicleId) && !Coupled(o.fleet)
  {
    var trip := f.trips[TripIndex(f.trips, tripId).value];
    var o := UpdateTripStatusStep(f, tripId, status, now);
    TouchLeavesOthers(f.vehicles, f.drivers, trip, Done);
    var j := VehicleIndex(f.vehicles, trip.vehicleId).value;
    assert o.fleet.vehicles[j].status == Available;
    assert FindVehicle(o.fleet.vehicles, trip.vehicleId) == Some(o.fleet.vehicles[j]);
    assert o.fleet.trips[k] == f.trips[k];
  }

  /** A coupled fleet with a stale draft: vehicle v1 and driver d1 are held by the sent
      trip t1, and the draft t2 names the same vehicle and driver. */
  function StaleDraftFleet(): Fleet {
    Fleet([Vehicle("v1", "GJ-01", "Truck", 5000.0, 0.0, OnTrip)],
          [Driver("d1", "Asha", "L-1", 100, 100.0, DriverOnTrip, None)],
          [Trip("t1", "v1", "d1", "Pune", 3000.0, Some(1), None, Sent),
           Trip("t2", "v1", "d1", "Pune", 1000.0, None, None, Draft)],
          [])
  }

  lemma StaleDraftFleetCoupled()
    ensures Coupled(StaleDraftFleet())
  {
    var f := StaleDraftFleet();
    assert FindVehicle(f.vehicles, "v1") == Some(f.vehicles[0]);
    assert FindDriver(f.drivers, "d1") == Some(f.drivers[0]);
    assert f.trips[0].status == Sent && f.trips[0].vehicleId == f.vehicles[0].id;
    assert f.trips[1].status == Draft;
  }

  /** Completing the stale draft releases the vehicle under the sent trip:
      update_trip_status does not preserve the coupling. */
  lemma CompletingStaleDraftBreaksCoupling()
    ensures var f := StaleDraftFleet();
      Coupled(f) && UpdateTripStatusStep(f, "t2", "done", 2).response.Ok? &&
      !Coupled(UpdateTripStatusStep(f, "t2", "done", 2).fleet)
  {
    var f := StaleDraftFleet();
    StaleDraftFleetCoupled();
    NameParses("done", Done);
    assert TripIndex(f.trips, "t2") == Some(1) by {
      assert f.trips[0].id != "t2" && f.trips[1].id == "t2";
    }
    assert VehicleIndex(f.vehicles, "v1") == Some(0);
    CompletingFreesSharedVehicle(f, "t2", "done", 2, 0);
  }

  // ---------------------------------------------------------------------------
  // delete_trip

  /** delete_trip. The row goes; its vehicle and driver are left as they are, so
      deleting a sent trip leaves both reserved. `fuelLogged` says whether a fuel log
      refers to the trip: `Trip.fuel_logs` has no delete cascade, so the flush sets
      each such `FuelLog.trip_id` to NULL, the column is `nullable=False`, and the
      commit fails with nothing deleted. */
  function DeleteTripStep(f: Fleet, tripId: Id, fuelLogged: bool): (o: Outcome<()>)
    ensures TripIndex(f.trips, tripId).None? ==> o == Outcome(f, [], Err(404, NoTrip))
    ensures TripIndex(f.trips, tripId).Some? && fuelLogged ==> o == Outcome(f, [], Err(500, NotNullViolation))
    ensures TripIndex(f.trips, tripId).Some? && !fuelLogged ==>
              && o.response.Ok?
              && o.fleet == f.(trips := RemoveAt(f.trips, TripIndex(f.trips, tripId).value))
              && o.events == [Commit, Publish(DashboardUpdate, Empty)]
  {
    match TripIndex(f.trips, tripId)
    case None => Outcome(f, [], Err(404, NoTrip))
    case Some(i) =>
      if fuelLogged then Outcome(f, [], Err(500, NotNullViolation))
      else Outcome(f.(trips := RemoveAt(f.trips, i)), [Commit, Publish(DashboardUpdate, Empty)], Ok(()))
  }

  /** Deleting the only sent trip of a reserved vehicle (one no fuel log refers to)
      leaves the vehicle on a trip that no longer exists. */
  lemma DeleteStrandsReservation(f: Fleet, tripId: Id)
    requires TripIndex(f.trips, tripId).Some?
    requires var trip := f.trips[TripIndex(f.trips, tripId).value];
      trip.status == Sent && VehicleReserved(f, trip.vehicleId)
    requires var i := TripIndex(f.trips, tripId).value;
      forall k :: 0 <= k < |f.trips| && k != i ==> f.trips[k].status != Sent
    ensures var o := DeleteTripStep(f, tripId, false);
      var trip := f.trips[TripIndex(f.trips, tripId).value];
      VehicleReserved(o.fleet, trip.vehicleId) && !Coupled(o.fleet)
  {
    var i := TripIndex(f.trips, tripId).value;
    var trip := f.trips[i];
    var o := DeleteTripStep(f, tripId, false);
    var j := VehicleIndex(f.vehicles, trip.vehicleId).value;
    assert o.fleet.vehicles[j].status == OnTrip;
    forall k | 0 <= k < |o.fleet.trips|
      ensures o.fleet.trips[k].status != Sent
    {
      if k < i {
        assert o.fleet.trips[k] == f.trips[k];
      } else {
        assert o.fleet.trips[k] == f.trips[k + 1];
      }
    }
  }

  /** The vehicle half of update_trip_status's branches on the new status. */
  method MoveVehicle(db: Store.Session, trip: Trip, s: TripStatus)
    modifies db`vehicles
    ensures db.vehicles == TouchVehicle(old(db.vehicles), trip, s)
  {
    var vi := VehicleIndex(db.vehicles, trip.vehicleId);
    if vi.None? {
      return;
    }
    var v := db.vehicles[vi.value];
    if s == Sent {
      v := v.(status := OnTrip);
    } else if s == Done {
      var estimate := trip.cargoWeight * KmPerKg;
      v := v.(mileage := v.mileage + estimate, status := Available);
    } else if s == Canceled && v.status == OnTrip {
      v := v.(status := Available);
    }
    db.vehicles := db.vehicles[vi.value := v];
  }

  /** The driver half of update_trip_status's branches on the new status. */
  method MoveDriver(db: Store.Session, trip: Trip, s: TripStatus)
    modifies db`drivers
    ensures db.drivers == TouchDriver(old(db.drivers), trip, s)
  {
    var di := DriverIndex(db.drivers, trip.driverId);
    if di.None? {
      return;
    }
    var d := db.drivers[di.value];
    if s == Sent {
      d := d.(dutyStatus := DriverOnTrip);
    } else if s == Done {
      d := d.(dutyStatus := On);
    } else if s == Canceled && d.dutyStatus == DriverOnTrip {
      d := d.(dutyStatus := On);
    }
    db.drivers := db.drivers[di.value := d];
  }

  /** The trip half of update_trip_status: the time stamp of the branch, then the status. */
  method StampTrip(trip: Trip, s: TripStatus, now: Instant) returns (t: Trip)
    ensures t == TripAfter(trip, s, now)
  {
    t := trip;
    if s == Sent {
      t := t.(startTime := Some(now));
    } else if s == Done {
      t := t.(endTime := Some(now));
    }
    t := t.(status := s);
  }

  method UpdateTripStatus(db: Store.Session, tripId: Id, status: string, now: Instant) returns (r: Response<Trip>)
    modifies db
    ensures var o := UpdateTripStatusStep(old(db.Snapshot()), tripId, status, now);
      && r == o.response
      && db.Snapshot() == o.fleet
      && db.outbox == old(db.outbox) + o.events
    ensures db.users == old(db.users)
  {
    var ti := TripIndex(db.trips, tripId);
    if ti.None? {
      return Err(404, NoTrip);
    }
    var newStatus := ParseTripStatus(status);
    if newStatus.None? {
      return Err(400, UnknownStatus);
    }
    var trip := ApplyTransition(db, ti.value, newStatus.value, now);
    return Ok(trip);
  }

  /** The accepted half of update_trip_status: the branch's assignments to the trip, its
      vehicle and its driver, then the commit and the two broadcasts. */
  method ApplyTransition(db: Store.Session, i: nat, s: TripStatus, now: Instant) returns (t: Trip)
    requires i < |db.trips|
    modifies db
    ensures var trip := old(db.trips[i]);
      var f' := Fleet(TouchVehicle(old(db.vehicles), trip, s), TouchDriver(old(db.drivers), trip, s),
                      old(db.trips)[i := TripAfter(trip, s, now)], old(db.logs));
      && t == TripAfter(trip, s, now)
      && db.Snapshot() == f'
      && db.outbox == old(db.outbox) + [Commit, Publish(TripStatusUpdated, TripStatusData(trip.id, s)),
                                        Publish(DashboardUpdate, StatsData(Stats.BuildStats(f')))]
    ensures db.users == old(db.users)
  {
    var trip := db.trips[i];
    ghost var f' := Fleet(TouchVehicle(db.vehicles, trip, s), TouchDriver(db.drivers, trip, s),
                          db.trips[i := TripAfter(trip, s, now)], db.logs);
    MoveVehicle(db, trip, s);
    MoveDriver(db, trip, s);
    t := StampTrip(trip, s, now);
    db.trips := db.trips[i := t];
    assert db.Snapshot() == f';
    var stats := Stats.BuildStats(db.Snapshot());
    db.Commit();
    db.Broadcast(TripStatusUpdated, TripStatusData(t.id, s));
    db.Broadcast(DashboardUpdate, StatsData(stats));
  }

  method DeleteTrip(db: Store.Session, tripId: Id, fuelLogged: bool) returns (r: Response<()>)
    modifies db
    ensures var o := DeleteTripStep(old(db.Snapshot()), tripId, fuelLogged);
      && r == o.response
      && db.Snapshot() == o.fleet
      && db.outbox == old(db.outbox) + o.events
    ensures db.users == old(db.users)
  {
    var ti := TripIndex(db.trips, tripId);
    if ti.None? {
      return Err(404, NoTrip);
    }
    if fuelLogged {
      return Err(500, NotNullViolation);
    }
    db.trips := RemoveAt(db.trips, ti.value);
    db.Commit();
    db.Broadcast(DashboardUpdate, Empty);
    return Ok(());
  }
}
