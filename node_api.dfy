/** backend-node/routes/api.js: the Express re-implementation of vehicle listing, trip
    dispatch and maintenance. Its rows and its statuses are plain strings, its guards
    differ from the Python routers, and each handler awaits one `prisma.*` call after
    another, so a later call that throws leaves the earlier ones applied. */
module NodeApi {
  import Models

  type Id = Models.Id
  type Instant = Models.Instant

  // ---------------------------------------------------------------------------
  // Rows as the Prisma routes read and write them.

  datatype Vehicle = Vehicle(id: Id, plateNumber: string, maxWeight: real, mileage: real, status: string)

  datatype Driver = Driver(id: Id, name: string, licenseExpiryDate: Instant, dutyStatus: string)

  /** A trip row; `None` stands for a column the create leaves to the schema's default. */
  datatype Trip = Trip(id: Id, vehicleId: Id, driverId: Id, cargoWeight: real,
                       status: Models.Option<string>, startTime: Models.Option<Instant>,
                       endTime: Models.Option<Instant>)

  datatype MaintenanceLog = MaintenanceLog(id: Id, vehicleId: Id, description: string, cost: real)

  datatype Fleet = Fleet(vehicles: seq<Vehicle>, drivers: seq<Driver>, trips: seq<Trip>,
                         logs: seq<MaintenanceLog>)

  const Available := "available"
  const OnTrip := "on_trip"
  const InShop := "in_shop"
  const SentStatus := "sent"
  const DoneStatus := "done"
  /** The fixed distance a finished trip adds to the odometer. */
  const TripMileage: real := 100.0

  /** The text of an `alert` emit (a bare string, not an object). */
  datatype Notice =
    | OverweightAttempt(cargoWeight: real, plate: string)  // "Overweight Cargo Attempt: ..."
    | ExpiredLicenseAttempt(driverName: string)            // "Expired License Attempt: Driver ..."
    | SentToMaintenance                                    // "Vehicle sent to maintenance"

  /** One `getIo(req).emit(...)`. */
  datatype Emit = DashboardUpdate | Alert(notice: Notice)

  /** The `message` of a refusal; `ServerError` is the catch-all 500. */
  datatype Failure =
    | VehicleOrDriverNotFound | CargoExceedsMax | VehicleNotAvailable | LicenseIsExpired
    | TripNotFound | ServerError

  datatype Response<T> = Ok(code: int, value: T) | Err(code: int, failure: Failure)

  datatype Outcome<T> = Outcome(fleet: Fleet, emits: seq<Emit>, response: Response<T>)

  // ---------------------------------------------------------------------------
  // Prisma calls.

  /** `findUnique({ where: { id } })` on the vehicle table. */
  function VehicleIndex(vs: seq<Vehicle>, id: Id): (r: Models.Option<nat>)
    ensures r.Some? ==> r.value < |vs| && vs[r.value].id == id
    ensures r.None? <==> forall j :: 0 <= j < |vs| ==> vs[j].id != id
  {
    Models.FirstIndex(vs, (v: Vehicle) => v.id == id)
  }

  function DriverIndex(ds: seq<Driver>, id: Id): (r: Models.Option<nat>)
    ensures r.Some? ==> r.value < |ds| && ds[r.value].id == id
    ensures r.None? <==> forall j :: 0 <= j < |ds| ==> ds[j].id != id
  {
    Models.FirstIndex(ds, (d: Driver) => d.id == id)
  }

  function TripIndex(ts: seq<Trip>, id: Id): (r: Models.Option<nat>)
    ensures r.Some? ==> r.value < |ts| && ts[r.value].id == id
    ensures r.None? <==> forall j :: 0 <= j < |ts| ==> ts[j].id != id
  {
    Models.FirstIndex(ts, (t: Trip) => t.id == id)
  }

  // ---------------------------------------------------------------------------
  // GET /vehicles

  /** `vehicles.filter(v => v.status !== 'in_shop')`. */
  function OutOfShop(vs: seq<Vehicle>): (r: seq<Vehicle>)
    ensures forall v :: v in r <==> v in vs && v.status != InShop
    ensures |r| <= |vs|
  {
    if vs == [] then []
    else
      var rest := OutOfShop(vs[..|vs| - 1]);
      var last := vs[|vs| - 1];
      assert vs == vs[..|vs| - 1] + [last];
      if last.status != InShop then rest + [last] else rest
  }

  /** The filter keeps the table's order: filtering a concatenation concatenates the
      filtered parts. */
  lemma {:induction false} OutOfShopAppend(a: seq<Vehicle>, b: seq<Vehicle>)
    ensures OutOfShop(a + b) == OutOfShop(a) + OutOfShop(b)
  {
    if b != [] {
      assert (a + b)[..|a + b| - 1] == a + b[..|b| - 1];
      OutOfShopAppend(a, b[..|b| - 1]);
    } else {
      assert a + b == a;
    }
  }

  /** The response of GET /vehicles for a caller with `role`. */
  function ListVehicles(vs: seq<Vehicle>, role: string): (r: seq<Vehicle>)
    ensures role != Models.Dispatcher ==> r == vs
    ensures role == Models.Dispatcher ==> forall v :: v in r <==> v in vs && v.status != InShop
  {
    if role == Models.Dispatcher then OutOfShop(vs) else vs
  }

  // ---------------------------------------------------------------------------
  // POST /trips

  /** The created trip: only the three request fields, the rest left to the schema. */
  function NewTrip(newId: Id, vehicleId: Id, driverId: Id, cargoWeight: real): Trip {
    Trip(newId, vehicleId, driverId, cargoWeight, Models.None, Models.None, Models.None)
  }

  function PostTripStep(f: Fleet, vehicleId: Id, driverId: Id, cargoWeight: real, now: Instant,
                        newId: Id): (o: Outcome<Trip>)
    ensures o.response.Err? ==> o.fleet == f
    ensures o.response.Ok? ==>
              && o.response == Ok(201, NewTrip(newId, vehicleId, driverId, cargoWeight))
              && o.fleet == f.(trips := f.trips + [o.response.value])
              && o.emits == [DashboardUpdate]
    ensures |o.emits| <= 1
  {
    var vi, di := VehicleIndex(f.vehicles, vehicleId), DriverIndex(f.drivers, driverId);
    if vi.None? || di.None? then Outcome(f, [], Err(404, VehicleOrDriverNotFound))
    else
      var v, d := f.vehicles[vi.value], f.drivers[di.value];
      if cargoWeight > v.maxWeight then
        Outcome(f, [Alert(OverweightAttempt(cargoWeight, v.plateNumber))], Err(400, CargoExceedsMax))
      else if v.status != Available then Outcome(f, [], Err(400, VehicleNotAvailable))
      else if d.licenseExpiryDate < now then
        Outcome(f, [Alert(ExpiredLicenseAttempt(d.name))], Err(400, LicenseIsExpired))
      else
        var trip := NewTrip(newId, vehicleId, driverId, cargoWeight);
        Outcome(f.(trips := f.trips + [trip]), [DashboardUpdate], Ok(201, trip))
  }

  /** The guard in order: a missing vehicle or driver is reported before anything about
      the cargo, and the two alerts go out exactly for the overweight and the expired
      licence refusals. */
  lemma PostTripGuardOrder(f: Fleet, vehicleId: Id, driverId: Id, cargoWeight: real, now: Instant,
                           newId: Id)
    ensures var o := PostTripStep(f, vehicleId, driverId, cargoWeight, now, newId);
      var vi, di := VehicleIndex(f.vehicles, vehicleId), DriverIndex(f.drivers, driverId);
      && (vi.None? || di.None? ==> o.response == Err(404, VehicleOrDriverNotFound) && o.emits == [])
      && (vi.Some? && di.Some? ==>
            var v, d := f.vehicles[vi.value], f.drivers[di.value];
            && (cargoWeight > v.maxWeight ==>
                  o.response == Err(400, CargoExceedsMax) &&
                  o.emits == [Alert(OverweightAttempt(cargoWeight, v.plateNumber))])
            && (cargoWeight <= v.maxWeight && v.status != Available ==>
                  o.response == Err(400, VehicleNotAvailable) && o.emits == [])
            && (cargoWeight <= v.maxWeight && v.status == Available && d.licenseExpiryDate < now ==>
                  o.response == Err(400, LicenseIsExpired) &&
                  o.emits == [Alert(ExpiredLicenseAttempt(d.name))])
            && (o.response.Ok? <==>
                  cargoWeight <= v.maxWeight && v.status == Available && d.licenseExpiryDate >= now))
  {
  }

  /** Unlike the Python router, the driver's duty status is never read: the outcome is
      the same whatever duty status the assigned driver has. */
  lemma {:induction false} PostTripIgnoresDuty(f: Fleet, i: nat, duty: string, vehicleId: Id,
                                               driverId: Id, cargoWeight: real, now: Instant, newId: Id)
    requires i < |f.drivers|
    ensures var f' := f.(drivers := f.drivers[i := f.drivers[i].(dutyStatus := duty)]);
      var o, o' := PostTripStep(f, vehicleId, driverId, cargoWeight, now, newId),
                   PostTripStep(f', vehicleId, driverId, cargoWeight, now, newId);
      o'.response == o.response && o'.emits == o.emits
  {
    var f' := f.(drivers := f.drivers[i := f.drivers[i].(dutyStatus := duty)]);
    Models.FirstIndexSameMask(f.drivers, f'.drivers, (d: Driver) => d.id == driverId);
    var di := DriverIndex(f.drivers, driverId);
    if di.Some? {
      assert f'.drivers[di.value].name == f.drivers[di.value].name;
      assert f'.drivers[di.value].licenseExpiryDate == f.drivers[di.value].licenseExpiryDate;
    }
  }

  // ---------------------------------------------------------------------------
  // PATCH /trips/:id/status

  /** `prisma.vehicle.update({ where: { id }, data })`: `None` when no row has the id
      (Prisma throws). */
  function UpdateVehicle(vs: seq<Vehicle>, id: Id, change: Vehicle -> Vehicle): (r: Models.Option<seq<Vehicle>>)
    ensures r.None? <==> VehicleIndex(vs, id).None?
    ensures r.Some? ==> r.value == vs[VehicleIndex(vs, id).value := change(vs[VehicleIndex(vs, id).value])]
  {
    match VehicleIndex(vs, id)
    case None => Models.None
    case Some(i) => Models.Some(vs[i := change(vs[i])])
  }

  function UpdateDriver(ds: seq<Driver>, id: Id, change: Driver -> Driver): (r: Models.Option<seq<Driver>>)
    ensures r.None? <==> DriverIndex(ds, id).None?
    ensures r.Some? ==> r.value == ds[DriverIndex(ds, id).value := change(ds[DriverIndex(ds, id).value])]
  {
    match DriverIndex(ds, id)
    case None => Models.None
    case Some(i) => Models.Some(ds[i := change(ds[i])])
  }

  /** What `sent` and `done` write to the vehicle and the driver. */
  function VehicleOnSent(v: Vehicle): Vehicle { v.(status := OnTrip) }
  function DriverOnSent(d: Driver): Driver { d.(dutyStatus := OnTrip) }
  function VehicleOnDone(v: Vehicle): Vehicle { v.(status := Available, mileage := v.mileage + TripMileage) }
  function DriverOnDone(d: Driver): Driver { d.(dutyStatus := Available) }

  /** The trip row the third update writes. */
  function TripAfter(t: Trip, status: string, now: Instant): Trip {
    if status == SentStatus then t.(status := Models.Some(status), startTime := Models.Some(now))
    else if status == DoneStatus then t.(status := Models.Some(status), endTime := Models.Some(now))
    else t.(status := Models.Some(status))
  }

  /** The `sent` and `done` branches: vehicle update, then driver update, then the trip;
      a throw stops the sequence with a 500. */
  function CoupledUpdate(f: Fleet, ti: nat, status: string, now: Instant,
                         vehicleChange: Vehicle -> Vehicle, driverChange: Driver -> Driver): (o: Outcome<Trip>)
    requires ti < |f.trips|
    ensures o.response.Ok? ==> o.response == Ok(200, TripAfter(f.trips[ti], status, now))
  {
    var trip := f.trips[ti];
    match UpdateVehicle(f.vehicles, trip.vehicleId, vehicleChange)
    case None => Outcome(f, [], Err(500, ServerError))
    case Some(vs) =>
      var f1 := f.(vehicles := vs);
      match UpdateDriver(f1.drivers, trip.driverId, driverChange)
      case None => Outcome(f1, [], Err(500, ServerError))
      case Some(ds) =>
        var t := TripAfter(trip, status, now);
        Outcome(f1.(drivers := ds, trips := f.trips[ti := t]), [DashboardUpdate], Ok(200, t))
  }

  function PatchTripStatusStep(f: Fleet, tripId: Id, status: string, now: Instant): (o: Outcome<Trip>)
    ensures TripIndex(f.trips, tripId).None? ==> o == Outcome(f, [], Err(404, TripNotFound))
    ensures o.response.Ok? ==> o.emits == [DashboardUpdate]
    ensures o.response.Err? ==> o.emits == [] && o.fleet.trips == f.trips
  {
    match TripIndex(f.trips, tripId)
    case None => Outcome(f, [], Err(404, TripNotFound))
    case Some(ti) =>
      if status == SentStatus then CoupledUpdate(f, ti, status, now, VehicleOnSent, DriverOnSent)
      else if status == DoneStatus then CoupledUpdate(f, ti, status, now, VehicleOnDone, DriverOnDone)
      else
        var t := TripAfter(f.trips[ti], status, now);
        Outcome(f.(trips := f.trips[ti := t]), [DashboardUpdate], Ok(200, t))
  }

  /** Where the trip, its vehicle and its driver sit in the tables. */
  predicate Linked(f: Fleet, tripId: Id, ti: nat, vi: nat, di: nat) {
    && TripIndex(f.trips, tripId) == Models.Some(ti)
    && VehicleIndex(f.vehicles, f.trips[ti].vehicleId) == Models.Some(vi)
    && DriverIndex(f.drivers, f.trips[ti].driverId) == Models.Some(di)
  }

  /** `sent` puts the vehicle and the driver on the trip and stamps the start; nothing
      else changes. */
  lemma PatchSent(f: Fleet, tripId: Id, now: Instant, ti: nat, vi: nat, di: nat)
    requires Linked(f, tripId, ti, vi, di)
    ensures var o := PatchTripStatusStep(f, tripId, SentStatus, now);
      && o.response.Ok?
      && o.fleet.vehicles == f.vehicles[vi := f.vehicles[vi].(status := OnTrip)]
      && o.fleet.drivers == f.drivers[di := f.drivers[di].(dutyStatus := OnTrip)]
      && o.fleet.trips == f.trips[ti := f.trips[ti].(status := Models.Some(SentStatus), startTime := Models.Some(now))]
      && o.fleet.logs == f.logs
  {
  }

  /** `done` frees the vehicle and the driver, adds exactly 100 to the mileage and
      stamps the end; nothing else changes. */
  lemma PatchDone(f: Fleet, tripId: Id, now: Instant, ti: nat, vi: nat, di: nat)
    requires Linked(f, tripId, ti, vi, di)
    ensures var o := PatchTripStatusStep(f, tripId, DoneStatus, now);
      && o.response.Ok?
      && o.fleet.vehicles == f.vehicles[vi := f.vehicles[vi].(status := Available)
                                                            .(mileage := f.vehicles[vi].mileage + 100.0)]
      && o.fleet.drivers == f.drivers[di := f.drivers[di].(dutyStatus := Available)]
      && o.fleet.trips == f.trips[ti := f.trips[ti].(status := Models.Some(DoneStatus), endTime := Models.Some(now))]
      && o.fleet.logs == f.logs
  {
    assert DoneStatus != SentStatus;
  }

  /** Any other status, `canceled` included, rewrites only the trip's status: the
      vehicle and driver keep whatever a `sent` gave them. */
  lemma PatchOtherTouchesOnlyTrip(f: Fleet, tripId: Id, status: string, now: Instant, ti: nat)
    requires TripIndex(f.trips, tripId) == Models.Some(ti)
    requires status != SentStatus && status != DoneStatus
    ensures var o := PatchTripStatusStep(f, tripId, status, now);
      && o.response == Ok(200, f.trips[ti].(status := Models.Some(status)))
      && o.fleet == f.(trips := f.trips[ti := f.trips[ti].(status := Models.Some(status))])
  {
  }

  /** The three updates are not atomic: when the driver row is gone, `sent` answers 500
      but the vehicle has already been put on the trip. */
  lemma PatchSentIsNotAtomic(f: Fleet, tripId: Id, now: Instant, ti: nat, vi: nat)
    requires TripIndex(f.trips, tripId) == Models.Some(ti)
    requires VehicleIndex(f.vehicles, f.trips[ti].vehicleId) == Models.Some(vi)
    requires DriverIndex(f.drivers, f.trips[ti].driverId).None?
    ensures var o := PatchTripStatusStep(f, tripId, SentStatus, now);
      && o.response == Err(500, ServerError)
      && o.fleet.vehicles == f.vehicles[vi := f.vehicles[vi].(status := OnTrip)]
      && o.fleet.drivers == f.drivers && o.fleet.trips == f.trips
  {
  }

  // ---------------------------------------------------------------------------
  // POST /maintenance

  function PostMaintenanceStep(f: Fleet, vehicleId: Id, description: string, cost: real,
                               newId: Id): (o: Outcome<MaintenanceLog>)
    ensures o.fleet.logs == f.logs + [MaintenanceLog(newId, vehicleId, description, cost)]
    ensures o.fleet.drivers == f.drivers && o.fleet.trips == f.trips
    ensures o.response.Ok? <==> VehicleIndex(f.vehicles, vehicleId).Some?
    ensures o.response.Ok? ==>
              && o.response == Ok(201, MaintenanceLog(newId, vehicleId, description, cost))
              && o.emits == [Alert(SentToMaintenance), DashboardUpdate]
    ensures o.response.Err? ==> o.response == Err(500, ServerError) && o.emits == [] && o.fleet.vehicles == f.vehicles
  {
    var log := MaintenanceLog(newId, vehicleId, description, cost);
    var f1 := f.(logs := f.logs + [log]);
    match UpdateVehicle(f1.vehicles, vehicleId, (v: Vehicle) => v.(status := InShop))
    case None => Outcome(f1, [], Err(500, ServerError))
    case Some(vs) => Outcome(f1.(vehicles := vs), [Alert(SentToMaintenance), DashboardUpdate], Ok(201, log))
  }

  /** A vehicle sent to maintenance is `in_shop` whatever it was, disappears from a
      dispatcher's listing, and a trip on it is then refused as not available. */
  lemma MaintenanceLocksVehicle(f: Fleet, vehicleId: Id, description: string, cost: real, newId: Id,
                                driverId: Id, cargoWeight: real, now: Instant, tripId: Id, vi: nat)
    requires VehicleIndex(f.vehicles, vehicleId) == Models.Some(vi)
    ensures var o := PostMaintenanceStep(f, vehicleId, description, cost, newId);
      && o.fleet.vehicles == f.vehicles[vi := f.vehicles[vi].(status := InShop)]
      && o.fleet.vehicles[vi] !in ListVehicles(o.fleet.vehicles, Models.Dispatcher)
      && (DriverIndex(o.fleet.drivers, driverId).Some? &&
          cargoWeight <= o.fleet.vehicles[vi].maxWeight ==>
            PostTripStep(o.fleet, vehicleId, driverId, cargoWeight, now, tripId).response ==
            Err(400, VehicleNotAvailable))
  {
    var o := PostMaintenanceStep(f, vehicleId, description, cost, newId);
    Models.FirstIndexSameMask(f.vehicles, o.fleet.vehicles, (v: Vehicle) => v.id == vehicleId);
  }

  // ---------------------------------------------------------------------------
  // The handlers over the Prisma client.

  /** The Prisma client's tables and the socket.io emits, oldest first. */
  class Database {
    var vehicles: seq<Vehicle>
    var drivers: seq<Driver>
    var trips: seq<Trip>
    var logs: seq<MaintenanceLog>
    var emitted: seq<Emit>

    constructor ()
      ensures vehicles == [] && drivers == [] && trips == [] && logs == [] && emitted == []
    {
      vehicles, drivers, trips, logs, emitted := [], [], [], [], [];
    }

    function Snapshot(): Fleet
      reads this
    {
      Fleet(vehicles, drivers, trips, logs)
    }

    /** `getIo(req).emit(...)`. */
    method Emit(e: Emit)
      modifies this`emitted
      ensures emitted == old(emitted) + [e]
    {
      emitted := emitted + [e];
    }

    /** `await prisma.vehicle.update(...)`; `false` when it throws. */
    method UpdateVehicleRow(id: Id, change: Vehicle -> Vehicle) returns (ok: bool)
      modifies this`vehicles
      ensures var u := UpdateVehicle(old(vehicles), id, change);
        ok == u.Some? && vehicles == (if ok then u.value else old(vehicles))
    {
      var i := VehicleIndex(vehicles, id);
      if i.None? {
        return false;
      }
      vehicles := vehicles[i.value := change(vehicles[i.value])];
      return true;
    }

    /** `await prisma.driver.update(...)`; `false` when it throws. */
    method UpdateDriverRow(id: Id, change: Driver -> Driver) returns (ok: bool)
      modifies this`drivers
      ensures var u := UpdateDriver(old(drivers), id, change);
        ok == u.Some? && drivers == (if ok then u.value else old(drivers))
    {
      var i := DriverIndex(drivers, id);
      if i.None? {
        return false;
      }
      drivers := drivers[i.value := change(drivers[i.value])];
      return true;
    }
  }

  method PostTrip(db: Database, vehicleId: Id, driverId: Id, cargoWeight: real, now: Instant,
                  newId: Id) returns (r: Response<Trip>)
    modifies db
    ensures var o := PostTripStep(old(db.Snapshot()), vehicleId, driverId, cargoWeight, now, newId);
      r == o.response && db.Snapshot() == o.fleet && db.emitted == old(db.emitted) + o.emits
  {
    var vi := VehicleIndex(db.vehicles, vehicleId);
    var di := DriverIndex(db.drivers, driverId);
    if vi.None? || di.None? {
      return Err(404, VehicleOrDriverNotFound);
    }
    var vehicle, driver := db.vehicles[vi.value], db.drivers[di.value];
    if cargoWeight > vehicle.maxWeight {
      db.Emit(Alert(OverweightAttempt(cargoWeight, vehicle.plateNumber)));
      return Err(400, CargoExceedsMax);
    }
    if vehicle.status != Available {
      return Err(400, VehicleNotAvailable);
    }
    if driver.licenseExpiryDate < now {
      db.Emit(Alert(ExpiredLicenseAttempt(driver.name)));
      return Err(400, LicenseIsExpired);
    }
    var trip := NewTrip(newId, vehicleId, driverId, cargoWeight);
    db.trips := db.trips + [trip];
    db.Emit(DashboardUpdate);
    return Ok(201, trip);
  }

  method PatchTripStatus(db: Database, tripId: Id, status: string, now: Instant) returns (r: Response<Trip>)
    modifies db
    ensures var o := PatchTripStatusStep(old(db.Snapshot()), tripId, status, now);
      r == o.response && db.Snapshot() == o.fleet && db.emitted == old(db.emitted) + o.emits
  {
    var ti := TripIndex(db.trips, tripId);
    if ti.None? {
      return Err(404, TripNotFound);
    }
    if status == SentStatus {
      r := ApplyCoupled(db, ti.value, status, now, VehicleOnSent, DriverOnSent);
    } else if status == DoneStatus {
      r := ApplyCoupled(db, ti.value, status, now, VehicleOnDone, DriverOnDone);
    } else {
      var trip := TripAfter(db.trips[ti.value], status, now);
      db.trips := db.trips[ti.value := trip];
      db.Emit(DashboardUpdate);
      r := Ok(200, trip);
    }
  }

  /** The `sent` and `done` branches on the client: the awaited vehicle update, the
      driver update, then the trip; a throw answers 500 and keeps what was written. */
  method ApplyCoupled(db: Database, ti: nat, status: string, now: Instant,
                      vehicleChange: Vehicle -> Vehicle, driverChange: Driver -> Driver) returns (r: Response<Trip>)
    requires ti < |db.trips|
    modifies db
    ensures var o := CoupledUpdate(old(db.Snapshot()), ti, status, now, vehicleChange, driverChange);
      r == o.response && db.Snapshot() == o.fleet && db.emitted == old(db.emitted) + o.emits
  {
    ghost var f := db.Snapshot();
    var trip := db.trips[ti];
    var ok := db.UpdateVehicleRow(trip.vehicleId, vehicleChange);
    if !ok {
      return Err(500, ServerError);
    }
    ghost var vs := db.vehicles;
    assert UpdateVehicle(f.vehicles, trip.vehicleId, vehicleChange) == Models.Some(vs);
    ok := db.UpdateDriverRow(trip.driverId, driverChange);
    if !ok {
      assert db.Snapshot() == f.(vehicles := vs);
      return Err(500, ServerError);
    }
    assert UpdateDriver(f.drivers, trip.driverId, driverChange) == Models.Some(db.drivers);
    trip := TripAfter(trip, status, now);
    db.trips := db.trips[ti := trip];
    assert db.Snapshot() == f.(vehicles := vs, drivers := db.drivers, trips := f.trips[ti := trip]);
    db.Emit(DashboardUpdate);
    return Ok(200, trip);
  }

  method PostMaintenance(db: Database, vehicleId: Id, description: string, cost: real, newId: Id)
    returns (r: Response<MaintenanceLog>)
    modifies db
    ensures var o := PostMaintenanceStep(old(db.Snapshot()), vehicleId, description, cost, newId);
      r == o.response && db.Snapshot() == o.fleet && db.emitted == old(db.emitted) + o.emits
  {
    var log := MaintenanceLog(newId, vehicleId, description, cost);
    db.logs := db.logs + [log];
    var ok := db.UpdateVehicleRow(vehicleId, (v: Vehicle) => v.(status := InShop));
    if !ok {
      return Err(500, ServerError);
    }
    db.Emit(Alert(SentToMaintenance));
    db.Emit(DashboardUpdate);
    return Ok(201, log);
  }
}
