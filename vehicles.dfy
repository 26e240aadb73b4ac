/** backend/routers/vehicles_router.py: the vehicle registry. Listing hides shop
    vehicles from dispatchers, creation refuses a taken plate, a patch sets exactly the
    fields it carries, and deletion only retires the vehicle. */
module Vehicles {
  import opened Models
  import Stats
  import Store

  // ---------------------------------------------------------------------------
  // get_vehicles

  /** `[v for v in vehicles if v.status != "in_shop"]`. */
  function WithoutShopped(vs: seq<Vehicle>): (r: seq<Vehicle>)
    ensures |r| <= |vs|
    ensures forall v :: v in r <==> v in vs && v.status != InShop
  {
    if vs == [] then []
    else
      var rest := WithoutShopped(vs[..|vs| - 1]);
      var last := vs[|vs| - 1];
      assert vs == vs[..|vs| - 1] + [last];
      if last.status != InShop then rest + [last] else rest
  }

  /** The filter keeps the storage order: filtering two runs of rows one after the
      other gives the two filtered runs one after the other. */
  lemma {:induction false} WithoutShoppedAppend(a: seq<Vehicle>, b: seq<Vehicle>)
    ensures WithoutShopped(a + b) == WithoutShopped(a) + WithoutShopped(b)
  {
    if b != [] {
      assert (a + b)[..|a + b| - 1] == a + b[..|b| - 1];
      WithoutShoppedAppend(a, b[..|b| - 1]);
    } else {
      assert a + b == a;
    }
  }

  /** Exactly the vehicles in the shop are dropped. */
  lemma {:induction false} WithoutShoppedCount(vs: seq<Vehicle>)
    ensures |WithoutShopped(vs)| + Count(vs, Stats.IsShopped) == |vs|
  {
    if vs != [] {
      WithoutShoppedCount(vs[..|vs| - 1]);
    }
  }

  /** get_vehicles: every vehicle in storage order, without the in-shop ones when the
      caller is a Dispatcher. */
  function VisibleVehicles(vs: seq<Vehicle>, role: string): (r: seq<Vehicle>)
    ensures forall v :: v in r <==> v in vs && (role == Dispatcher ==> v.status != InShop)
    ensures role != Dispatcher ==> r == vs
  {
    if role == Dispatcher then WithoutShopped(vs) else vs
  }

  /** A dispatcher sees all but the vehicles counted as maintenance_alerts. */
  lemma DispatcherSeesAllButShop(f: Fleet)
    ensures |VisibleVehicles(f.vehicles, Dispatcher)| == |f.vehicles| - Stats.BuildStats(f).maintenanceAlerts
  {
    WithoutShoppedCount(f.vehicles);
  }

  // ---------------------------------------------------------------------------
  // create_vehicle

  /** schemas.VehicleCreate (its defaults, mileage 0 and status "available", are
      filled in before the handler runs). */
  datatype VehicleCreate = VehicleCreate(plateNumber: string, vehicleType: string, maxWeight: real,
                                         mileage: real, status: string)

  /** `filter(Vehicle.plate_number == plate).first()`. */
  function PlateIndex(vs: seq<Vehicle>, plate: string): (r: Option<nat>)
    ensures r.Some? ==> r.value < |vs| && vs[r.value].plateNumber == plate
    ensures r.None? <==> forall j :: 0 <= j < |vs| ==> vs[j].plateNumber != plate
  {
    FirstIndex(vs, (v: Vehicle) => v.plateNumber == plate)
  }

  /** `models.Vehicle(**v.model_dump())`. */
  function NewVehicle(c: VehicleCreate, newId: Id): Vehicle {
    Vehicle(newId, c.plateNumber, c.vehicleType, c.maxWeight, c.mileage, ParseVehicleStatus(c.status))
  }

  function CreateVehicleStep(f: Fleet, c: VehicleCreate, newId: Id): (o: Outcome<Vehicle>)
    ensures PlateIndex(f.vehicles, c.plateNumber).Some? ==> o == Outcome(f, [], Err(400, PlateTaken))
    ensures o.response.Ok? <==> PlateIndex(f.vehicles, c.plateNumber).None?
    ensures o.response.Ok? ==>
              && o.response.value == NewVehicle(c, newId)
              && o.fleet == f.(vehicles := f.vehicles + [NewVehicle(c, newId)])
              && o.events == [Commit, Publish(VehicleCreated, VehicleData(NewVehicle(c, newId))),
                              Publish(DashboardUpdate, StatsData(Stats.BuildStats(o.fleet)))]
  {
    if PlateIndex(f.vehicles, c.plateNumber).Some? then Outcome(f, [], Err(400, PlateTaken))
    else
      var v := NewVehicle(c, newId);
      var f' := f.(vehicles := f.vehicles + [v]);
      Outcome(f', [Commit, Publish(VehicleCreated, VehicleData(v)), Publish(DashboardUpdate, StatsData(Stats.BuildStats(f')))], Ok(v))
  }

  /** No two vehicles share a plate number. */
  predicate PlatesUnique(vs: seq<Vehicle>) {
    forall i, j :: 0 <= i < j < |vs| ==> vs[i].plateNumber != vs[j].plateNumber
  }

  /** create_vehicle keeps plate numbers unique, and the new row carries the request's
      fields with the status string read as a status. */
  lemma CreateKeepsPlatesUnique(f: Fleet, c: VehicleCreate, newId: Id)
    requires PlatesUnique(f.vehicles)
    ensures var o := CreateVehicleStep(f, c, newId);
      && PlatesUnique(o.fleet.vehicles)
      && (o.response.Ok? ==>
            && o.fleet.vehicles[|f.vehicles|].plateNumber == c.plateNumber
            && VehicleStatusName(o.fleet.vehicles[|f.vehicles|].status) == c.status
            && |o.fleet.vehicles| == |f.vehicles| + 1)
  {
  }

  // ---------------------------------------------------------------------------
  // update_vehicle

  /** schemas.VehicleUpdate: a field is Some exactly when the request sets it. */
  datatype VehicleUpdate = VehicleUpdate(plateNumber: Option<string>, vehicleType: Option<string>,
                                         maxWeight: Option<real>, mileage: Option<real>,
                                         status: Option<string>)

  /** One `(field, value)` pair of `update.model_dump(exclude_unset=True)`. */
  datatype VehicleField =
    | SetPlate(plate: string) | SetType(vehicleType: string) | SetMaxWeight(maxWeight: real)
    | SetMileage(mileage: real) | SetStatus(status: string)

  /** `update.model_dump(exclude_unset=True).items()`, in field declaration order. */
  function Dump(u: VehicleUpdate): (fs: seq<VehicleField>)
    ensures |fs| <= 5
  {
    (if u.plateNumber.Some? then [SetPlate(u.plateNumber.value)] else []) +
    (if u.vehicleType.Some? then [SetType(u.vehicleType.value)] else []) +
    (if u.maxWeight.Some? then [SetMaxWeight(u.maxWeight.value)] else []) +
    (if u.mileage.Some? then [SetMileage(u.mileage.value)] else []) +
    (if u.status.Some? then [SetStatus(u.status.value)] else [])
  }

  /** `setattr(vehicle, field, value)`. */
  function SetField(v: Vehicle, fld: VehicleField): Vehicle {
    match fld
    case SetPlate(p) => v.(plateNumber := p)
    case SetType(t) => v.(vehicleType := t)
    case SetMaxWeight(w) => v.(maxWeight := w)
    case SetMileage(m) => v.(mileage := m)
    case SetStatus(s) => v.(status := ParseVehicleStatus(s))
  }

  /** The record after `setattr` over the pairs in order. */
  function SetAll(v: Vehicle, fs: seq<VehicleField>): Vehicle {
    if fs == [] then v else SetField(SetAll(v, fs[..|fs| - 1]), fs[|fs| - 1])
  }

  /** The intended meaning of a patch, field by field: a field the request carries
      takes the request's value, every other field (and the id) keeps its value. */
  function Patched(v: Vehicle, u: VehicleUpdate): (r: Vehicle)
    ensures r.id == v.id
    ensures u == VehicleUpdate(None, None, None, None, None) ==> r == v
    ensures u.status.Some? ==> VehicleStatusName(r.status) == u.status.value
  {
    Vehicle(v.id, u.plateNumber.GetOr(v.plateNumber), u.vehicleType.GetOr(v.vehicleType),
            u.maxWeight.GetOr(v.maxWeight), u.mileage.GetOr(v.mileage),
            if u.status.Some? then ParseVehicleStatus(u.status.value) else v.status)
  }

  lemma {:induction false} SetAllAppend(v: Vehicle, a: seq<VehicleField>, b: seq<VehicleField>)
    ensures SetAll(v, a + b) == SetAll(SetAll(v, a), b)
  {
    if b == [] {
      assert a + b == a;
    } else {
      assert (a + b)[..|a + b| - 1] == a + b[..|b| - 1];
      SetAllAppend(v, a, b[..|b| - 1]);
    }
  }

  /** The setattr loop over the dumped pairs computes the patch's meaning. */
  lemma DumpApplies(v: Vehicle, u: VehicleUpdate)
    ensures SetAll(v, Dump(u)) == Patched(v, u)
  {
    var a := if u.plateNumber.Some? then [SetPlate(u.plateNumber.value)] else [];
    var b := if u.vehicleType.Some? then [SetType(u.vehicleType.value)] else [];
    var c := if u.maxWeight.Some? then [SetMaxWeight(u.maxWeight.value)] else [];
    var d := if u.mileage.Some? then [SetMileage(u.mileage.value)] else [];
    var e := if u.status.Some? then [SetStatus(u.status.value)] else [];
    SetAllAppend(v, a + b + c + d, e);
    SetAllAppend(v, a + b + c, d);
    SetAllAppend(v, a + b, c);
    SetAllAppend(v, a, b);
    if a != [] {
      assert a[..0] == [];
    }
  }

  /** Applying the same patch twice is applying it once. */
  lemma PatchIdempotent(v: Vehicle, u: VehicleUpdate)
    ensures Patched(Patched(v, u), u) == Patched(v, u)
  {
  }

  /** `for field, value in update.model_dump(exclude_unset=True).items(): setattr(vehicle, field, value)`. */
  method ApplyVehicleUpdate(v: Vehicle, u: VehicleUpdate) returns (r: Vehicle)
    ensures r == Patched(v, u)
  {
    var fields := Dump(u);
    r := v;
    var k := 0;
    while k < |fields|
      invariant 0 <= k <= |fields|
      invariant r == SetAll(v, fields[..k])
    {
      assert fields[..k + 1][..k] == fields[..k];
      r := SetField(r, fields[k]);
      k := k + 1;
    }
    assert fields[..k] == fields;
    DumpApplies(v, u);
  }

  /** The commit fails on the plate number's unique constraint when another row holds it. */
  predicate PlateClash(vs: seq<Vehicle>, i: nat, plate: string) {
    exists j :: 0 <= j < |vs| && j != i && vs[j].plateNumber == plate
  }

  /** update_vehicle. The handler does not re-check the plate number; the column's
      unique constraint refuses a duplicate at commit, which surfaces as HTTP 500 and
      rolls the patch back. */
  function UpdateVehicleStep(f: Fleet, vehicleId: Id, u: VehicleUpdate): (o: Outcome<Vehicle>)
    ensures VehicleIndex(f.vehicles, vehicleId).None? ==> o == Outcome(f, [], Err(404, NoVehicle))
    ensures o.response.Err? ==> o.fleet == f && o.events == []
    ensures o.response.Ok? <==>
              VehicleIndex(f.vehicles, vehicleId).Some? &&
              !PlateClash(f.vehicles, VehicleIndex(f.vehicles, vehicleId).value,
                          Patched(f.vehicles[VehicleIndex(f.vehicles, vehicleId).value], u).plateNumber)
    ensures o.response.Ok? ==>
              var i := VehicleIndex(f.vehicles, vehicleId).value;
              && o.response.value == Patched(f.vehicles[i], u)
              && o.fleet == f.(vehicles := f.vehicles[i := Patched(f.vehicles[i], u)])
              && o.events == [Commit, Publish(VehicleStatusUpdated, VehicleData(o.response.value)),
                              Publish(DashboardUpdate, StatsData(Stats.BuildStats(o.fleet)))]
  {
    match VehicleIndex(f.vehicles, vehicleId)
    case None => Outcome(f, [], Err(404, NoVehicle))
    case Some(i) =>
      var v' := Patched(f.vehicles[i], u);
      if PlateClash(f.vehicles, i, v'.plateNumber) then Outcome(f, [], Err(500, UniqueViolation))
      else
        var f' := f.(vehicles := f.vehicles[i := v']);
        Outcome(f', [Commit, Publish(VehicleStatusUpdated, VehicleData(v')), Publish(DashboardUpdate, StatsData(Stats.BuildStats(f')))], Ok(v'))
  }

  /** Plates stay unique under update too, but only because of the table constraint. */
  lemma UpdateKeepsPlatesUnique(f: Fleet, vehicleId: Id, u: VehicleUpdate)
    requires PlatesUnique(f.vehicles)
    ensures PlatesUnique(UpdateVehicleStep(f, vehicleId, u).fleet.vehicles)
  {
    var o := UpdateVehicleStep(f, vehicleId, u);
    if o.response.Ok? {
      var i := VehicleIndex(f.vehicles, vehicleId).value;
      forall a, b | 0 <= a < b < |o.fleet.vehicles|
        ensures o.fleet.vehicles[a].plateNumber != o.fleet.vehicles[b].plateNumber
      {
        if a == i {
          assert o.fleet.vehicles[b] == f.vehicles[b];
        } else if b == i {
          assert o.fleet.vehicles[a] == f.vehicles[a];
        }
      }
    }
  }

  /** A patch that moves a plate onto a taken one passes every check of the handler and
      is refused only by the database. */
  lemma DuplicatePlateReachesCommit()
    ensures
      var f := Fleet([Vehicle("v1", "GJ-01", "Truck", 5000.0, 0.0, Available),
                      Vehicle("v2", "GJ-02", "Van", 900.0, 0.0, Available)], [], [], []);
      var u := VehicleUpdate(Some("GJ-01"), None, None, None, None);
      UpdateVehicleStep(f, "v2", u).response == Err(500, UniqueViolation)
  {
    var f := Fleet([Vehicle("v1", "GJ-01", "Truck", 5000.0, 0.0, Available),
                    Vehicle("v2", "GJ-02", "Van", 900.0, 0.0, Available)], [], [], []);
    assert f.vehicles[0].id != "v2" && f.vehicles[1].id == "v2";
    assert VehicleIndex(f.vehicles, "v2") == Some(1);
    assert f.vehicles[0].plateNumber == "GJ-01";
  }

  /** A patch can set any status, `on_trip` included, without a trip. */
  lemma PatchCanReserveWithoutTrip(f: Fleet, vehicleId: Id)
    requires PlatesUnique(f.vehicles) && FindVehicle(f.vehicles, vehicleId).Some?
    ensures var o := UpdateVehicleStep(f, vehicleId, VehicleUpdate(None, None, None, None, Some("on_trip")));
      o.response.Ok? && o.response.value.status == OnTrip
  {
  }

  // ---------------------------------------------------------------------------
  // delete_vehicle

  /** delete_vehicle: a soft delete that sets the status to `retired`. */
  function DeleteVehicleStep(f: Fleet, vehicleId: Id): (o: Outcome<()>)
    ensures VehicleIndex(f.vehicles, vehicleId).None? ==> o == Outcome(f, [], Err(404, NoVehicle))
    ensures o.response.Ok? <==> VehicleIndex(f.vehicles, vehicleId).Some?
    ensures o.response.Ok? ==>
              var i := VehicleIndex(f.vehicles, vehicleId).value;
              && o.fleet == f.(vehicles := f.vehicles[i := f.vehicles[i].(status := Retired)])
              && o.events == [Commit, Publish(DashboardUpdate, StatsData(Stats.BuildStats(o.fleet)))]
  {
    match VehicleIndex(f.vehicles, vehicleId)
    case None => Outcome(f, [], Err(404, NoVehicle))
    case Some(i) =>
      var f' := f.(vehicles := f.vehicles[i := f.vehicles[i].(status := Retired)]);
      Outcome(f', [Commit, Publish(DashboardUpdate, StatsData(Stats.BuildStats(f')))], Ok(()))
  }

  /** Deleting keeps the row, reachable by the same id, with only its status changed;
      the vehicle leaves the active, idle and maintenance counters. */
  lemma DeleteRetires(f: Fleet, vehicleId: Id)
    requires FindVehicle(f.vehicles, vehicleId).Some?
    ensures var o := DeleteVehicleStep(f, vehicleId);
      var v := FindVehicle(f.vehicles, vehicleId).value;
      var s, s' := Stats.BuildStats(f), Stats.BuildStats(o.fleet);
      && |o.fleet.vehicles| == |f.vehicles|
      && FindVehicle(o.fleet.vehicles, vehicleId) == Some(v.(status := Retired))
      && s'.activeVehicles == s.activeVehicles - (if Stats.IsActive(v) then 1 else 0)
      && s'.idleVehicles == s.idleVehicles - (if Stats.IsIdle(v) then 1 else 0)
      && s'.maintenanceAlerts == s.maintenanceAlerts - (if Stats.IsShopped(v) then 1 else 0)
  {
    var o := DeleteVehicleStep(f, vehicleId);
    var i := VehicleIndex(f.vehicles, vehicleId).value;
    var v := f.vehicles[i];
    SameIdsSameVehicleIndex(f.vehicles, o.fleet.vehicles, vehicleId);
    Stats.CountUpdate(f.vehicles, i, v.(status := Retired), Stats.IsActive);
    Stats.CountUpdate(f.vehicles, i, v.(status := Retired), Stats.IsIdle);
    Stats.CountUpdate(f.vehicles, i, v.(status := Retired), Stats.IsShopped);
  }

  // ---------------------------------------------------------------------------
  // The handlers on the session.

  method CreateVehicle(db: Store.Session, c: VehicleCreate, newId: Id) returns (r: Response<Vehicle>)
    modifies db
    ensures var o := CreateVehicleStep(old(db.Snapshot()), c, newId);
      && r == o.response
      && db.Snapshot() == o.fleet
      && db.outbox == old(db.outbox) + o.events
    ensures db.users == old(db.users)
  {
    if PlateIndex(db.vehicles, c.plateNumber).Some? {
      return Err(400, PlateTaken);
    }
    var vehicle := NewVehicle(c, newId);
    db.vehicles := db.vehicles + [vehicle];
    db.Commit();
    db.Broadcast(VehicleCreated, VehicleData(vehicle));
    db.Broadcast(DashboardUpdate, StatsData(Stats.BuildStats(db.Snapshot())));
    return Ok(vehicle);
  }

  method UpdateVehicle(db: Store.Session, vehicleId: Id, u: VehicleUpdate) returns (r: Response<Vehicle>)
    modifies db
    ensures var o := UpdateVehicleStep(old(db.Snapshot()), vehicleId, u);
      && r == o.response
      && db.Snapshot() == o.fleet
      && db.outbox == old(db.outbox) + o.events
    ensures db.users == old(db.users)
  {
    var vi := VehicleIndex(db.vehicles, vehicleId);
    if vi.None? {
      return Err(404, NoVehicle);
    }
    var vehicle := ApplyVehicleUpdate(db.vehicles[vi.value], u);
    if PlateClash(db.vehicles, vi.value, vehicle.plateNumber) {
      return Err(500, UniqueViolation);
    }
    db.vehicles := db.vehicles[vi.value := vehicle];
    db.Commit();
    db.Broadcast(VehicleStatusUpdated, VehicleData(vehicle));
    db.Broadcast(DashboardUpdate, StatsData(Stats.BuildStats(db.Snapshot())));
    return Ok(vehicle);
  }

  method DeleteVehicle(db: Store.Session, vehicleId: Id) returns (r: Response<()>)
    modifies db
    ensures var o := DeleteVehicleStep(old(db.Snapshot()), vehicleId);
      && r == o.response
      && db.Snapshot() == o.fleet
      && db.outbox == old(db.outbox) + o.events
    ensures db.users == old(db.users)
  {
    var vi := VehicleIndex(db.vehicles, vehicleId);
    if vi.None? {
      return Err(404, NoVehicle);
    }
    db.vehicles := db.vehicles[vi.value := db.vehicles[vi.value].(status := Retired)];
    db.Commit();
    db.Broadcast(DashboardUpdate, StatsData(Stats.BuildStats(db.Snapshot())));
    return Ok(());
  }
}
