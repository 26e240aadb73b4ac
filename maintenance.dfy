/** backend/routers/maintenance_router.py: logging a maintenance entry puts the
    vehicle in the shop, and resolving (deleting) an entry takes it out again. */
module Maintenance {
  import opened Models
  import Stats
  import Store

  /** schemas.MaintenanceCreate. */
  datatype MaintenanceCreate = MaintenanceCreate(vehicleId: Id, description: string, cost: real)

  /** How much of the description the shop alert quotes (`m.description[:60]`). */
  const QuotedLength: nat := 60

  /** The row create_maintenance inserts. */
  function NewLog(m: MaintenanceCreate, newId: Id): MaintenanceLog {
    MaintenanceLog(newId, m.vehicleId, m.description, m.cost)
  }

  /** The `maintenance_status_change` alert about the vehicle sent to the shop. */
  function ShopAlert(v: Vehicle, m: MaintenanceCreate): Alert {
    Alert(MaintenanceStatusChange, SentToShopText(v.plateNumber, Prefix(m.description, QuotedLength)), Warning, v.id)
  }

  /** create_maintenance. */
  function CreateMaintenanceStep(f: Fleet, m: MaintenanceCreate, newId: Id): (o: Outcome<MaintenanceLog>)
    ensures VehicleIndex(f.vehicles, m.vehicleId).None? ==> o == Outcome(f, [], Err(404, NoVehicle))
    ensures o.response.Ok? <==> VehicleIndex(f.vehicles, m.vehicleId).Some?
    ensures o.response.Ok? ==>
              var i := VehicleIndex(f.vehicles, m.vehicleId).value;
              var v := f.vehicles[i];
              && o.response.value == NewLog(m, newId)
              && o.fleet == f.(vehicles := f.vehicles[i := v.(status := InShop)], logs := f.logs + [NewLog(m, newId)])
              && o.events == [Commit, AlertPublish(ShopAlert(v, m)),
                              Publish(VehicleStatusUpdated, VehicleStatusData(v.id, InShop, v.plateNumber, v.status)),
                              Publish(DashboardUpdate, Empty)]
  {
    match VehicleIndex(f.vehicles, m.vehicleId)
    case None => Outcome(f, [], Err(404, NoVehicle))
    case Some(i) =>
      var v := f.vehicles[i];
      var log := NewLog(m, newId);
      Outcome(f.(vehicles := f.vehicles[i := v.(status := InShop)], logs := f.logs + [log]),
              [Commit, AlertPublish(ShopAlert(v, m)),
               Publish(VehicleStatusUpdated, VehicleStatusData(v.id, InShop, v.plateNumber, v.status)),
               Publish(DashboardUpdate, Empty)],
              Ok(log))
  }

  /** A logged entry sends its vehicle to the shop whatever its status was (on a trip
      included), reports that earlier status, adds exactly the requested log, and
      leaves every other vehicle, every driver and every trip alone. */
  lemma CreateLocksVehicle(f: Fleet, m: MaintenanceCreate, newId: Id)
    requires FindVehicle(f.vehicles, m.vehicleId).Some?
    ensures var o := CreateMaintenanceStep(f, m, newId);
      var before := FindVehicle(f.vehicles, m.vehicleId).value;
      && FindVehicle(o.fleet.vehicles, m.vehicleId) == Some(before.(status := InShop))
      && o.fleet.logs == f.logs + [MaintenanceLog(newId, m.vehicleId, m.description, m.cost)]
      && o.fleet.drivers == f.drivers && o.fleet.trips == f.trips
      && |o.fleet.vehicles| == |f.vehicles|
      && (forall j :: 0 <= j < |f.vehicles| && f.vehicles[j].id != m.vehicleId ==> o.fleet.vehicles[j] == f.vehicles[j])
      && Publish(VehicleStatusUpdated, VehicleStatusData(m.vehicleId, InShop, before.plateNumber, before.status)) in o.events
  {
    var o := CreateMaintenanceStep(f, m, newId);
    SameIdsSameVehicleIndex(f.vehicles, o.fleet.vehicles, m.vehicleId);
    assert o.events[2] == Publish(VehicleStatusUpdated, VehicleStatusData(m.vehicleId, InShop,
      FindVehicle(f.vehicles, m.vehicleId).value.plateNumber, FindVehicle(f.vehicles, m.vehicleId).value.status));
  }

  /** The shop alert is a warning that quotes the first 60 characters of the
      description, or all of it when it is shorter, and is the only alert raised. */
  lemma ShopAlertQuotesDescription(f: Fleet, m: MaintenanceCreate, newId: Id)
    requires FindVehicle(f.vehicles, m.vehicleId).Some?
    ensures var o := CreateMaintenanceStep(f, m, newId);
      var v := FindVehicle(f.vehicles, m.vehicleId).value;
      && |AlertsIn(o.events)| == 1
      && var a := AlertsIn(o.events)[0];
      && a.kind == MaintenanceStatusChange && a.severity == Warning && a.entityId == m.vehicleId
      && a.text.SentToShopText? && a.text.plate == v.plateNumber
      && a.text.reason <= m.description
      && |a.text.reason| == (if |m.description| <= QuotedLength then |m.description| else QuotedLength)
  {
    var o := CreateMaintenanceStep(f, m, newId);
    var v := FindVehicle(f.vehicles, m.vehicleId).value;
    assert o.events == [Commit] + [AlertPublish(ShopAlert(v, m))] +
      [Publish(VehicleStatusUpdated, VehicleStatusData(v.id, InShop, v.plateNumber, v.status)), Publish(DashboardUpdate, Empty)];
    AlertsInAppend([Commit] + [AlertPublish(ShopAlert(v, m))],
      [Publish(VehicleStatusUpdated, VehicleStatusData(v.id, InShop, v.plateNumber, v.status)), Publish(DashboardUpdate, Empty)]);
    AlertsInAppend([Commit], [AlertPublish(ShopAlert(v, m))]);
    var tail := [Publish(VehicleStatusUpdated, VehicleStatusData(v.id, InShop, v.plateNumber, v.status)),
                 Publish(DashboardUpdate, Empty)];
    assert AlertsIn(tail[1..]) == [];
    assert AlertsIn(tail) == [];
    assert AlertsIn([Commit]) == [];
    assert AlertsIn([AlertPublish(ShopAlert(v, m))]) == [ShopAlert(v, m)];
  }

  /** A shop visit moves a vehicle from the active (or other) counters into
      maintenance_alerts, unless it was already in the shop. */
  lemma CreateCountsShopVisit(f: Fleet, m: MaintenanceCreate, newId: Id)
    requires FindVehicle(f.vehicles, m.vehicleId).Some?
    ensures var s, s' := Stats.BuildStats(f), Stats.BuildStats(CreateMaintenanceStep(f, m, newId).fleet);
      var wasShopped := FindVehicle(f.vehicles, m.vehicleId).value.status == InShop;
      && s'.maintenanceAlerts == s.maintenanceAlerts + (if wasShopped then 0 else 1)
      && s'.activeVehicles <= s.activeVehicles
      && s'.idleVehicles <= s.idleVehicles
      && s'.pendingShipments == s.pendingShipments
      && s'.totalDrivers == s.totalDrivers && s'.suspendedDrivers == s.suspendedDrivers
  {
    var i := VehicleIndex(f.vehicles, m.vehicleId).value;
    var v := f.vehicles[i];
    Stats.CountUpdate(f.vehicles, i, v.(status := InShop), Stats.IsShopped);
    Stats.CountUpdate(f.vehicles, i, v.(status := InShop), Stats.IsActive);
    Stats.CountUpdate(f.vehicles, i, v.(status := InShop), Stats.IsIdle);
  }

  /** What delete_maintenance does to the logged vehicle: back to available only if it
      is in the shop now. */
  function Released(v: Vehicle): (v': Vehicle)
    ensures v'.status == (if v.status == InShop then Available else v.status)
    ensures v'.(status := v.status) == v
  {
    if v.status == InShop then v.(status := Available) else v
  }

  /** Applies Released to the vehicle with the given id, if there is one. */
  function ReleaseVehicle(vs: seq<Vehicle>, id: Id): seq<Vehicle> {
    match VehicleIndex(vs, id)
    case None => vs
    case Some(i) => vs[i := Released(vs[i])]
  }

  /** delete_maintenance. Other logs for the same vehicle are not consulted. */
  function DeleteMaintenanceStep(f: Fleet, logId: Id): (o: Outcome<()>)
    ensures LogIndex(f.logs, logId).None? ==> o == Outcome(f, [], Err(404, NoLog))
    ensures o.response.Ok? <==> LogIndex(f.logs, logId).Some?
    ensures o.response.Ok? ==>
              var k := LogIndex(f.logs, logId).value;
              && o.fleet == f.(vehicles := ReleaseVehicle(f.vehicles, f.logs[k].vehicleId), logs := RemoveAt(f.logs, k))
              && o.events == [Commit, Publish(DashboardUpdate, Empty)]
  {
    match LogIndex(f.logs, logId)
    case None => Outcome(f, [], Err(404, NoLog))
    case Some(k) =>
      Outcome(f.(vehicles := ReleaseVehicle(f.vehicles, f.logs[k].vehicleId), logs := RemoveAt(f.logs, k)),
              [Commit, Publish(DashboardUpdate, Empty)], Ok(()))
  }

  /** Resolving an entry removes exactly that log, sets its vehicle available if and
      only if the vehicle is in the shop, and otherwise keeps the vehicle's status. */
  lemma DeleteReleasesOnlyShoppedVehicle(f: Fleet, logId: Id)
    requires LogIndex(f.logs, logId).Some?
    requires FindVehicle(f.vehicles, f.logs[LogIndex(f.logs, logId).value].vehicleId).Some?
    ensures var k := LogIndex(f.logs, logId).value;
      FindVehicle(DeleteMaintenanceStep(f, logId).fleet.vehicles, f.logs[k].vehicleId).Some?
    ensures var k := LogIndex(f.logs, logId).value;
      var o := DeleteMaintenanceStep(f, logId);
      var v := FindVehicle(f.vehicles, f.logs[k].vehicleId).value;
      var v' := FindVehicle(o.fleet.vehicles, f.logs[k].vehicleId).value;
      && (v'.status == Available <==> v.status in {InShop, Available})
      && (v.status != InShop ==> v' == v)
      && v'.(status := v.status) == v
      && |o.fleet.logs| == |f.logs| - 1
      && multiset(o.fleet.logs) + multiset{f.logs[k]} == multiset(f.logs)
  {
    var k := LogIndex(f.logs, logId).value;
    var o := DeleteMaintenanceStep(f, logId);
    SameIdsSameVehicleIndex(f.vehicles, o.fleet.vehicles, f.logs[k].vehicleId);
    assert f.logs == f.logs[..k] + [f.logs[k]] + f.logs[k + 1..];
  }

  /** An entry logged for an available vehicle and then resolved leaves the fleet
      exactly as it was. */
  lemma {:induction false} CreateThenDeleteRestores(f: Fleet, m: MaintenanceCreate, newId: Id)
    requires FindVehicle(f.vehicles, m.vehicleId).Some?
    requires FindVehicle(f.vehicles, m.vehicleId).value.status == Available
    requires LogIndex(f.logs, newId).None?
    ensures var o := CreateMaintenanceStep(f, m, newId);
      DeleteMaintenanceStep(o.fleet, newId).fleet == f
  {
    var o := CreateMaintenanceStep(f, m, newId);
    var i := VehicleIndex(f.vehicles, m.vehicleId).value;
    assert o.fleet.logs[|f.logs|].id == newId;
    assert LogIndex(o.fleet.logs, newId) == Some(|f.logs|);
    SameIdsSameVehicleIndex(f.vehicles, o.fleet.vehicles, m.vehicleId);
    assert RemoveAt(o.fleet.logs, |f.logs|) == f.logs;
    assert ReleaseVehicle(o.fleet.vehicles, m.vehicleId) == f.vehicles;
  }

  /** The shop lock overrides a reservation: logging and resolving an entry for a
      vehicle on a trip leaves it available while its trip is still sent. */
  lemma ShopVisitReleasesReservedVehicle(f: Fleet, m: MaintenanceCreate, newId: Id)
    requires FindVehicle(f.vehicles, m.vehicleId).Some?
    requires FindVehicle(f.vehicles, m.vehicleId).value.status == OnTrip
    requires LogIndex(f.logs, newId).None?
    ensures var f' := DeleteMaintenanceStep(CreateMaintenanceStep(f, m, newId).fleet, newId).fleet;
      && FindVehicle(f'.vehicles, m.vehicleId).Some?
      && FindVehicle(f'.vehicles, m.vehicleId).value.status == Available
      && f'.trips == f.trips
  {
    var o := CreateMaintenanceStep(f, m, newId);
    assert o.fleet.logs[|f.logs|].id == newId;
    assert LogIndex(o.fleet.logs, newId) == Some(|f.logs|);
    SameIdsSameVehicleIndex(f.vehicles, o.fleet.vehicles, m.vehicleId);
    var f' := DeleteMaintenanceStep(o.fleet, newId).fleet;
    SameIdsSameVehicleIndex(o.fleet.vehicles, f'.vehicles, m.vehicleId);
  }

  /** Resolving one of two open entries for the same vehicle already takes it out of
      the shop. */
  lemma DeleteIgnoresOtherOpenLogs()
    ensures
      var v := Vehicle("v1", "MH-12", "Van", 800.0, 10.0, InShop);
      var f := Fleet([v], [], [], [MaintenanceLog("m1", "v1", "brakes", 50.0),
                                   MaintenanceLog("m2", "v1", "tyres", 80.0)]);
      var f' := DeleteMaintenanceStep(f, "m1").fleet;
      f'.logs == [MaintenanceLog("m2", "v1", "tyres", 80.0)] && f'.vehicles[0].status == Available
  {
    var v := Vehicle("v1", "MH-12", "Van", 800.0, 10.0, InShop);
    var f := Fleet([v], [], [], [MaintenanceLog("m1", "v1", "brakes", 50.0),
                                 MaintenanceLog("m2", "v1", "tyres", 80.0)]);
    assert LogIndex(f.logs, "m1") == Some(0);
    assert VehicleIndex(f.vehicles, "v1") == Some(0);
  }

  method CreateMaintenance(db: Store.Session, m: MaintenanceCreate, newId: Id) returns (r: Response<MaintenanceLog>)
    modifies db
    ensures var o := CreateMaintenanceStep(old(db.Snapshot()), m, newId);
      && r == o.response
      && db.Snapshot() == o.fleet
      && db.outbox == old(db.outbox) + o.events
    ensures db.users == old(db.users)
  {
    var vi := VehicleIndex(db.vehicles, m.vehicleId);
    if vi.None? {
      return Err(404, NoVehicle);
    }
    var vehicle := db.vehicles[vi.value];
    var log := NewLog(m, newId);
    db.logs := db.logs + [log];
    var previous := vehicle.status;
    db.vehicles := db.vehicles[vi.value := vehicle.(status := InShop)];
    db.Commit();
    db.SendAlert(ShopAlert(vehicle, m));
    db.Broadcast(VehicleStatusUpdated, VehicleStatusData(vehicle.id, InShop, vehicle.plateNumber, previous));
    db.Broadcast(DashboardUpdate, Empty);
    return Ok(log);
  }

  method DeleteMaintenance(db: Store.Session, logId: Id) returns (r: Response<()>)
    modifies db
    ensures var o := DeleteMaintenanceStep(old(db.Snapshot()), logId);
      && r == o.response
      && db.Snapshot() == o.fleet
      && db.outbox == old(db.outbox) + o.events
    ensures db.users == old(db.users)
  {
    var li := LogIndex(db.logs, logId);
    if li.None? {
      return Err(404, NoLog);
    }
    var log := db.logs[li.value];
    var vi := VehicleIndex(db.vehicles, log.vehicleId);
    if vi.Some? && db.vehicles[vi.value].status == InShop {
      db.vehicles := db.vehicles[vi.value := db.vehicles[vi.value].(status := Available)];
    }
    db.logs := RemoveAt(db.logs, li.value);
    db.Commit();
    db.Broadcast(DashboardUpdate, Empty);
    return Ok(());
  }
}
