/** backend/routers/drivers_router.py: the driver registry. Listing raises one licence
    alert per expired or expiring licence, creation refuses a taken licence number, a
    patch sets exactly the fields it carries, and deletion only suspends the driver. */
module Drivers {
  import opened Models
  import Stats
  import Store
  import Licenses
  import Trips

  // ---------------------------------------------------------------------------
  // get_drivers

  /** The alert get_drivers raises for one driver, if any: expired on or before
      today is critical, expiring within 30 days a warning. */
  function DriverAlert(d: Driver, today: Day): (a: Option<Alert>)
    ensures a.Some? <==> Licenses.Alerted(d, today)
    ensures a.Some? ==>
              var st := Licenses.Classify(d.licenseExpiry, today);
              && a.value.kind == Licenses.KindOf(st) && a.value.severity == Licenses.SeverityOf(st)
              && a.value.entityId == d.id
  {
    match Licenses.Classify(d.licenseExpiry, today)
    case Expired => Some(Alert(LicenseExpired, HasExpiredText(d.name, d.licenseExpiry), Critical, d.id))
    case ExpiresSoon => Some(Alert(LicenseExpiring, ExpiresOnText(d.name, d.licenseExpiry), Warning, d.id))
    case Current => None
  }

  function AsSeq<T>(o: Option<T>): (s: seq<T>)
    ensures |s| == if o.Some? then 1 else 0
  {
    if o.Some? then [o.value] else []
  }

  /** The alerts of the loop over the drivers, in driver order. */
  function LicenseAlerts(ds: seq<Driver>, today: Day): seq<Alert> {
    if ds == [] then [] else LicenseAlerts(ds[..|ds| - 1], today) + AsSeq(DriverAlert(ds[|ds| - 1], today))
  }

  /** One alert per alerted driver and no other. */
  lemma {:induction false} LicenseAlertsCount(ds: seq<Driver>, today: Day)
    ensures |LicenseAlerts(ds, today)| == Count(ds, (d: Driver) => Licenses.Alerted(d, today))
  {
    if ds != [] {
      LicenseAlertsCount(ds[..|ds| - 1], today);
    }
  }

  /** Every alert is about a driver of the list and is classified by that driver's
      licence; every driver whose licence is expired or expiring has one. */
  lemma {:induction false} LicenseAlertsSound(ds: seq<Driver>, today: Day)
    ensures forall a :: a in LicenseAlerts(ds, today) ==>
              exists d :: d in ds && DriverAlert(d, today) == Some(a)
    ensures forall d :: d in ds && Licenses.Alerted(d, today) ==> DriverAlert(d, today).value in LicenseAlerts(ds, today)
  {
    if ds != [] {
      var init, last := ds[..|ds| - 1], ds[|ds| - 1];
      assert ds == init + [last];
      LicenseAlertsSound(init, today);
      forall a | a in LicenseAlerts(ds, today)
        ensures exists d :: d in ds && DriverAlert(d, today) == Some(a)
      {
        if a in LicenseAlerts(init, today) {
          var d :| d in init && DriverAlert(d, today) == Some(a);
          assert d in ds;
        } else {
          assert last in ds && DriverAlert(last, today) == Some(a);
        }
      }
    }
  }

  /** A licence that expires today already counts as expired for get_drivers, while
      create_trip still lets such a driver be dispatched. */
  lemma ExpiryDayIsExpired(d: Driver)
    ensures DriverAlert(d, d.licenseExpiry).Some?
    ensures DriverAlert(d, d.licenseExpiry).value.kind == LicenseExpired
    ensures DriverAlert(d, d.licenseExpiry).value.severity == Critical
    ensures !Trips.LicenseLapsedOn(d, d.licenseExpiry)
  {
  }

  /** get_drivers: returns every driver unchanged and raises the licence alerts one
      `send_alert` at a time. */
  method GetDrivers(db: Store.Session, today: Day) returns (r: seq<Driver>)
    modifies db`outbox
    ensures r == db.drivers
    ensures db.outbox == old(db.outbox) + Publishes(LicenseAlerts(db.drivers, today))
  {
    var drivers := db.drivers;
    var k := 0;
    while k < |drivers|
      invariant 0 <= k <= |drivers|
      invariant db.outbox == old(db.outbox) + Publishes(LicenseAlerts(drivers[..k], today))
    {
      var driver := drivers[k];
      assert drivers[..k + 1][..k] == drivers[..k];
      var st := Licenses.Classify(driver.licenseExpiry, today);
      if st == Licenses.Expired {
        db.SendAlert(Alert(LicenseExpired, HasExpiredText(driver.name, driver.licenseExpiry), Critical, driver.id));
      } else if st == Licenses.ExpiresSoon {
        db.SendAlert(Alert(LicenseExpiring, ExpiresOnText(driver.name, driver.licenseExpiry), Warning, driver.id));
      }
      k := k + 1;
    }
    assert drivers[..k] == drivers;
    return drivers;
  }

  // ---------------------------------------------------------------------------
  // create_driver

  /** schemas.DriverCreate (its defaults, safety score 100, duty "on" and no avatar,
      are filled in before the handler runs). */
  datatype DriverCreate = DriverCreate(name: string, licenseNumber: string, licenseExpiry: Day,
                                       safetyScore: real, dutyStatus: string, avatarUrl: Option<string>)

  /** `filter(Driver.license_number == number).first()`. */
  function LicenseIndex(ds: seq<Driver>, number: string): (r: Option<nat>)
    ensures r.Some? ==> r.value < |ds| && ds[r.value].licenseNumber == number
    ensures r.None? <==> forall j :: 0 <= j < |ds| ==> ds[j].licenseNumber != number
  {
    FirstIndex(ds, (d: Driver) => d.licenseNumber == number)
  }

  function NewDriver(c: DriverCreate, newId: Id): Driver {
    Driver(newId, c.name, c.licenseNumber, c.licenseExpiry, c.safetyScore, ParseDutyStatus(c.dutyStatus), c.avatarUrl)
  }

  function CreateDriverStep(f: Fleet, c: DriverCreate, newId: Id): (o: Outcome<Driver>)
    ensures LicenseIndex(f.drivers, c.licenseNumber).Some? ==> o == Outcome(f, [], Err(400, LicenseTaken))
    ensures o.response.Ok? <==> LicenseIndex(f.drivers, c.licenseNumber).None?
    ensures o.response.Ok? ==>
              && o.response.value == NewDriver(c, newId)
              && o.fleet == f.(drivers := f.drivers + [NewDriver(c, newId)])
              && o.events == [Commit, Publish(DashboardUpdate, StatsData(Stats.BuildStats(o.fleet)))]
  {
    if LicenseIndex(f.drivers, c.licenseNumber).Some? then Outcome(f, [], Err(400, LicenseTaken))
    else
      var f' := f.(drivers := f.drivers + [NewDriver(c, newId)]);
      Outcome(f', [Commit, Publish(DashboardUpdate, StatsData(Stats.BuildStats(f')))], Ok(NewDriver(c, newId)))
  }

  /** No two drivers share a licence number. */
  predicate LicensesUnique(ds: seq<Driver>) {
    forall i, j :: 0 <= i < j < |ds| ==> ds[i].licenseNumber != ds[j].licenseNumber
  }

  /** create_driver keeps licence numbers unique and adds one to total_drivers. */
  lemma CreateKeepsLicensesUnique(f: Fleet, c: DriverCreate, newId: Id)
    requires LicensesUnique(f.drivers)
    ensures var o := CreateDriverStep(f, c, newId);
      && LicensesUnique(o.fleet.drivers)
      && Stats.BuildStats(o.fleet).totalDrivers == Stats.BuildStats(f).totalDrivers + (if o.response.Ok? then 1 else 0)
  {
  }

  // ---------------------------------------------------------------------------
  // update_driver

  /** schemas.DriverUpdate: a field is Some exactly when the request sets it; the avatar
      may be set to null, which clears it. */
  datatype DriverUpdate = DriverUpdate(name: Option<string>, licenseNumber: Option<string>,
                                       licenseExpiry: Option<Day>, safetyScore: Option<real>,
                                       dutyStatus: Option<string>, avatarUrl: Option<Option<string>>)

  datatype DriverField =
    | SetName(name: string) | SetLicenseNumber(licenseNumber: string) | SetExpiry(expiry: Day)
    | SetSafetyScore(score: real) | SetDutyStatus(dutyStatus: string) | SetAvatar(avatarUrl: Option<string>)

  /** `update.model_dump(exclude_unset=True).items()`, in field declaration order. */
  function Dump(u: DriverUpdate): (fs: seq<DriverField>)
    ensures |fs| <= 6
  {
    IdentityFields(u) + ProfileFields(u)
  }

  /** The pairs for name, license_number and license_expiry_date. */
  function IdentityFields(u: DriverUpdate): (fs: seq<DriverField>)
    ensures |fs| <= 3
  {
    (if u.name.Some? then [SetName(u.name.value)] else []) +
    (if u.licenseNumber.Some? then [SetLicenseNumber(u.licenseNumber.value)] else []) +
    (if u.licenseExpiry.Some? then [SetExpiry(u.licenseExpiry.value)] else [])
  }

  /** The pairs for safety_score, duty_status and avatar_url. */
  function ProfileFields(u: DriverUpdate): (fs: seq<DriverField>)
    ensures |fs| <= 3
  {
    (if u.safetyScore.Some? then [SetSafetyScore(u.safetyScore.value)] else []) +
    (if u.dutyStatus.Some? then [SetDutyStatus(u.dutyStatus.value)] else []) +
    (if u.avatarUrl.Some? then [SetAvatar(u.avatarUrl.value)] else [])
  }

  /** `setattr(driver, field, value)`. */
  function SetField(d: Driver, fld: DriverField): Driver {
    match fld
    case SetName(n) => d.(name := n)
    case SetLicenseNumber(l) => d.(licenseNumber := l)
    case SetExpiry(e) => d.(licenseExpiry := e)
    case SetSafetyScore(s) => d.(safetyScore := s)
    case SetDutyStatus(s) => d.(dutyStatus := ParseDutyStatus(s))
    case SetAvatar(a) => d.(avatarUrl := a)
  }

  function SetAll(d: Driver, fs: seq<DriverField>): Driver {
    if fs == [] then d else SetField(SetAll(d, fs[..|fs| - 1]), fs[|fs| - 1])
  }

  /** The intended meaning of a patch, field by field. */
  function Patched(d: Driver, u: DriverUpdate): (r: Driver)
    ensures r.id == d.id
    ensures u == DriverUpdate(None, None, None, None, None, None) ==> r == d
    ensures u.dutyStatus.Some? ==> DutyStatusName(r.dutyStatus) == u.dutyStatus.value
    ensures u.avatarUrl.Some? ==> r.avatarUrl == u.avatarUrl.value
    ensures u.avatarUrl.None? ==> r.avatarUrl == d.avatarUrl
  {
    Driver(d.id, u.name.GetOr(d.name), u.licenseNumber.GetOr(d.licenseNumber),
           u.licenseExpiry.GetOr(d.licenseExpiry), u.safetyScore.GetOr(d.safetyScore),
           if u.dutyStatus.Some? then ParseDutyStatus(u.dutyStatus.value) else d.dutyStatus,
           u.avatarUrl.GetOr(d.avatarUrl))
  }

  lemma {:induction false} SetAllAppend(d: Driver, a: seq<DriverField>, b: seq<DriverField>)
    ensures SetAll(d, a + b) == SetAll(SetAll(d, a), b)
  {
    if b == [] {
      assert a + b == a;
    } else {
      assert (a + b)[..|a + b| - 1] == a + b[..|b| - 1];
      SetAllAppend(d, a, b[..|b| - 1]);
    }
  }

  lemma SetAllOne(d: Driver, fs: seq<DriverField>)
    requires |fs| <= 1
    ensures SetAll(d, fs) == if fs == [] then d else SetField(d, fs[0])
  {
    if fs != [] {
      assert fs[..0] == [];
    }
  }

  lemma IdentityFieldsApply(d: Driver, u: DriverUpdate)
    ensures SetAll(d, IdentityFields(u)) ==
      d.(name := u.name.GetOr(d.name), licenseNumber := u.licenseNumber.GetOr(d.licenseNumber),
         licenseExpiry := u.licenseExpiry.GetOr(d.licenseExpiry))
  {
    var a := if u.name.Some? then [SetName(u.name.value)] else [];
    var b := if u.licenseNumber.Some? then [SetLicenseNumber(u.licenseNumber.value)] else [];
    var c := if u.licenseExpiry.Some? then [SetExpiry(u.licenseExpiry.value)] else [];
    var d1 := d.(name := u.name.GetOr(d.name));
    var d2 := d1.(licenseNumber := u.licenseNumber.GetOr(d.licenseNumber));
    assert SetAll(d, a) == d1 by {
      SetAllOne(d, a);
    }
    assert SetAll(d, a + b) == d2 by {
      SetAllAppend(d, a, b);
      SetAllOne(d1, b);
    }
    SetAllAppend(d, a + b, c);
    SetAllOne(d2, c);
  }

  lemma ProfileFieldsApply(d: Driver, u: DriverUpdate)
    ensures SetAll(d, ProfileFields(u)) ==
      d.(safetyScore := u.safetyScore.GetOr(d.safetyScore),
         dutyStatus := if u.dutyStatus.Some? then ParseDutyStatus(u.dutyStatus.value) else d.dutyStatus,
         avatarUrl := u.avatarUrl.GetOr(d.avatarUrl))
  {
    var a := if u.safetyScore.Some? then [SetSafetyScore(u.safetyScore.value)] else [];
    var b := if u.dutyStatus.Some? then [SetDutyStatus(u.dutyStatus.value)] else [];
    var c := if u.avatarUrl.Some? then [SetAvatar(u.avatarUrl.value)] else [];
    var d1 := d.(safetyScore := u.safetyScore.GetOr(d.safetyScore));
    var d2 := d1.(dutyStatus := if u.dutyStatus.Some? then ParseDutyStatus(u.dutyStatus.value) else d.dutyStatus);
    var d3 := d2.(avatarUrl := u.avatarUrl.GetOr(d.avatarUrl));
    assert SetAll(d, a) == d1 by {
      SetAllOne(d, a);
    }
    assert SetAll(d, a + b) == d2 by {
      SetAllAppend(d, a, b);
      SetAllOne(d1, b);
    }
    assert SetAll(d, a + b + c) == d3 by {
      SetAllAppend(d, a + b, c);
      SetAllOne(d2, c);
    }
    assert ProfileFields(u) == a + b + c;
  }

  /** The setattr loop over the dumped pairs computes the patch's meaning. */
  lemma DumpApplies(d: Driver, u: DriverUpdate)
    ensures SetAll(d, Dump(u)) == Patched(d, u)
  {
    SetAllAppend(d, IdentityFields(u), ProfileFields(u));
    IdentityFieldsApply(d, u);
    ProfileFieldsApply(SetAll(d, IdentityFields(u)), u);
  }

  /** `for field, value in update.model_dump(exclude_unset=True).items(): setattr(driver, field, value)`. */
  method ApplyDriverUpdate(d: Driver, u: DriverUpdate) returns (r: Driver)
    ensures r == Patched(d, u)
  {
    var fields := Dump(u);
    r := d;
    var k := 0;
    while k < |fields|
      invariant 0 <= k <= |fields|
      invariant r == SetAll(d, fields[..k])
    {
      assert fields[..k + 1][..k] == fields[..k];
      r := SetField(r, fields[k]);
      k := k + 1;
    }
    assert fields[..k] == fields;
    DumpApplies(d, u);
  }

  /** The commit fails on the licence number's unique constraint when another row holds it. */
  predicate LicenseClash(ds: seq<Driver>, i: nat, number: string) {
    exists j :: 0 <= j < |ds| && j != i && ds[j].licenseNumber == number
  }

  /** update_driver. As in update_vehicle, a duplicate licence number passes the
      handler and is refused by the column's unique constraint at commit (HTTP 500). */
  function UpdateDriverStep(f: Fleet, driverId: Id, u: DriverUpdate): (o: Outcome<Driver>)
    ensures DriverIndex(f.drivers, driverId).None? ==> o == Outcome(f, [], Err(404, NoDriver))
    ensures o.response.Err? ==> o.fleet == f && o.events == []
    ensures o.response.Ok? <==>
              DriverIndex(f.drivers, driverId).Some? &&
              !LicenseClash(f.drivers, DriverIndex(f.drivers, driverId).value,
                            Patched(f.drivers[DriverIndex(f.drivers, driverId).value], u).licenseNumber)
    ensures o.response.Ok? ==>
              var i := DriverIndex(f.drivers, driverId).value;
              && o.response.value == Patched(f.drivers[i], u)
              && o.fleet == f.(drivers := f.drivers[i := Patched(f.drivers[i], u)])
              && o.events == [Commit, Publish(DashboardUpdate, StatsData(Stats.BuildStats(o.fleet)))]
  {
    match DriverIndex(f.drivers, driverId)
    case None => Outcome(f, [], Err(404, NoDriver))
    case Some(i) =>
      var d' := Patched(f.drivers[i], u);
      if LicenseClash(f.drivers, i, d'.licenseNumber) then Outcome(f, [], Err(500, UniqueViolation))
      else
        var f' := f.(drivers := f.drivers[i := d']);
        Outcome(f', [Commit, Publish(DashboardUpdate, StatsData(Stats.BuildStats(f')))], Ok(d'))
  }

  /** Licence numbers stay unique under update, by the table constraint. */
  lemma UpdateKeepsLicensesUnique(f: Fleet, driverId: Id, u: DriverUpdate)
    requires LicensesUnique(f.drivers)
    ensures LicensesUnique(UpdateDriverStep(f, driverId, u).fleet.drivers)
  {
    var o := UpdateDriverStep(f, driverId, u);
    if o.response.Ok? {
      var i := DriverIndex(f.drivers, driverId).value;
      forall a, b | 0 <= a < b < |o.fleet.drivers|
        ensures o.fleet.drivers[a].licenseNumber != o.fleet.drivers[b].licenseNumber
      {
        if a == i {
          assert o.fleet.drivers[b] == f.drivers[b];
        } else if b == i {
          assert o.fleet.drivers[a] == f.drivers[a];
        }
      }
    }
  }

  /** A patch can put a driver back on duty from any status, `suspended` included:
      deletion is not final. */
  lemma PatchCanReinstate(f: Fleet, driverId: Id)
    requires LicensesUnique(f.drivers) && FindDriver(f.drivers, driverId).Some?
    ensures var o := UpdateDriverStep(f, driverId, DriverUpdate(None, None, None, None, Some("on"), None));
      o.response.Ok? && o.response.value.dutyStatus == On
  {
  }

  // ---------------------------------------------------------------------------
  // delete_driver

  /** delete_driver: a soft delete that sets the duty status to `suspended`. */
  function DeleteDriverStep(f: Fleet, driverId: Id): (o: Outcome<()>)
    ensures DriverIndex(f.drivers, driverId).None? ==> o == Outcome(f, [], Err(404, NoDriver))
    ensures o.response.Ok? <==> DriverIndex(f.drivers, driverId).Some?
    ensures o.response.Ok? ==>
              var i := DriverIndex(f.drivers, driverId).value;
              && o.fleet == f.(drivers := f.drivers[i := f.drivers[i].(dutyStatus := Suspended)])
              && o.events == [Commit, Publish(DashboardUpdate, StatsData(Stats.BuildStats(o.fleet)))]
  {
    match DriverIndex(f.drivers, driverId)
    case None => Outcome(f, [], Err(404, NoDriver))
    case Some(i) =>
      var f' := f.(drivers := f.drivers[i := f.drivers[i].(dutyStatus := Suspended)]);
      Outcome(f', [Commit, Publish(DashboardUpdate, StatsData(Stats.BuildStats(f')))], Ok(()))
  }

  /** Deleting keeps the row, with only its duty status changed, counts it as
      suspended, and bars the driver from dispatch. */
  lemma DeleteSuspends(f: Fleet, driverId: Id, t: Trips.TripCreate, today: Day, newId: Id)
    requires FindDriver(f.drivers, driverId).Some?
    requires t.driverId == driverId
    ensures var o := DeleteDriverStep(f, driverId);
      var d := FindDriver(f.drivers, driverId).value;
      var s, s' := Stats.BuildStats(f), Stats.BuildStats(o.fleet);
      && FindDriver(o.fleet.drivers, driverId) == Some(d.(dutyStatus := Suspended))
      && s'.totalDrivers == s.totalDrivers
      && s'.suspendedDrivers == s.suspendedDrivers + (if d.dutyStatus == Suspended then 0 else 1)
      && Trips.CreateTripStep(o.fleet, t, today, newId).response.Err?
  {
    var o := DeleteDriverStep(f, driverId);
    var i := DriverIndex(f.drivers, driverId).value;
    var d := f.drivers[i];
    SameIdsSameDriverIndex(f.drivers, o.fleet.drivers, driverId);
    Stats.CountUpdate(f.drivers, i, d.(dutyStatus := Suspended), Stats.IsSuspended);
  }

  // ---------------------------------------------------------------------------
  // The handlers on the session.

  method CreateDriver(db: Store.Session, c: DriverCreate, newId: Id) returns (r: Response<Driver>)
    modifies db
    ensures var o := CreateDriverStep(old(db.Snapshot()), c, newId);
      && r == o.response
      && db.Snapshot() == o.fleet
      && db.outbox == old(db.outbox) + o.events
    ensures db.users == old(db.users)
  {
    if LicenseIndex(db.drivers, c.licenseNumber).Some? {
      return Err(400, LicenseTaken);
    }
    var driver := NewDriver(c, newId);
    db.drivers := db.drivers + [driver];
    db.Commit();
    db.Broadcast(DashboardUpdate, StatsData(Stats.BuildStats(db.Snapshot())));
    return Ok(driver);
  }

  method UpdateDriver(db: Store.Session, driverId: Id, u: DriverUpdate) returns (r: Response<Driver>)
    modifies db
    ensures var o := UpdateDriverStep(old(db.Snapshot()), driverId, u);
      && r == o.response
      && db.Snapshot() == o.fleet
      && db.outbox == old(db.outbox) + o.events
    ensures db.users == old(db.users)
  {
    var di := DriverIndex(db.drivers, driverId);
    if di.None? {
      return Err(404, NoDriver);
    }
    var driver := ApplyDriverUpdate(db.drivers[di.value], u);
    if LicenseClash(db.drivers, di.value, driver.licenseNumber) {
      return Err(500, UniqueViolation);
    }
    db.drivers := db.drivers[di.value := driver];
    db.Commit();
    db.Broadcast(DashboardUpdate, StatsData(Stats.BuildStats(db.Snapshot())));
    return Ok(driver);
  }

  method DeleteDriver(db: Store.Session, driverId: Id) returns (r: Response<()>)
    modifies db
    ensures var o := DeleteDriverStep(old(db.Snapshot()), driverId);
      && r == o.response
      && db.Snapshot() == o.fleet
      && db.outbox == old(db.outbox) + o.events
    ensures db.users == old(db.users)
  {
    var di := DriverIndex(db.drivers, driverId);
    if di.None? {
      return Err(404, NoDriver);
    }
    db.drivers := db.drivers[di.value := db.drivers[di.value].(dutyStatus := Suspended)];
    db.Commit();
    db.Broadcast(DashboardUpdate, StatsData(Stats.BuildStats(db.Snapshot())));
    return Ok(());
  }
}
