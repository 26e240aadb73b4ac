/** backend/routers/reports_router.py, get_alerts: the current alerts, licence alerts
    for the drivers first, then one alert per vehicle in the shop. */
module Reports {
  import opened Models
  import Stats
  import Store
  import Licenses
  import Drivers

  /** The licence alert get_alerts lists for one driver, if any. The expired message
      reads "EXPIRED on", not get_drivers' "has EXPIRED on". */
  function ReportAlert(d: Driver, today: Day): (a: Option<Alert>)
    ensures a.Some? <==> Licenses.Alerted(d, today)
  {
    match Licenses.Classify(d.licenseExpiry, today)
    case Expired => Some(Alert(LicenseExpired, ExpiredOnText(d.name, d.licenseExpiry), Critical, d.id))
    case ExpiresSoon => Some(Alert(LicenseExpiring, ExpiresOnText(d.name, d.licenseExpiry), Warning, d.id))
    case Current => None
  }

  /** The alert for a vehicle in the shop. */
  function ShopAlert(v: Vehicle): Alert {
    Alert(VehicleInShop, InShopText(v.plateNumber), Info, v.id)
  }

  /** The first loop: the drivers' licence alerts, in driver order. */
  function DriverAlerts(ds: seq<Driver>, today: Day): seq<Alert> {
    if ds == [] then [] else DriverAlerts(ds[..|ds| - 1], today) + Drivers.AsSeq(ReportAlert(ds[|ds| - 1], today))
  }

  /** `filter(Vehicle.status == "in_shop").all()`. */
  function ShopVehicles(vs: seq<Vehicle>): (r: seq<Vehicle>)
    ensures forall v :: v in r <==> v in vs && v.status == InShop
    ensures |r| == Count(vs, Stats.IsShopped)
  {
    if vs == [] then []
    else
      var last := vs[|vs| - 1];
      assert vs == vs[..|vs| - 1] + [last];
      ShopVehicles(vs[..|vs| - 1]) + (if last.status == InShop then [last] else [])
  }

  /** The second loop: one alert per shop vehicle. */
  function ShopAlerts(vs: seq<Vehicle>): (r: seq<Alert>)
    ensures |r| == |vs|
    ensures forall i :: 0 <= i < |vs| ==> r[i] == ShopAlert(vs[i])
  {
    seq(|vs|, i requires 0 <= i < |vs| => ShopAlert(vs[i]))
  }

  /** The response of get_alerts. */
  function AlertList(f: Fleet, today: Day): seq<Alert> {
    DriverAlerts(f.drivers, today) + ShopAlerts(ShopVehicles(f.vehicles))
  }

  predicate IsLicenseAlert(a: Alert) {
    a.kind == LicenseExpired || a.kind == LicenseExpiring
  }

  /** The driver alerts are licence alerts only, one per alerted driver. */
  lemma {:induction false} DriverAlertsShape(ds: seq<Driver>, today: Day)
    ensures |DriverAlerts(ds, today)| == Count(ds, (d: Driver) => Licenses.Alerted(d, today))
    ensures forall i :: 0 <= i < |DriverAlerts(ds, today)| ==> IsLicenseAlert(DriverAlerts(ds, today)[i])
  {
    if ds != [] {
      DriverAlertsShape(ds[..|ds| - 1], today);
    }
  }

  /** get_alerts lists one alert per driver whose licence expires within 30 days (or has
      expired) and one per in-shop vehicle; every licence alert comes before every shop
      alert. */
  lemma AlertListShape(f: Fleet, today: Day)
    ensures var alerts, n := AlertList(f, today), Count(f.drivers, (d: Driver) => Licenses.Alerted(d, today));
      && |alerts| == n + Stats.BuildStats(f).maintenanceAlerts
      && (forall i :: 0 <= i < n ==> IsLicenseAlert(alerts[i]))
      && (forall i :: n <= i < |alerts| ==> alerts[i].kind == VehicleInShop && alerts[i].severity == Info)
  {
    DriverAlertsShape(f.drivers, today);
  }

  /** The report and get_drivers classify every licence alike: same driver, same type,
      same severity; only the wording of the expired message differs. The listing for a
      driver is the same alert get_drivers raises apart from that message. */
  lemma ReportAgreesWithDrivers(d: Driver, today: Day)
    ensures ReportAlert(d, today).Some? <==> Drivers.DriverAlert(d, today).Some?
    ensures ReportAlert(d, today).Some? ==>
              ReportAlert(d, today).value.(text := Drivers.DriverAlert(d, today).value.text) ==
              Drivers.DriverAlert(d, today).value
  {
  }

  /** Each driver contributes at most one alert: adding a driver to the table adds at
      most one alert to the report, at the end of the licence alerts. */
  lemma OneAlertPerDriver(f: Fleet, d: Driver, today: Day)
    ensures var f' := f.(drivers := f.drivers + [d]);
      var k := |DriverAlerts(f.drivers, today)|;
      && |AlertList(f', today)| == |AlertList(f, today)| + (if Licenses.Alerted(d, today) then 1 else 0)
      && AlertList(f', today)[..k] == AlertList(f, today)[..k]
  {
    var f' := f.(drivers := f.drivers + [d]);
    assert f'.drivers[..|f'.drivers| - 1] == f.drivers;
  }

  /** get_alerts: two loops appending to `alerts`; the session is only read. */
  method GetAlerts(db: Store.Session, today: Day) returns (alerts: seq<Alert>)
    ensures alerts == AlertList(db.Snapshot(), today)
  {
    alerts := [];
    var drivers := db.drivers;
    var k := 0;
    while k < |drivers|
      invariant 0 <= k <= |drivers|
      invariant alerts == DriverAlerts(drivers[..k], today)
    {
      var d := drivers[k];
      assert drivers[..k + 1][..k] == drivers[..k];
      var st := Licenses.Classify(d.licenseExpiry, today);
      if st == Licenses.Expired {
        alerts := alerts + [Alert(LicenseExpired, ExpiredOnText(d.name, d.licenseExpiry), Critical, d.id)];
      } else if st == Licenses.ExpiresSoon {
        alerts := alerts + [Alert(LicenseExpiring, ExpiresOnText(d.name, d.licenseExpiry), Warning, d.id)];
      }
      k := k + 1;
    }
    assert drivers[..k] == drivers;
    var shopVehicles := ShopVehicles(db.vehicles);
    ghost var driverPart := alerts;
    var j := 0;
    while j < |shopVehicles|
      invariant 0 <= j <= |shopVehicles|
      invariant alerts == driverPart + ShopAlerts(shopVehicles[..j])
    {
      alerts := alerts + [ShopAlert(shopVehicles[j])];
      j := j + 1;
    }
    assert shopVehicles[..j] == shopVehicles;
  }
}
