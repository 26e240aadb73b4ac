/** Record shapes of the Python backend (backend/models.py, backend/schemas.py),
    the wire enums, the outcome of a request handler and the generic table helpers
    (`query(...).filter(...).first()` and `.count()`) shared by all routers. */
module Models {

  /** Primary keys are uuid strings. */
  type Id = string
  /** A calendar date, as a day number. */
  type Day = int
  /** A timestamp (utcnow() or `new Date()`), as a number. */
  type Instant = int

  datatype Option<T> = None | Some(value: T) {
    function GetOr(default: T): T {
      if Some? then value else default
    }
  }

  // ---------------------------------------------------------------------------
  // Status columns. They are free strings in the database, so every enum keeps an
  // `...Other` case for a string that is none of the documented names.

  /** Vehicle.status: "available" | "on_trip" | "in_shop" | "retired". */
  datatype VehicleStatus = Available | OnTrip | InShop | Retired | VehicleOther(name: string)

  /** Driver.duty_status: "on" | "off" | "suspended", and "on_trip" written by trip dispatch. */
  datatype DutyStatus = On | Off | Suspended | DriverOnTrip | DutyOther(name: string)

  /** Trip.status: "draft" | "sent" | "done" | "canceled". */
  datatype TripStatus = Draft | Sent | Done | Canceled

  function VehicleStatusName(s: VehicleStatus): string {
    match s
    case Available => "available"
    case OnTrip => "on_trip"
    case InShop => "in_shop"
    case Retired => "retired"
    case VehicleOther(n) => n
  }

  /** How a status string read from a request is stored. */
  function ParseVehicleStatus(s: string): (st: VehicleStatus)
    ensures VehicleStatusName(st) == s
    ensures st.VehicleOther? <==> s !in {"available", "on_trip", "in_shop", "retired"}
    ensures CanonicalVehicleStatus(st)
  {
    if s == "available" then Available
    else if s == "on_trip" then OnTrip
    else if s == "in_shop" then InShop
    else if s == "retired" then Retired
    else VehicleOther(s)
  }

  function DutyStatusName(s: DutyStatus): string {
    match s
    case On => "on"
    case Off => "off"
    case Suspended => "suspended"
    case DriverOnTrip => "on_trip"
    case DutyOther(n) => n
  }

  function ParseDutyStatus(s: string): (st: DutyStatus)
    ensures DutyStatusName(st) == s
    ensures st.DutyOther? <==> s !in {"on", "off", "suspended", "on_trip"}
    ensures CanonicalDutyStatus(st)
  {
    if s == "on" then On
    else if s == "off" then Off
    else if s == "suspended" then Suspended
    else if s == "on_trip" then DriverOnTrip
    else DutyOther(s)
  }

  function TripStatusName(s: TripStatus): string {
    match s
    case Draft => "draft"
    case Sent => "sent"
    case Done => "done"
    case Canceled => "canceled"
  }

  /** A status value that a string column can hold: `...Other` never carries a documented name. */
  predicate CanonicalVehicleStatus(s: VehicleStatus) {
    s.VehicleOther? ==> s.name !in {"available", "on_trip", "in_shop", "retired"}
  }

  predicate CanonicalDutyStatus(s: DutyStatus) {
    s.DutyOther? ==> s.name !in {"on", "off", "suspended", "on_trip"}
  }

  /** Storing a canonical status as its string and reading it back gives the status again. */
  lemma VehicleStatusRoundTrip(s: VehicleStatus)
    requires CanonicalVehicleStatus(s)
    ensures ParseVehicleStatus(VehicleStatusName(s)) == s
  {
  }

  lemma DutyStatusRoundTrip(s: DutyStatus)
    requires CanonicalDutyStatus(s)
    ensures ParseDutyStatus(DutyStatusName(s)) == s
  {
  }

  // ---------------------------------------------------------------------------
  // User.role values.

  const FleetManager := "Fleet Manager"
  const Dispatcher := "Dispatcher"
  const SafetyOfficer := "Safety Officer"
  const FinancialAnalyst := "Financial Analyst"

  // ---------------------------------------------------------------------------
  // Rows (created_at is not modelled: no core decision reads it).

  datatype Vehicle = Vehicle(id: Id, plateNumber: string, vehicleType: string,
                             maxWeight: real, mileage: real, status: VehicleStatus)

  datatype Driver = Driver(id: Id, name: string, licenseNumber: string, licenseExpiry: Day,
                           safetyScore: real, dutyStatus: DutyStatus, avatarUrl: Option<string>)

  datatype Trip = Trip(id: Id, vehicleId: Id, driverId: Id, destination: string, cargoWeight: real,
                       startTime: Option<Instant>, endTime: Option<Instant>, status: TripStatus)

  datatype MaintenanceLog = MaintenanceLog(id: Id, vehicleId: Id, description: string, cost: real)

  datatype User = User(id: Id, name: string, email: string, hashedPassword: string,
                       role: string, isActive: bool)

  /** The fleet tables, each in storage order. */
  datatype Fleet = Fleet(vehicles: seq<Vehicle>, drivers: seq<Driver>, trips: seq<Trip>,
                         logs: seq<MaintenanceLog>)

  // ---------------------------------------------------------------------------
  // Push notifications and the handler's observable effects.

  datatype Severity = Critical | Warning | Info

  /** The `type` field of an alert payload. */
  datatype AlertKind =
    | OverweightCargo          // "overweight_cargo"
    | ExpiredLicense           // "expired_license"
    | MaintenanceStatusChange  // "maintenance_status_change"
    | LicenseExpired           // "license_expired"
    | LicenseExpiring          // "license_expiring"
    | VehicleInShop            // "vehicle_in_shop"

  /** The `message` field of an alert, one case per message template; the
      arguments are what the template interpolates. */
  datatype AlertText =
    | OverweightText(cargoWeight: real, plate: string, maxWeight: real)
    | TripBlockedText(driverName: string, expiry: Day)
    | SentToShopText(plate: string, reason: string)
    | HasExpiredText(driverName: string, expiry: Day)
    | ExpiredOnText(driverName: string, expiry: Day)
    | ExpiresOnText(driverName: string, expiry: Day)
    | InShopText(plate: string)

  datatype Alert = Alert(kind: AlertKind, text: AlertText, severity: Severity, entityId: Id)

  /** The dashboard counters of build_stats. */
  datatype Stats = Stats(activeVehicles: nat, maintenanceAlerts: nat, idleVehicles: nat,
                         pendingShipments: nat, totalDrivers: nat, suspendedDrivers: nat)

  /** A broadcast payload; `Empty` is the JSON object `{}`. */
  datatype Data =
    | Empty
    | StatsData(stats: Stats)
    | AlertData(alert: Alert)
    | TripStatusData(tripId: Id, tripStatus: TripStatus)
    | VehicleStatusData(vehicleId: Id, status: VehicleStatus, plate: string, previous: VehicleStatus)
    | VehicleData(vehicle: Vehicle)

  /** What a handler does that others can observe, in order: the database commit,
      and each `manager.broadcast(event, data)` call. */
  datatype Event = Commit | Publish(event: string, data: Data)

  const DashboardUpdate := "dashboardUpdate"
  const AlertEvent := "alert"
  const TripStatusUpdated := "tripStatusUpdated"
  const VehicleStatusUpdated := "vehicleStatusUpdated"
  const VehicleCreated := "vehicleCreated"

  /** `manager.send_alert(type, message, severity, entity_id)`. */
  function AlertPublish(a: Alert): Event {
    Publish(AlertEvent, AlertData(a))
  }

  /** The alerts published in an event log, in order. */
  function AlertsIn(events: seq<Event>): seq<Alert> {
    if events == [] then []
    else
      var rest := AlertsIn(events[1..]);
      if events[0].Publish? && events[0].event == AlertEvent && events[0].data.AlertData?
      then [events[0].data.alert] + rest
      else rest
  }

  /** One `send_alert` call per alert, in order. */
  function Publishes(alerts: seq<Alert>): (es: seq<Event>)
    ensures |es| == |alerts|
    ensures forall i :: 0 <= i < |alerts| ==> es[i] == AlertPublish(alerts[i])
  {
    seq(|alerts|, i requires 0 <= i < |alerts| => AlertPublish(alerts[i]))
  }

  /** Reading the alerts back out of their publications gives them again. */
  lemma {:induction false} AlertsInPublishes(alerts: seq<Alert>)
    ensures AlertsIn(Publishes(alerts)) == alerts
  {
    if alerts != [] {
      assert Publishes(alerts)[1..] == Publishes(alerts[1..]);
      AlertsInPublishes(alerts[1..]);
    }
  }

  /** The alerts of two logs placed one after the other. */
  lemma {:induction false} AlertsInAppend(a: seq<Event>, b: seq<Event>)
    ensures AlertsIn(a + b) == AlertsIn(a) + AlertsIn(b)
  {
    if a == [] {
      assert a + b == b;
    } else {
      assert (a + b)[1..] == a[1..] + b;
      AlertsInAppend(a[1..], b);
    }
  }

  // ---------------------------------------------------------------------------
  // Handler results.

  /** Why a request was refused (the HTTPException detail). */
  datatype Reason =
    | NoVehicle | NoDriver | NoTrip | NoLog
    | CargoTooHeavy(cargoWeight: real, maxWeight: real)
    | VehicleBusy(vehicleStatus: VehicleStatus)
    | LicenseLapsed(driverName: string, expiry: Day)
    | DriverOffDuty(driverName: string, dutyStatus: DutyStatus)
    | UnknownStatus
    | PlateTaken | LicenseTaken
    | RoleInvalid | EmailTaken | InvalidCredentials | AccountSuspended
    | InvalidToken | InvalidRefreshToken | UserMissingOrSuspended
    | NameEmpty | PasswordIncorrect | PasswordTooShort
    | UniqueViolation  // the commit broke a `unique=True` column: an unhandled IntegrityError, HTTP 500
    | NotNullViolation // the flush nulled a `nullable=False` foreign key: an unhandled IntegrityError, HTTP 500

  /** The HTTP response: the returned value, or the status code and detail of the HTTPException. */
  datatype Response<T> = Ok(value: T) | Err(code: int, reason: Reason)

  /** The effect of one handler on the fleet tables: the new tables, the events it
      emitted and its response. */
  datatype Outcome<T> = Outcome(fleet: Fleet, events: seq<Event>, response: Response<T>)

  // ---------------------------------------------------------------------------
  // Queries.

  /** `filter(p).first()`: the position of the first row satisfying p. */
  function FirstIndex<T>(s: seq<T>, p: T -> bool): (r: Option<nat>)
    ensures r.Some? ==> r.value < |s| && p(s[r.value])
    ensures r.Some? ==> forall j :: 0 <= j < r.value ==> !p(s[j])
    ensures r.None? <==> forall j :: 0 <= j < |s| ==> !p(s[j])
  {
    if |s| == 0 then None
    else if p(s[0]) then Some(0)
    else match FirstIndex(s[1..], p)
      case None => None
      case Some(k) => Some(k + 1)
  }

  /** `filter(p).count()`. */
  function Count<T>(s: seq<T>, p: T -> bool): (n: nat)
    ensures n <= |s|
  {
    if |s| == 0 then 0 else Count(s[..|s| - 1], p) + (if p(s[|s| - 1]) then 1 else 0)
  }

  /** Which row `.first()` picks depends only on which rows satisfy the filter, so
      rewriting rows without changing that (as status updates do for lookups by id)
      leaves the picked position unchanged. */
  lemma {:induction false} FirstIndexSameMask<T>(s: seq<T>, t: seq<T>, p: T -> bool)
    requires |s| == |t|
    requires forall j :: 0 <= j < |s| ==> p(s[j]) == p(t[j])
    ensures FirstIndex(s, p) == FirstIndex(t, p)
  {
    if |s| > 0 {
      FirstIndexSameMask(s[1..], t[1..], p);
    }
  }

  function FindVehicle(vs: seq<Vehicle>, id: Id): (r: Option<Vehicle>)
    ensures r.Some? ==> r.value in vs && r.value.id == id
    ensures r.None? <==> forall j :: 0 <= j < |vs| ==> vs[j].id != id
  {
    match VehicleIndex(vs, id)
    case Some(i) => Some(vs[i])
    case None => None
  }

  function FindDriver(ds: seq<Driver>, id: Id): (r: Option<Driver>)
    ensures r.Some? ==> r.value in ds && r.value.id == id
    ensures r.None? <==> forall j :: 0 <= j < |ds| ==> ds[j].id != id
  {
    match DriverIndex(ds, id)
    case Some(i) => Some(ds[i])
    case None => None
  }

  function VehicleIndex(vs: seq<Vehicle>, id: Id): (r: Option<nat>)
    ensures r.Some? ==> r.value < |vs| && vs[r.value].id == id
    ensures r.Some? ==> forall j :: 0 <= j < r.value ==> vs[j].id != id
    ensures r.None? <==> forall j :: 0 <= j < |vs| ==> vs[j].id != id
  {
    FirstIndex(vs, (v: Vehicle) => v.id == id)
  }

  function DriverIndex(ds: seq<Driver>, id: Id): (r: Option<nat>)
    ensures r.Some? ==> r.value < |ds| && ds[r.value].id == id
    ensures r.Some? ==> forall j :: 0 <= j < r.value ==> ds[j].id != id
    ensures r.None? <==> forall j :: 0 <= j < |ds| ==> ds[j].id != id
  {
    FirstIndex(ds, (d: Driver) => d.id == id)
  }

  function TripIndex(ts: seq<Trip>, id: Id): (r: Option<nat>)
    ensures r.Some? ==> r.value < |ts| && ts[r.value].id == id
    ensures r.Some? ==> forall j :: 0 <= j < r.value ==> ts[j].id != id
    ensures r.None? <==> forall j :: 0 <= j < |ts| ==> ts[j].id != id
  {
    FirstIndex(ts, (t: Trip) => t.id == id)
  }

  function LogIndex(ls: seq<MaintenanceLog>, id: Id): (r: Option<nat>)
    ensures r.Some? ==> r.value < |ls| && ls[r.value].id == id
    ensures r.Some? ==> forall j :: 0 <= j < r.value ==> ls[j].id != id
    ensures r.None? <==> forall j :: 0 <= j < |ls| ==> ls[j].id != id
  {
    FirstIndex(ls, (l: MaintenanceLog) => l.id == id)
  }

  function UserIndex(us: seq<User>, id: Id): (r: Option<nat>)
    ensures r.Some? ==> r.value < |us| && us[r.value].id == id
    ensures r.Some? ==> forall j :: 0 <= j < r.value ==> us[j].id != id
    ensures r.None? <==> forall j :: 0 <= j < |us| ==> us[j].id != id
  {
    FirstIndex(us, (u: User) => u.id == id)
  }

  /** Lookups by id see only the ids: tables with the same ids position by position
      give the same answers. */
  lemma SameIdsSameVehicleIndex(vs: seq<Vehicle>, ws: seq<Vehicle>, id: Id)
    requires |vs| == |ws| && forall j :: 0 <= j < |vs| ==> vs[j].id == ws[j].id
    ensures VehicleIndex(vs, id) == VehicleIndex(ws, id)
  {
    FirstIndexSameMask(vs, ws, (v: Vehicle) => v.id == id);
  }

  lemma SameIdsSameDriverIndex(ds: seq<Driver>, es: seq<Driver>, id: Id)
    requires |ds| == |es| && forall j :: 0 <= j < |ds| ==> ds[j].id == es[j].id
    ensures DriverIndex(ds, id) == DriverIndex(es, id)
  {
    FirstIndexSameMask(ds, es, (d: Driver) => d.id == id);
  }

  lemma SameIdsSameTripIndex(ts: seq<Trip>, us: seq<Trip>, id: Id)
    requires |ts| == |us| && forall j :: 0 <= j < |ts| ==> ts[j].id == us[j].id
    ensures TripIndex(ts, id) == TripIndex(us, id)
  {
    FirstIndexSameMask(ts, us, (t: Trip) => t.id == id);
  }

  /** The sequence without its element at position i (`db.delete(row)`). */
  function RemoveAt<T>(s: seq<T>, i: nat): (r: seq<T>)
    requires i < |s|
    ensures |r| == |s| - 1
    ensures forall j :: 0 <= j < i ==> r[j] == s[j]
    ensures forall j :: i <= j < |r| ==> r[j] == s[j + 1]
  {
    s[..i] + s[i + 1..]
  }

  /** Python's `s[:n]`. */
  function Prefix<T>(s: seq<T>, n: nat): (r: seq<T>)
    ensures |r| == if |s| <= n then |s| else n
    ensures r <= s
  {
    if |s| <= n then s else s[..n]
  }
}
