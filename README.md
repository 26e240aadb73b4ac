# FleetFlow dispatch core in Dafny

FleetFlow runs a delivery fleet: vehicles, drivers, trips, maintenance logs and
the users who operate them. This project models the request handlers that
decide what happens to those records. Each handler is written twice: once as a
pure step function over the tables, once as an imperative method over a mutable
store, and the method is proved equal to the step function. The properties the
handlers promise, or break, are then proved about the step functions.

The modules follow the repository's files:

- Python backend
  - `models.dfy`: the records, status enums and outcomes.
  - `stats.dfy`: `build_stats`.
  - `store.dfy`: the database session and the ordered log of commits and
    broadcasts.
  - `licenses.dfy`: the licence-expiry rule.
  - `trips.dfy`, `maintenance.dfy`, `vehicles.dfy`, `drivers.dfy`,
    `reports.dfy`, `auth.dfy`: one module per router.
  - `broadcaster.dfy`: the WebSocket `ConnectionManager`.
- Node backend
  - `node_api.dfy`: the Prisma routes of the Express server.

## Modelling choices

- **Tables.** A table is a sequence of rows in storage order.
  `query(...).filter(...).first()` is `Models.FirstIndex`, and `.count()` is
  `Models.Count`.
- **Status columns.** They are free strings. Each status enum therefore has an
  `...Other(name)` case, so a patch can store any string.
- **Events.** A handler's observable effects are listed in order: `Commit` for
  `db.commit()` and `Publish(event, data)` for each broadcast. This lets
  contracts say that a refusal commits nothing and that broadcasts follow the
  commit.
- **Unique columns.** `plate_number`, `license_number` and `email` are unique
  columns. A patch that duplicates one of them passes the handler's checks but
  fails at commit. That failure is modelled as `Err(500, UniqueViolation)`, with
  the tables unchanged.
- **Patches.** `model_dump(exclude_unset=True)` is modelled as optional fields.
  An explicit `null` is modelled only for the driver's `avatar_url`, the one
  column whose response schema admits null.
- **Inputs from outside.** These are parameters:
  - `today`, `now` and the new row's uuid;
  - the password hash and check functions;
  - the decoded token's claims;
  - the set of sockets whose send fails.
- **Node backend.** Each `await prisma.*.update` that finds no row throws and
  answers 500. Updates already made stay applied.

## Behaviour of note

These behaviours are easy to miss in the source's own comments and names. In
each case the model follows the code.

- **Terminal statuses are not enforced.** `update_trip_status` accepts any of
  the four names (backend/routers/trips_router.py:126-129) and never reads the
  trip's current status. So a `done` or `canceled` trip can be sent again
  (`Trips.CompletedTripCanBeResent`).
- **Python `done`: the driver is not made available.** The comment at
  trips_router.py:140 says "vehicle + driver back to available", but line 148
  sets `duty_status = "on"`. The Node route sets `dutyStatus: 'available'`
  instead (backend-node/routes/api.js:128).
- **Python `done`: the mileage depends on cargo only.** The comment at
  trips_router.py:143 speaks of "cargo/time". Line 144 adds
  `cargo_weight * 0.01` and nothing for time. The Node route adds a fixed 100
  (api.js:126, "Mock 100 mileage").
- **The two licence checks disagree by a day.** `create_trip` refuses only
  when `license_expiry_date < today` (trips_router.py:79). `get_drivers` treats
  a licence as expired when `<= today` (backend/routers/drivers_router.py:59).
  So a driver whose licence expires today is dispatched and alerted in the same
  day (`Trips.ExpiryTodayAdmittedButAlerted`).
- **Only Python checks the driver's duty.** Its sixth rule requires the driver
  to be on duty (trips_router.py:91-96). The Node route has no such check
  (api.js:81-103, `NodeApi.PostTripIgnoresDuty`).
- **Node `canceled` releases nothing.** The comment at api.js:114 lists
  `canceled`, but it falls into the plain status update (api.js:130-132).
  Python releases whatever is still reserved (trips_router.py:150-155).
- **The Node status update is not atomic.** Its three updates are separate
  awaited calls (api.js:120-122), so a failure part-way leaves the earlier
  updates applied (`NodeApi.PatchSentIsNotAtomic`).
- **Deleting a trip that has fuel logs fails.** `Trip.fuel_logs`
  (backend/models.py:69) has no delete cascade, and `FuelLog.trip_id` is
  `nullable=False` (models.py:88). So the commit of `delete_trip` fails with a
  500 and nothing is deleted.

## Model

| member | source | states |
|---|---|---|
| Models.ParseVehicleStatus | backend/models.py:32 | a stored vehicle status reads back as the same string; the four documented names map to their cases and nothing else does, so what a handler stores is canonical (no `Other` case spelling a documented name) |
| Models.VehicleStatusRoundTrip | backend/models.py:32 | a canonical vehicle status survives being written as its string and read back |
| Models.ParseDutyStatus | backend/models.py:47 | the same for duty statuses (`on`, `off`, `suspended`, `on_trip`), the stored result canonical too |
| Models.DutyStatusRoundTrip | backend/models.py:47 | a canonical duty status survives the string round trip |
| Models.FirstIndex | backend/routers/trips_router.py:51-52 | `.first()` returns the earliest row that matches, and nothing exactly when no row matches |
| Models.VehicleIndex | backend/routers/trips_router.py:51 | the lookup by id finds the first vehicle with that id, and nothing exactly when none has it |
| Models.DriverIndex | backend/routers/trips_router.py:52 | the same lookup for drivers |
| Models.TripIndex | backend/routers/trips_router.py:122 | the same lookup for trips |
| Models.LogIndex | backend/routers/maintenance_router.py:66 | the same lookup for maintenance logs |
| Models.UserIndex | backend/auth.py:70 | the same lookup for users |
| Store.Session.Commit | backend/routers/trips_router.py:107 | `db.commit()` is recorded once, after every earlier effect |
| Store.Session.Broadcast | backend/websocket_manager.py:22-32 | one broadcast of the event and payload is recorded, after every earlier effect |
| Store.Session.SendAlert | backend/websocket_manager.py:34-40 | one `alert` broadcast carrying the alert is recorded |
| NodeApi.Database.Emit | backend-node/routes/api.js:105 | one `io.emit` is recorded, after every earlier one |
| Models.Prefix | backend/routers/maintenance_router.py:47 | `s[:n]` is a prefix of `s` of length `min(n, len(s))` |
| Models.AlertsInPublishes | backend/websocket_manager.py:34-40 | the alerts read back from a run of `send_alert` calls are the alerts sent, in order |
| Stats.BuildStats | backend/routers/trips_router.py:14-32 | the dashboard counters, written out identically at vehicles_router.py:14-32 and drivers_router.py:14-32; idle ≤ active, active + in shop ≤ vehicles, suspended ≤ drivers = total_drivers, pending ≤ trips |
| Licenses.Classify | backend/routers/drivers_router.py:56-72 | expired iff expiry ≤ today; expiring iff today < expiry ≤ today + 30; current otherwise |
| Trips.CreateTripStep | backend/routers/trips_router.py:44-111 | the six rules in order, each with its response, alert and unchanged tables; admitted iff all pass, and then exactly one draft trip is added, committed, then counters broadcast |
| Trips.CreateRefusalIsInert | backend/routers/trips_router.py:54-97 | a refusal changes no table, commits nothing, raises exactly one alert for overweight or expired licence and none otherwise; 404 only for missing rows |
| Trips.OverweightAlwaysAlerts | backend/routers/trips_router.py:60-70 | overweight cargo is refused with its one alert whatever the statuses and licence |
| Trips.FullLoadAdmitted | backend/routers/trips_router.py:60 | cargo exactly at capacity is not overweight |
| Trips.ExpiryTodayAdmittedButAlerted | backend/routers/trips_router.py:79 | a licence expiring today passes the guard, yet the licence rule classifies it as expired |
| Trips.CreateAddsPendingShipment | backend/routers/trips_router.py:99-110 | a successful create raises pending_shipments by one and leaves every other counter |
| Trips.CreateTrip | backend/routers/trips_router.py:44-111 | the handler on the session equals CreateTripStep: response, tables and events |
| Trips.Lower | backend/routers/trips_router.py:126 | `lower()` maps each letter A-Z to its lower case and keeps the length |
| Trips.ParseTripStatus | backend/routers/trips_router.py:126-129 | a status is accepted iff its lower case is one of the four allowed names, and then names that status |
| Trips.ParseTripStatusName | backend/routers/trips_router.py:126-129 | every status's own name is accepted as that status |
| Trips.UpdateTripStatusStep | backend/routers/trips_router.py:114-163 | 404 for a missing trip, 400 for an unknown status, otherwise the trip, its vehicle and its driver rewritten, then commit, tripStatusUpdated and dashboardUpdate; the current status is never read |
| Trips.TransitionKeepsTripContent | backend/routers/trips_router.py:131-157 | a transition keeps the trip's id, references, destination and weight and stamps only the matching time |
| Trips.TransitionEffects | backend/routers/trips_router.py:131-156 | sent reserves vehicle and driver, done frees both and adds cargo × 0.01 km in exact arithmetic, canceled frees only what is reserved, draft touches nothing; no other field changes |
| Trips.TouchLeavesOthers | backend/routers/trips_router.py:134-155 | only the trip's own vehicle and driver rows change, and they are found again by the same ids |
| Trips.AcceptedTransitionShape | backend/routers/trips_router.py:122-158 | after an accepted transition the trip, its vehicle and its driver sit where they were, with their new contents |
| Trips.SendThenComplete | backend/routers/trips_router.py:131-149 | send then complete leaves the vehicle available with mileage + cargo × 0.01 in exact arithmetic, the driver `on`, and both times stamped, whatever the case of the request |
| Trips.CompletedTripCanBeResent | backend/routers/trips_router.py:126-137 | a done or canceled trip can be sent again and reserves its vehicle |
| Trips.CompletingFreesSharedVehicle | backend/routers/trips_router.py:139-148 | completing any trip frees its vehicle even while another sent trip holds it, so that trip loses its reservation and the coupling breaks |
| Trips.CompletingStaleDraftBreaksCoupling | backend/routers/trips_router.py:139-148 | completing a draft that shares a vehicle with a sent trip frees the vehicle under the sent trip |
| Trips.DeleteTripStep | backend/routers/trips_router.py:166-179 | 404 for a missing trip; 500 with nothing deleted and nothing committed when a fuel log refers to the trip; otherwise only that row is removed, then commit and an empty dashboardUpdate |
| Trips.DeleteStrandsReservation | backend/routers/trips_router.py:172-177 | deleting the only sent trip leaves its vehicle reserved by no trip |
| Trips.MoveVehicle | backend/routers/trips_router.py:134-153 | the in-place vehicle assignments of the status branches |
| Trips.MoveDriver | backend/routers/trips_router.py:136-155 | the in-place driver assignments of the status branches |
| Trips.StampTrip | backend/routers/trips_router.py:131-157 | the in-place trip assignments of the status branches: the matching time stamp, then the status |
| Trips.ApplyTransition | backend/routers/trips_router.py:131-162 | an accepted status rewrites the trip, its vehicle and its driver as the transition functions say, then commits and broadcasts tripStatusUpdated and the new counters |
| Trips.UpdateTripStatus | backend/routers/trips_router.py:114-163 | the handler on the session equals UpdateTripStatusStep |
| Trips.DeleteTrip | backend/routers/trips_router.py:166-179 | the handler on the session equals DeleteTripStep |
| Maintenance.CreateMaintenanceStep | backend/routers/maintenance_router.py:21-58 | 404 and no change for an unknown vehicle; otherwise one log added, the vehicle in_shop, then commit, the alert, vehicleStatusUpdated with the prior status, and dashboardUpdate |
| Maintenance.CreateLocksVehicle | backend/routers/maintenance_router.py:28-56 | the vehicle goes in_shop from any status, on_trip too; the prior status is reported; exactly the requested log is added; nothing else changes |
| Maintenance.ShopAlertQuotesDescription | backend/routers/maintenance_router.py:45-50 | the one alert is a warning about the vehicle quoting the first 60 characters of the description |
| Maintenance.CreateCountsShopVisit | backend/routers/maintenance_router.py:40-42 | maintenance_alerts rises by one unless the vehicle was already in the shop; no other counter rises |
| Maintenance.Released | backend/routers/maintenance_router.py:73-74 | a vehicle becomes available only if it is in_shop, and nothing else about it changes |
| Maintenance.DeleteMaintenanceStep | backend/routers/maintenance_router.py:61-80 | 404 and no change for an unknown log; otherwise that log removed and its vehicle released, then commit and dashboardUpdate |
| Maintenance.DeleteReleasesOnlyShoppedVehicle | backend/routers/maintenance_router.py:67-77 | exactly the deleted log goes, and the vehicle ends available iff it was in the shop or already available |
| Maintenance.CreateThenDeleteRestores | backend/routers/maintenance_router.py:21-80 | logging and resolving an entry for an available vehicle restores the tables exactly |
| Maintenance.ShopVisitReleasesReservedVehicle | backend/routers/maintenance_router.py:39-74 | a shop visit for a vehicle on a trip ends with it available while its trip stays sent |
| Maintenance.DeleteIgnoresOtherOpenLogs | backend/routers/maintenance_router.py:71-76 | resolving one of two open entries already takes the vehicle out of the shop |
| Maintenance.CreateMaintenance | backend/routers/maintenance_router.py:21-58 | the handler on the session equals CreateMaintenanceStep |
| Maintenance.DeleteMaintenance | backend/routers/maintenance_router.py:61-80 | the handler on the session equals DeleteMaintenanceStep |
| Vehicles.WithoutShopped | backend/routers/vehicles_router.py:55 | keeps exactly the vehicles not in_shop |
| Vehicles.WithoutShoppedAppend | backend/routers/vehicles_router.py:53-55 | the filter keeps storage order |
| Vehicles.WithoutShoppedCount | backend/routers/vehicles_router.py:55 | it drops exactly the in-shop count |
| Vehicles.VisibleVehicles | backend/routers/vehicles_router.py:47-56 | a dispatcher sees every vehicle not in_shop; any other role sees all of them |
| Vehicles.DispatcherSeesAllButShop | backend/routers/vehicles_router.py:54-55 | a dispatcher's list is the table minus maintenance_alerts |
| Vehicles.PlateIndex | backend/routers/vehicles_router.py:66 | the lookup by plate number |
| Vehicles.CreateVehicleStep | backend/routers/vehicles_router.py:59-77 | 400 for a taken plate; otherwise exactly the new row added, then commit, vehicleCreated and dashboardUpdate |
| Vehicles.CreateKeepsPlatesUnique | backend/routers/vehicles_router.py:66-72 | create keeps plates unique, and the new row carries the request's plate and status string |
| Vehicles.Dump | backend/routers/vehicles_router.py:91 | at most one pair per field |
| Vehicles.Patched | backend/routers/vehicles_router.py:91-92 | a patch keeps the id, is the identity when empty, and stores the status string it carries |
| Vehicles.SetAllAppend | backend/routers/vehicles_router.py:91-92 | setattr over two runs of pairs is the second applied after the first |
| Vehicles.DumpApplies | backend/routers/vehicles_router.py:91-92 | the setattr loop over the dumped pairs computes Patched |
| Vehicles.PatchIdempotent | backend/routers/vehicles_router.py:91-92 | applying a patch twice is applying it once |
| Vehicles.ApplyVehicleUpdate | backend/routers/vehicles_router.py:91-92 | the loop returns Patched(v, u) |
| Vehicles.UpdateVehicleStep | backend/routers/vehicles_router.py:80-99 | 404 for a missing vehicle; 500 with no change when the patched plate is taken; otherwise the patched row, then commit and two broadcasts |
| Vehicles.UpdateKeepsPlatesUnique | backend/routers/vehicles_router.py:91-94 | update keeps plates unique, by the column constraint alone |
| Vehicles.DuplicatePlateReachesCommit | backend/routers/vehicles_router.py:87-94 | a patch onto a taken plate passes the handler and fails only at commit |
| Vehicles.PatchCanReserveWithoutTrip | backend/routers/vehicles_router.py:91-92 | a patch can set `on_trip` with no trip involved |
| Vehicles.DeleteVehicleStep | backend/routers/vehicles_router.py:102-117 | 404 for a missing vehicle; otherwise the status becomes retired, then commit and dashboardUpdate |
| Vehicles.DeleteRetires | backend/routers/vehicles_router.py:112-116 | the row stays, found by the same id, with only its status changed, and the counters drop by what it counted in |
| Vehicles.CreateVehicle | backend/routers/vehicles_router.py:59-77 | the handler on the session equals CreateVehicleStep |
| Vehicles.UpdateVehicle | backend/routers/vehicles_router.py:80-99 | the handler on the session equals UpdateVehicleStep |
| Vehicles.DeleteVehicle | backend/routers/vehicles_router.py:102-117 | the handler on the session equals DeleteVehicleStep |
| Drivers.DriverAlert | backend/routers/drivers_router.py:58-72 | an alert iff the licence is expired or expiring, of the matching type and severity, about that driver |
| Drivers.LicenseAlertsCount | backend/routers/drivers_router.py:58-72 | one alert per alerted driver |
| Drivers.LicenseAlertsSound | backend/routers/drivers_router.py:58-72 | every alert belongs to a listed driver, and every alerted driver has one |
| Drivers.ExpiryDayIsExpired | backend/routers/drivers_router.py:59 | on its expiry day a licence is already a critical expired alert, yet create_trip admits its driver |
| Drivers.GetDrivers | backend/routers/drivers_router.py:47-74 | returns the drivers unchanged and sends their licence alerts in driver order |
| Drivers.LicenseIndex | backend/routers/drivers_router.py:83 | the lookup by licence number |
| Drivers.CreateDriverStep | backend/routers/drivers_router.py:77-93 | 400 for a taken licence number; otherwise exactly the new row added, then commit and dashboardUpdate |
| Drivers.CreateKeepsLicensesUnique | backend/routers/drivers_router.py:83-92 | create keeps licence numbers unique and adds one driver |
| Drivers.Dump | backend/routers/drivers_router.py:107 | at most one pair per field |
| Drivers.Patched | backend/routers/drivers_router.py:107-108 | a patch keeps the id, is the identity when empty, stores the duty string as given, and sets the avatar to the sent value, `null` included, or keeps it when unset |
| Drivers.SetAllAppend | backend/routers/drivers_router.py:107-108 | setattr over two runs of pairs composes |
| Drivers.DumpApplies | backend/routers/drivers_router.py:107-108 | the setattr loop over the dumped pairs computes Patched |
| Drivers.ApplyDriverUpdate | backend/routers/drivers_router.py:107-108 | the loop returns Patched(d, u) |
| Drivers.UpdateDriverStep | backend/routers/drivers_router.py:96-114 | 404 for a missing driver; 500 with no change when the patched licence number is taken; otherwise the patched row, then commit and dashboardUpdate |
| Drivers.UpdateKeepsLicensesUnique | backend/routers/drivers_router.py:107-110 | update keeps licence numbers unique, by the column constraint |
| Drivers.PatchCanReinstate | backend/routers/drivers_router.py:107-108 | a patch puts a suspended driver back on duty |
| Drivers.DeleteDriverStep | backend/routers/drivers_router.py:117-130 | 404 for a missing driver; otherwise duty becomes suspended, then commit and dashboardUpdate |
| Drivers.DeleteSuspends | backend/routers/drivers_router.py:123-129 | the row stays with only its duty changed, suspended_drivers counts it, and create_trip refuses it |
| Drivers.CreateDriver | backend/routers/drivers_router.py:77-93 | the handler on the session equals CreateDriverStep |
| Drivers.UpdateDriver | backend/routers/drivers_router.py:96-114 | the handler on the session equals UpdateDriverStep |
| Drivers.DeleteDriver | backend/routers/drivers_router.py:117-130 | the handler on the session equals DeleteDriverStep |
| Reports.ReportAlert | backend/routers/reports_router.py:260-274 | a report entry iff the licence is expired or expiring |
| Reports.ShopVehicles | backend/routers/reports_router.py:276 | exactly the in-shop vehicles, as many as maintenance_alerts |
| Reports.ShopAlerts | backend/routers/reports_router.py:277-283 | one info alert per shop vehicle, in order |
| Reports.DriverAlertsShape | backend/routers/reports_router.py:259-274 | one licence alert per alerted driver and no other kind |
| Reports.AlertListShape | backend/routers/reports_router.py:249-285 | alerted drivers plus shop vehicles in total, every licence alert before every shop alert |
| Reports.ReportAgreesWithDrivers | backend/routers/reports_router.py:260-274 | the report and get_drivers alert for the same drivers with the same type and severity; only the wording differs |
| Reports.OneAlertPerDriver | backend/routers/reports_router.py:259-274 | one more driver adds at most one alert and keeps the earlier ones |
| Reports.GetAlerts | backend/routers/reports_router.py:249-285 | the two loops return AlertList and change nothing |
| Auth.TokensFor | backend/routers/auth_router.py:67-78 | an access and a refresh token, both for the user's id |
| Auth.EmailIndex | backend/routers/auth_router.py:33 | the lookup by email |
| Auth.RegisterStep | backend/routers/auth_router.py:26-47 | 400 for a role outside the four, then 400 for a taken email; otherwise exactly one active user added with the hashed password |
| Auth.RegisterKeepsEmailsUnique | backend/routers/auth_router.py:29-47 | register keeps emails unique, and every new user is active with an allowed role |
| Auth.Register | backend/routers/auth_router.py:26-47 | the handler on the session equals RegisterStep, and it commits exactly when it succeeds |
| Auth.LoginStep | backend/routers/auth_router.py:50-78 | tokens iff the email exists, the password verifies and the account is active; 401 before 403 |
| Auth.RefreshStep | backend/routers/auth_router.py:81-101 | new tokens iff the token decodes, is a refresh token, and names an active user; every refusal is 401 |
| Auth.LoginThenRefresh | backend/routers/auth_router.py:50-101 | a login's refresh token is accepted and yields the same tokens; its access token is refused |
| Auth.SuspendedAccountIsLockedOut | backend/routers/auth_router.py:55-91 | a suspended account gets 403 on login with the right password, 401 otherwise, and is refused on refresh |
| Auth.Strip | backend/routers/auth_router.py:118 | `strip()` returns the slice of the input with only whitespace before and after it, neither starting nor ending with whitespace; empty iff the input is all whitespace |
| Auth.StripDetermined | backend/routers/auth_router.py:118 | those clauses admit exactly one string, so they fix what `strip()` returns |
| Auth.StripIdempotent | backend/routers/auth_router.py:118 | stripping twice is stripping once |
| Auth.UpdateMeStep | backend/routers/auth_router.py:110-124 | no name changes nothing; a blank name is 400; otherwise only the stripped name is stored |
| Auth.UpdateMeStable | backend/routers/auth_router.py:117-121 | sending back the stored name changes nothing |
| Auth.UpdateMe | backend/routers/auth_router.py:110-124 | the handler on the session equals UpdateMeStep, and it commits exactly when it succeeds |
| Auth.ChangePasswordStep | backend/routers/auth_router.py:127-140 | 400 for a wrong current password, then 400 for one shorter than 6; otherwise only the hash changes |
| Auth.ChangePasswordGuards | backend/routers/auth_router.py:134-138 | a refusal keeps the hash, a wrong password is reported first, and afterwards login accepts the new password |
| Auth.ChangePassword | backend/routers/auth_router.py:127-140 | the handler on the session equals ChangePasswordStep, and it commits exactly when it succeeds |
| Broadcaster.Envelope | backend/websocket_manager.py:24 | the message carries the event and the payload, `{}` when the payload is absent |
| Broadcaster.RecipientsDistinct | backend/websocket_manager.py:26-30 | as many recipients as deliveries means nobody received the message twice |
| Broadcaster.BroadcastOncePerClient | backend/websocket_manager.py:22-32 | a broadcast reaches every surviving client exactly once |
| Broadcaster.SendAll | backend/websocket_manager.py:25-30 | every client is tried; those whose send fails are collected; each of the others gets the message once |
| Broadcaster.ConnectionManager.constructor | backend/websocket_manager.py:12-13 | starts with no connections |
| Broadcaster.ConnectionManager.Connect | backend/websocket_manager.py:15-17 | adds the socket |
| Broadcaster.ConnectionManager.Disconnect | backend/websocket_manager.py:19-20 | removes the socket, and is no error when it is absent |
| Broadcaster.ConnectionManager.DropAll | backend/websocket_manager.py:31-32 | discards exactly the dead sockets |
| Broadcaster.ConnectionManager.Broadcast | backend/websocket_manager.py:22-32 | every client connected at the start gets the envelope once unless its send fails; the failing ones are dropped |
| Broadcaster.ConnectionManager.SendAlert | backend/websocket_manager.py:34-40 | an `alert` broadcast carrying the alert's four fields |
| NodeApi.OutOfShop | backend-node/routes/api.js:19-21 | keeps exactly the vehicles not `in_shop` |
| NodeApi.OutOfShopAppend | backend-node/routes/api.js:20 | the filter keeps the table's order |
| NodeApi.ListVehicles | backend-node/routes/api.js:13-23 | a Dispatcher gets the vehicles not `in_shop`; any other role gets them all |
| NodeApi.PostTripStep | backend-node/routes/api.js:76-110 | a refusal changes nothing; a success stores only vehicleId, driverId and cargoWeight and emits one dashboardUpdate |
| NodeApi.PostTripGuardOrder | backend-node/routes/api.js:84-99 | 404 first; then overweight with its alert, not available, expired licence with its alert; success iff all three pass |
| NodeApi.PostTripIgnoresDuty | backend-node/routes/api.js:81-103 | the driver's duty status never affects the outcome |
| NodeApi.UpdateVehicle | backend-node/routes/api.js:120 | `prisma.vehicle.update` fails iff no row has the id, and otherwise rewrites that row alone |
| NodeApi.UpdateDriver | backend-node/routes/api.js:121 | the same for `prisma.driver.update` |
| NodeApi.CoupledUpdate | backend-node/routes/api.js:119-129 | a success returns the rewritten trip |
| NodeApi.PatchTripStatusStep | backend-node/routes/api.js:112-139 | 404 for a missing trip; a success emits one dashboardUpdate; a failure emits nothing and keeps the trips |
| NodeApi.PatchSent | backend-node/routes/api.js:119-122 | `sent` sets the vehicle and driver `on_trip` and stamps startTime; nothing else changes |
| NodeApi.PatchDone | backend-node/routes/api.js:123-129 | `done` frees both, adds exactly 100 to the mileage, and stamps endTime |
| NodeApi.PatchOtherTouchesOnlyTrip | backend-node/routes/api.js:130-132 | any other status, `canceled` included, rewrites only the trip's status |
| NodeApi.PatchSentIsNotAtomic | backend-node/routes/api.js:120-122 | a missing driver gives 500 after the vehicle was already set `on_trip` |
| NodeApi.PostMaintenanceStep | backend-node/routes/api.js:144-164 | the log is always added; the vehicle goes `in_shop` and an alert then dashboardUpdate follow iff the vehicle exists, else 500 |
| NodeApi.MaintenanceLocksVehicle | backend-node/routes/api.js:148-158 | the vehicle goes `in_shop` from any status, leaves a dispatcher's list, and a trip on it is refused as not available |
| NodeApi.Database.UpdateVehicleRow | backend-node/routes/api.js:124-127 | the awaited vehicle update on the client equals UpdateVehicle |
| NodeApi.Database.UpdateDriverRow | backend-node/routes/api.js:128 | the awaited driver update on the client equals UpdateDriver |
| NodeApi.ApplyCoupled | backend-node/routes/api.js:119-129 | the awaited vehicle, driver and trip updates on the client equal CoupledUpdate, including a failure part-way |
| NodeApi.PostTrip | backend-node/routes/api.js:76-110 | the handler on the client equals PostTripStep |
| NodeApi.PatchTripStatus | backend-node/routes/api.js:112-139 | the handler on the client equals PatchTripStatusStep |
| NodeApi.PostMaintenance | backend-node/routes/api.js:144-164 | the handler on the client equals PostMaintenanceStep |

## Left out

- `require_roles` and the Node `auth([...])` middleware are not modelled, because every handler is taken as called by an allowed role. The role matters only in listing, where it is a parameter.
- `get_current_user` is not modelled. update_me and change_password receive the current user's row position. The `/users/me` aliases call the same functions.
- get_me and the GET endpoints for trips, maintenance, Node drivers and Node trips are not modelled, because each only returns a table.
- Node POST /vehicles and POST /drivers are not modelled, because they insert the request body directly.
- Uuid generation is a parameter (`newId`), so a collision between ids is not modelled.
- `created_at` and the `order_by(created_at)` of the listings are not modelled, because clock values are outside the model.
- The applied patch is not re-checked against the schemas' field types and ranges. Unset fields are modelled, but an explicit `null` is modelled only for `avatar_url`.
- Alert and detail texts are structured values holding what they interpolate. The f-string rendering of floats and dates is not modelled. The maintenance reason is the exact 60-character prefix.
- JSON serialisation of payloads is not modelled, so a payload is a structured value.
- Socket I/O, `accept`, `await` interleaving and concurrency between requests are not modelled. Each handler is one sequential step.
- Trips.Lower: models `str.lower()` on A-Z only, not Unicode case mapping. Auth.Strip uses Python's full `isspace` set.
- Password hashing and verification, token signing and expiry are uninterpreted. A token is the claims it carries, and a token that fails to decode is `None`.
- The socket.io and FastAPI bootstrap (backend/main.py, backend-node/server.js) is not part of this model.
- The fuel-log table is not modelled. Whether a fuel log refers to a trip is a parameter of `Trips.DeleteTripStep` (`fuelLogged`).
- Weights, capacities, mileage, costs and safety scores are Dafny `real`, where the source has Python floats and JavaScript numbers. Comparisons such as `cargo_weight > max_weight` are the same either way, but the `done` mileage update is exact here, and its float rounding is not modelled.
- The fuel router and the reports other than get_alerts are float arithmetic and CSV/PDF output, and are not part of this model.
- The ConnectionManager wrappers `dashboard_update`, `vehicle_updated` and `trip_updated` are not modelled separately. The routers' broadcasts are recorded as `Publish` events with the same event names.
- NodeApi.PostMaintenanceStep: assumes the log insert succeeds even for an unknown vehicle. The Prisma schema, and with it any foreign-key check, is not part of this model.
- NodeApi.Trip: the columns the create leaves to the schema's defaults are `None`, because the defaults live in the Prisma schema.
