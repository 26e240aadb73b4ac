/** The licence-expiry rule that the drivers router (get_drivers) and the reports
    router (get_alerts) both apply: expired on or before today, expiring within
    the next 30 days, otherwise current. */
module Licenses {
  import opened Models

  /** `today + timedelta(days=30)`. */
  const WarningDays := 30

  datatype LicenseState = Current | ExpiresSoon | Expired

  function Classify(expiry: Day, today: Day): (st: LicenseState)
    ensures st == Expired <==> expiry <= today
    ensures st == ExpiresSoon <==> today < expiry <= today + WarningDays
    ensures st == Current <==> today + WarningDays < expiry
  {
    if expiry <= today then Expired
    else if expiry <= today + WarningDays then ExpiresSoon
    else Current
  }

  /** The `type` of the alert for each state; a current licence draws none. */
  function KindOf(st: LicenseState): AlertKind
    requires st != Current
  {
    if st == Expired then LicenseExpired else LicenseExpiring
  }

  function SeverityOf(st: LicenseState): Severity
    requires st != Current
  {
    if st == Expired then Critical else Warning
  }

  /** Whether a driver draws a licence alert at all. */
  predicate Alerted(d: Driver, today: Day) {
    Classify(d.licenseExpiry, today) != Current
  }
}
