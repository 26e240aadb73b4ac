/** The dashboard counters (`build_stats`, written out identically in the trips,
    vehicles and drivers routers) and the facts about `.count()` they rest on. */
module Stats {
  import opened Models

  predicate IsActive(v: Vehicle) { v.status == Available || v.status == OnTrip }
  predicate IsShopped(v: Vehicle) { v.status == InShop }
  predicate IsIdle(v: Vehicle) { v.status == Available }
  predicate IsPending(t: Trip) { t.status == Draft }
  predicate IsSuspended(d: Driver) { d.dutyStatus == Suspended }

  /** The dashboard counters. The status filters are nested (idle vehicles are active)
      and disjoint (an active vehicle is not in the shop), so the counters are bounded
      by each other and by the table sizes. */
  function BuildStats(f: Fleet): (r: Stats)
    ensures r.idleVehicles <= r.activeVehicles
    ensures r.activeVehicles + r.maintenanceAlerts <= |f.vehicles|
    ensures r.suspendedDrivers <= r.totalDrivers == |f.drivers|
    ensures r.pendingShipments <= |f.trips|
  {
    CountMono(f.vehicles, IsIdle, IsActive);
    CountDisjoint(f.vehicles, IsActive, IsShopped, (v: Vehicle) => IsActive(v) || IsShopped(v));
    Stats(activeVehicles := Count(f.vehicles, IsActive),
          maintenanceAlerts := Count(f.vehicles, IsShopped),
          idleVehicles := Count(f.vehicles, IsIdle),
          pendingShipments := Count(f.trips, IsPending),
          totalDrivers := |f.drivers|,
          suspendedDrivers := Count(f.drivers, IsSuspended))
  }

  /** A count under a weaker filter is at least the count under a stronger one. */
  lemma {:induction false} CountMono<T>(s: seq<T>, p: T -> bool, q: T -> bool)
    requires forall x :: p(x) ==> q(x)
    ensures Count(s, p) <= Count(s, q)
  {
    if |s| > 0 {
      CountMono(s[..|s| - 1], p, q);
    }
  }

  /** Counts under filters that never hold together add up to the count under either. */
  lemma {:induction false} CountDisjoint<T>(s: seq<T>, p: T -> bool, q: T -> bool, pq: T -> bool)
    requires forall x :: !(p(x) && q(x))
    requires forall x :: pq(x) == (p(x) || q(x))
    ensures Count(s, p) + Count(s, q) == Count(s, pq)
  {
    if |s| > 0 {
      CountDisjoint(s[..|s| - 1], p, q, pq);
    }
  }

  /** Adding one row (`db.add` then commit) adds one to every count whose filter it meets. */
  lemma CountAppend<T>(s: seq<T>, x: T, p: T -> bool)
    ensures Count(s + [x], p) == Count(s, p) + (if p(x) then 1 else 0)
  {
    assert (s + [x])[..|s|] == s;
  }

  /** Rewriting one row changes a count by at most the row itself. */
  lemma {:induction false} CountUpdate<T>(s: seq<T>, i: nat, x: T, p: T -> bool)
    requires i < |s|
    ensures Count(s[i := x], p) + (if p(s[i]) then 1 else 0) == Count(s, p) + (if p(x) then 1 else 0)
  {
    if i < |s| - 1 {
      assert s[i := x][..|s| - 1] == s[..|s| - 1][i := x];
      CountUpdate(s[..|s| - 1], i, x, p);
    } else {
      assert s[i := x][..|s| - 1] == s[..|s| - 1];
    }
  }

  /** Removing one row (`db.delete`) takes away exactly that row from every count. */
  lemma {:induction false} CountRemove<T>(s: seq<T>, i: nat, p: T -> bool)
    requires i < |s|
    ensures Count(RemoveAt(s, i), p) + (if p(s[i]) then 1 else 0) == Count(s, p)
  {
    if i < |s| - 1 {
      assert RemoveAt(s, i)[..|s| - 2] == RemoveAt(s[..|s| - 1], i);
      assert RemoveAt(s, i)[|s| - 2] == s[|s| - 1];
      CountRemove(s[..|s| - 1], i, p);
    } else {
      assert RemoveAt(s, i) == s[..|s| - 1];
    }
  }
}
