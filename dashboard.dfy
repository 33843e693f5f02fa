/**
 * The dashboard's zone logic: the split of the zones into danger and safe
 * lists, whether the user stands inside a danger zone, the status label, and
 * the target of the "safe route" action.
 */
module Dashboard {
  import opened Wrappers
  import opened Collections
  import opened Schema
  import Application

  predicate IsDangerZone(z: Zone) {
    z.kind == "danger"
  }

  predicate IsSafeZone(z: Zone) {
    z.kind == "safe"
  }

  /** `zones?.filter(zone => zone.type === 'danger') || []`. */
  function DangerZones(zones: Option<seq<Zone>>): (r: seq<Zone>)
    ensures forall z :: z in r <==> zones.Some? && z in zones.value && z.kind == "danger"
  {
    match zones
    case None => []
    case Some(zs) =>
      forall z ensures z in Filter(zs, IsDangerZone) <==> z in zs && IsDangerZone(z) {
        FilterMembership(zs, IsDangerZone, z);
      }
      Filter(zs, IsDangerZone)
  }

  /** `zones?.filter(zone => zone.type === 'safe') || []`. */
  function SafeZones(zones: Option<seq<Zone>>): (r: seq<Zone>)
    ensures forall z :: z in r <==> zones.Some? && z in zones.value && z.kind == "safe"
  {
    match zones
    case None => []
    case Some(zs) =>
      forall z ensures z in Filter(zs, IsSafeZone) <==> z in zs && IsSafeZone(z) {
        FilterMembership(zs, IsSafeZone, z);
      }
      Filter(zs, IsSafeZone)
  }

  /** Both lists keep the input order: they split over a concatenation of the input. */
  lemma SplitKeepsOrder(a: seq<Zone>, b: seq<Zone>)
    ensures DangerZones(Some(a + b)) == DangerZones(Some(a)) + DangerZones(Some(b))
    ensures SafeZones(Some(a + b)) == SafeZones(Some(a)) + SafeZones(Some(b))
  {
    FilterConcat(a, b, IsDangerZone);
    FilterConcat(a, b, IsSafeZone);
  }

  /** A zone of any other kind is in neither list, and no zone is in both. */
  lemma SplitDisjoint(zones: Option<seq<Zone>>, z: Zone)
    ensures z in DangerZones(zones) ==> z !in SafeZones(zones)
    ensures z.kind != "danger" && z.kind != "safe" ==> z !in DangerZones(zones) && z !in SafeZones(zones)
  {
  }

  /** Whether the user is within the zone's radius: the boundary counts as inside. */
  function Inside(user: Application.Position, z: Zone, dist: Distance): (b: bool)
    ensures dist(user.latitude, user.longitude, z.latitude, z.longitude) == z.radius ==> b
    ensures dist(user.latitude, user.longitude, z.latitude, z.longitude) < z.radius ==> b
    ensures dist(user.latitude, user.longitude, z.latitude, z.longitude) > z.radius ==> !b
  {
    dist(user.latitude, user.longitude, z.latitude, z.longitude) <= z.radius
  }

  /** `Array.prototype.some` with `Inside`. */
  function AnyInside(zs: seq<Zone>, user: Application.Position, dist: Distance): (r: bool)
    ensures r <==> exists i :: 0 <= i < |zs| && Inside(user, zs[i], dist)
  {
    if zs == [] then false
    else if Inside(user, zs[0], dist) then true
    else
      assert forall i :: 1 <= i < |zs| ==> zs[i] == zs[1..][i - 1];
      AnyInside(zs[1..], user, dist)
  }

  /** `isInDangerZone`: the user is in danger exactly when some danger zone of the input has the user within its radius. */
  function IsInDangerZone(user: Application.Position, zones: Option<seq<Zone>>, dist: Distance): (r: bool)
    ensures r <==> zones.Some? && exists z :: z in zones.value && z.kind == "danger" && Inside(user, z, dist)
  {
    var ds := DangerZones(zones);
    if AnyInside(ds, user, dist) then
      assert exists i :: 0 <= i < |ds| && Inside(user, ds[i], dist);
      var i :| 0 <= i < |ds| && Inside(user, ds[i], dist);
      assert ds[i] in ds;
      true
    else
      false
  }

  /** Removing a zone that is not a danger zone leaves the danger list as it was. */
  lemma {:induction false} DangerListSkips(a: seq<Zone>, z: Zone, b: seq<Zone>)
    requires z.kind != "danger"
    ensures Filter(a + [z] + b, IsDangerZone) == Filter(a + b, IsDangerZone)
  {
    assert Filter([z], IsDangerZone) == [] by {
      assert [z][..0] == [];
    }
    calc {
      Filter(a + [z] + b, IsDangerZone);
      { FilterConcat(a + [z], b, IsDangerZone); }
      Filter(a + [z], IsDangerZone) + Filter(b, IsDangerZone);
      { FilterConcat(a, [z], IsDangerZone); }
      Filter(a, IsDangerZone) + Filter([z], IsDangerZone) + Filter(b, IsDangerZone);
      Filter(a, IsDangerZone) + Filter(b, IsDangerZone);
      { FilterConcat(a, b, IsDangerZone); }
      Filter(a + b, IsDangerZone);
    }
  }

  /** Safe zones, and zones of any other kind, never change the verdict. */
  lemma OnlyDangerZonesMatter(user: Application.Position, a: seq<Zone>, z: Zone, b: seq<Zone>, dist: Distance)
    requires z.kind != "danger"
    ensures IsInDangerZone(user, Some(a + [z] + b), dist) == IsInDangerZone(user, Some(a + b), dist)
  {
    DangerListSkips(a, z, b);
  }

  datatype Status = Danger | Safe

  /** `currentStatus`: DANGER exactly when a danger zone contains the user, SAFE exactly when none does. */
  function CurrentStatus(user: Application.Position, zones: Option<seq<Zone>>, dist: Distance): (s: Status)
    ensures s == Danger <==>
              zones.Some? && exists z :: z in zones.value && z.kind == "danger" && Inside(user, z, dist)
    ensures s == Safe <==>
              zones.None? || forall z :: z in zones.value && z.kind == "danger" ==> !Inside(user, z, dist)
  {
    if IsInDangerZone(user, zones, dist) then Danger else Safe
  }

  /** The page renders the dashboard without zones, so its label is always SAFE. */
  lemma StatusWithoutZones(user: Application.Position, dist: Distance)
    ensures DangerZones(None) == [] && SafeZones(None) == []
    ensures CurrentStatus(user, None, dist) == Safe
  {
  }

  /** What the "safe route" button does. */
  datatype RouteAction = OpenDirections(latitude: real, longitude: real) | NoSafeZoneNotice

  /** `handleFindSafeRoute`: directions to the first safe zone of the list, not the nearest. */
  function FindSafeRoute(zones: Option<seq<Zone>>): (r: RouteAction)
    ensures r.NoSafeZoneNotice? <==> zones.None? || forall z :: z in zones.value ==> z.kind != "safe"
    ensures r.OpenDirections? ==>
              exists i :: 0 <= i < |zones.value| && zones.value[i].kind == "safe" &&
                          r == OpenDirections(zones.value[i].latitude, zones.value[i].longitude) &&
                          forall j :: 0 <= j < i ==> zones.value[j].kind != "safe"
  {
    var safe := SafeZones(zones);
    if |safe| > 0 then
      assert zones.Some?;
      FilterFirst(zones.value, IsSafeZone);
      OpenDirections(safe[0].latitude, safe[0].longitude)
    else NoSafeZoneNotice
  }
}
