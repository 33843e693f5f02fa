/**
 * The two record kinds of the zone service: zones and saved user locations,
 * with the shapes used to insert and to update them.
 */
module Schema {
  import opened Wrappers

  /** A `Date`, as milliseconds since the epoch. */
  type Time = int

  /**
   * The great-circle distance in metres between two latitude/longitude pairs.
   * The haversine formula is floating-point trigonometry and stays abstract:
   * every operation that needs a distance takes one of these as a parameter.
   */
  type Distance = (real, real, real, real) -> real

  /**
   * A stored zone. `kind` is the `type` column: "danger" or "safe" by
   * convention, but any text is accepted. Nullable columns are `Option`s.
   */
  datatype Zone = Zone(
    id: int,
    name: string,
    kind: string,
    latitude: real,
    longitude: real,
    radius: real,
    description: Option<string>,
    severity: Option<string>,
    capacity: Option<real>,
    isActive: Option<bool>,
    lastUpdated: Time)

  /** The insert shape of a zone: a zone without `id` and `lastUpdated`. */
  datatype NewZone = NewZone(
    name: string,
    kind: string,
    latitude: real,
    longitude: real,
    radius: real,
    description: Option<string>,
    severity: Option<string>,
    capacity: Option<real>,
    isActive: Option<bool>)

  /**
   * A partial insert shape: `None` is a field the update leaves out; for a
   * nullable column `Some(None)` sets it to null.
   */
  datatype ZonePatch = ZonePatch(
    name: Option<string>,
    kind: Option<string>,
    latitude: Option<real>,
    longitude: Option<real>,
    radius: Option<real>,
    description: Option<Option<string>>,
    severity: Option<Option<string>>,
    capacity: Option<Option<real>>,
    isActive: Option<Option<bool>>)

  /** A saved location of one browser session. */
  datatype UserLocation = UserLocation(
    id: int,
    sessionId: string,
    latitude: real,
    longitude: real,
    networkType: Option<string>,
    networkSpeed: Option<real>,
    timestamp: Time)

  /** The insert shape of a user location: without `id` and `timestamp`. */
  datatype NewUserLocation = NewUserLocation(
    sessionId: string,
    latitude: real,
    longitude: real,
    networkType: Option<string>,
    networkSpeed: Option<real>)

  /** A zone is listed only when its (nullable) active flag is truthy: null, undefined and false are not. */
  function IsActive(z: Zone): (b: bool)
    ensures b <==> z.isActive.Some? && z.isActive.value
  {
    z.isActive == Some(true)
  }

  /** `{...insert, id, lastUpdated}`: every inserted field is kept. */
  function FromNewZone(n: NewZone, id: int, now: Time): (z: Zone)
    ensures z.id == id && z.lastUpdated == now
    ensures ToNewZone(z) == n
  {
    Zone(id, n.name, n.kind, n.latitude, n.longitude, n.radius,
         n.description, n.severity, n.capacity, n.isActive, now)
  }

  /** The inserted part of a zone. */
  function ToNewZone(z: Zone): NewZone {
    NewZone(z.name, z.kind, z.latitude, z.longitude, z.radius,
            z.description, z.severity, z.capacity, z.isActive)
  }

  /** `{...zone, ...patch, lastUpdated}`: a supplied field wins, an omitted one is kept. */
  function ApplyPatch(z: Zone, p: ZonePatch, now: Time): (r: Zone)
    ensures r.id == z.id && r.lastUpdated == now
  {
    Zone(z.id,
         if p.name.Some? then p.name.value else z.name,
         if p.kind.Some? then p.kind.value else z.kind,
         if p.latitude.Some? then p.latitude.value else z.latitude,
         if p.longitude.Some? then p.longitude.value else z.longitude,
         if p.radius.Some? then p.radius.value else z.radius,
         if p.description.Some? then p.description.value else z.description,
         if p.severity.Some? then p.severity.value else z.severity,
         if p.capacity.Some? then p.capacity.value else z.capacity,
         if p.isActive.Some? then p.isActive.value else z.isActive,
         now)
  }

  /** The patch that supplies no field. */
  const EmptyPatch := ZonePatch(None, None, None, None, None, None, None, None, None)

  /** An update that supplies nothing only refreshes the timestamp. */
  lemma EmptyPatchKeepsZone(z: Zone, now: Time)
    ensures ApplyPatch(z, EmptyPatch, now) == z.(lastUpdated := now)
  {
  }

  /** Applying the patch twice is the same as applying it once. */
  lemma ApplyPatchIdempotent(z: Zone, p: ZonePatch, now: Time)
    ensures ApplyPatch(ApplyPatch(z, p, now), p, now) == ApplyPatch(z, p, now)
  {
  }

  /** A patch that supplies every field determines the whole zone but its id. */
  lemma FullPatchOverwrites(z: Zone, n: NewZone, now: Time)
    ensures ApplyPatch(z, ZonePatch(Some(n.name), Some(n.kind), Some(n.latitude),
                                    Some(n.longitude), Some(n.radius), Some(n.description),
                                    Some(n.severity), Some(n.capacity), Some(n.isActive)), now)
            == FromNewZone(n, z.id, now)
  {
  }

  /** `{...location, id, timestamp}`. */
  function FromNewUserLocation(n: NewUserLocation, id: int, now: Time): (u: UserLocation)
    ensures u.id == id && u.timestamp == now && u.sessionId == n.sessionId
    ensures u.latitude == n.latitude && u.longitude == n.longitude
    ensures u.networkType == n.networkType && u.networkSpeed == n.networkSpeed
  {
    UserLocation(id, n.sessionId, n.latitude, n.longitude, n.networkType, n.networkSpeed, now)
  }
}
