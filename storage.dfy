/**
 * The in-memory record store behind the REST API: a zone table keyed by a
 * numeric id, kept in insertion order like a JavaScript `Map`, and a table of
 * user locations keyed by session id, with one id counter for each table.
 */
module Storage {
  import opened Wrappers
  import opened Collections
  import opened Schema

  /** The `i`-th of the six zones every new store is seeded with: three danger zones, then three safe zones. */
  function SampleZone(i: int): (n: NewZone)
    requires 0 <= i < 6
    ensures n.isActive == Some(true)
    ensures i < 3 ==> n.kind == "danger" && n.severity.Some? && n.capacity.None?
    ensures 3 <= i ==> n.kind == "safe" && n.severity.None? && n.capacity.Some?
  {
    match i
    case 0 => NewZone("Flood Zone - Mission District", "danger", 37.7599, -122.4148, 1000.0,
                      Some("Heavy rainfall causing street flooding"), Some("high"), None, Some(true))
    case 1 => NewZone("Landslide Risk - Twin Peaks", "danger", 37.7544, -122.4477, 800.0,
                      Some("Unstable slope due to recent rainfall"), Some("medium"), None, Some(true))
    case 2 => NewZone("Earthquake Risk Zone - Financial District", "danger", 37.7946, -122.4045, 1200.0,
                      Some("Building damage from recent seismic activity"), Some("high"), None, Some(true))
    case 3 => NewZone("Community Center - SOMA", "safe", 37.7849, -122.4094, 200.0,
                      Some("Emergency shelter with supplies"), None, Some(200.0), Some(true))
    case 4 => NewZone("Golden Gate Park", "safe", 37.7694, -122.4862, 500.0,
                      Some("Large open space, safe from flooding"), None, Some(1000.0), Some(true))
    case 5 => NewZone("Marina Green", "safe", 37.8053, -122.4423, 300.0,
                      Some("Open area evacuation point"), None, Some(500.0), Some(true))
  }

  /** `[...dangerZones, ...safeZones]`: the six sample zones in seeding order. */
  function SampleZones(): (r: seq<NewZone>)
    ensures |r| == 6
    ensures forall i :: 0 <= i < 3 ==> r[i].kind == "danger"
    ensures forall i :: 3 <= i < 6 ==> r[i].kind == "safe"
  {
    seq(6, i requires 0 <= i < 6 => SampleZone(i))
  }

  /**
   * The zones `ns` become when inserted one after another from id `firstId`,
   * the `i`-th stamped with the clock reading `stamps[i]` taken as it is inserted.
   */
  function Seeded(ns: seq<NewZone>, firstId: int, stamps: seq<Time>): (r: seq<Zone>)
    requires |stamps| == |ns|
    ensures |r| == |ns|
  {
    if ns == [] then []
    else
      var k := |ns| - 1;
      Seeded(ns[..k], firstId, stamps[..k]) + [FromNewZone(ns[k], firstId + k, stamps[k])]
  }

  /** Every key of `ks` is a key of `m`. */
  ghost predicate KeysIn(ks: seq<int>, m: map<int, Zone>) {
    forall i :: 0 <= i < |ks| ==> ks[i] in m
  }

  /** The `i`-th seeded zone is the `i`-th inserted one under id `firstId + i`, with the `i`-th clock reading. */
  lemma {:induction false} SeededAt(ns: seq<NewZone>, firstId: int, stamps: seq<Time>)
    requires |stamps| == |ns|
    ensures forall i :: 0 <= i < |ns| ==> Seeded(ns, firstId, stamps)[i] == FromNewZone(ns[i], firstId + i, stamps[i])
  {
    if ns != [] {
      var k := |ns| - 1;
      SeededAt(ns[..k], firstId, stamps[..k]);
    }
  }

  /** The seeded table: six active zones with ids 1 to 6, the three danger zones first. */
  lemma SampleSeedShape(stamps: seq<Time>)
    requires |stamps| == 6
    ensures |Seeded(SampleZones(), 1, stamps)| == 6
    ensures forall i :: 0 <= i < 6 ==>
              var z := Seeded(SampleZones(), 1, stamps)[i];
              z.id == i + 1 && IsActive(z) && z.lastUpdated == stamps[i]
    ensures forall i :: 0 <= i < 3 ==> Seeded(SampleZones(), 1, stamps)[i].kind == "danger"
    ensures forall i :: 3 <= i < 6 ==> Seeded(SampleZones(), 1, stamps)[i].kind == "safe"
  {
    SeededAt(SampleZones(), 1, stamps);
  }

  /** Seeding one more zone appends it, under the next id. */
  lemma SeededStep(ns: seq<NewZone>, i: nat, firstId: int, stamps: seq<Time>)
    requires i < |ns| && |stamps| == |ns|
    ensures Seeded(ns[..i + 1], firstId, stamps[..i + 1]) ==
            Seeded(ns[..i], firstId, stamps[..i]) + [FromNewZone(ns[i], firstId + i, stamps[i])]
  {
    assert ns[..i + 1][..i] == ns[..i];
    assert stamps[..i + 1][..i] == stamps[..i];
  }

  /** The entries of `m` listed in the key order `ks`. */
  function ValuesOf(m: map<int, Zone>, ks: seq<int>): (r: seq<Zone>)
    requires KeysIn(ks, m)
    ensures |r| == |ks|
    ensures forall i :: 0 <= i < |ks| ==> r[i] == m[ks[i]]
  {
    if ks == [] then [] else ValuesOf(m, ks[..|ks| - 1]) + [m[ks[|ks| - 1]]]
  }

  /**
   * The zone table: `order` lists every key of `zones` once, each zone is
   * stored under its own id, and every id is positive and below the counter.
   */
  ghost predicate ZoneTable(zones: map<int, Zone>, order: seq<int>, next: int) {
    && 1 <= next
    && Distinct(order)
    && KeysIn(order, zones)
    && (forall k :: k in zones ==> k in order)
    && (forall k :: k in zones ==> zones[k].id == k && 1 <= k < next)
  }

  /** Listing a zone table in its order lists exactly the zones stored under their ids. */
  lemma ValuesOfMembership(zones: map<int, Zone>, order: seq<int>, next: int, z: Zone)
    requires ZoneTable(zones, order, next)
    ensures z in ValuesOf(zones, order) <==> z.id in zones && zones[z.id] == z
  {
    var vs := ValuesOf(zones, order);
    if z in vs {
      var i :| 0 <= i < |vs| && vs[i] == z;
      assert order[i] in zones && zones[order[i]].id == order[i];
    }
    if z.id in zones && zones[z.id] == z {
      assert z.id in order;
      var i :| 0 <= i < |order| && order[i] == z.id;
      assert vs[i] == z;
    }
  }

  /** A zone is among the active listed zones exactly when it is stored under its id and active. */
  lemma ActiveMembership(zones: map<int, Zone>, order: seq<int>, next: int, z: Zone)
    requires ZoneTable(zones, order, next)
    ensures z in Filter(ValuesOf(zones, order), IsActive) <==> z.id in zones && zones[z.id] == z && IsActive(z)
  {
    FilterMembership(ValuesOf(zones, order), IsActive, z);
    ValuesOfMembership(zones, order, next, z);
  }

  /** Inserting a zone under the counter keeps the table valid and appends the zone to the listing. */
  lemma ZoneTableInsert(zones: map<int, Zone>, order: seq<int>, next: int, z: Zone)
    requires ZoneTable(zones, order, next)
    requires z.id == next
    ensures next !in zones
    ensures ZoneTable(zones[next := z], order + [next], next + 1)
    ensures ValuesOf(zones[next := z], order + [next]) == ValuesOf(zones, order) + [z]
  {
    var zones', order' := zones[next := z], order + [next];
    forall i | 0 <= i < |order| ensures order[i] != next {
      assert order[i] in zones;
    }
    assert Distinct(order');
    assert KeysIn(order', zones');
    var vs, vs' := ValuesOf(zones, order), ValuesOf(zones', order');
    assert |vs'| == |vs| + 1;
    forall i | 0 <= i < |vs'| ensures vs'[i] == (vs + [z])[i] {
      if i < |vs| {
        assert order'[i] == order[i] != next;
      }
    }
  }

  /** Whether a zone's id differs from `id`. */
  function IdIsNot(id: int): Zone -> bool {
    (z: Zone) => z.id != id
  }

  /** Whether a key differs from `id`. */
  function KeyIsNot(id: int): int -> bool {
    (k: int) => k != id
  }

  /** Listing one more key appends its entry. */
  lemma ValuesOfSnoc(m: map<int, Zone>, ks: seq<int>, k: int)
    requires KeysIn(ks, m) && k in m
    ensures KeysIn(ks + [k], m)
    ensures ValuesOf(m, ks + [k]) == ValuesOf(m, ks) + [m[k]]
  {
    assert (ks + [k])[..|ks|] == ks;
  }

  /** The keys that survive a delete are keys of the map without it. */
  lemma FilterKeysIn(m: map<int, Zone>, ks: seq<int>, id: int)
    requires KeysIn(ks, m)
    ensures KeysIn(Filter(ks, KeyIsNot(id)), m - {id})
  {
    var f := Filter(ks, KeyIsNot(id));
    forall i | 0 <= i < |f| ensures f[i] in m - {id} {
      FilterMembership(ks, KeyIsNot(id), f[i]);
    }
  }

  /** A prefix of listed keys is listed. */
  lemma KeysInPrefix(ks: seq<int>, m: map<int, Zone>, n: nat)
    requires KeysIn(ks, m) && n <= |ks|
    ensures KeysIn(ks[..n], m)
  {
  }

  /** Deleting a key from the map and from the key order deletes that entry from the listing and keeps the rest in order. */
  lemma {:induction false} ValuesOfDelete(m: map<int, Zone>, ks: seq<int>, id: int)
    requires KeysIn(ks, m)
    requires forall k :: k in m ==> m[k].id == k
    ensures KeysIn(Filter(ks, KeyIsNot(id)), m - {id})
    ensures ValuesOf(m - {id}, Filter(ks, KeyIsNot(id))) == Filter(ValuesOf(m, ks), IdIsNot(id))
  {
    FilterKeysIn(m, ks, id);
    if ks != [] {
      var init, last := ks[..|ks| - 1], ks[|ks| - 1];
      assert ks == init + [last];
      KeysInPrefix(ks, m, |ks| - 1);
      ValuesOfDelete(m, init, id);
      ValuesOfSnoc(m, init, last);
      FilterSnoc(init, last, KeyIsNot(id));
      FilterSnoc(ValuesOf(m, init), m[last], IdIsNot(id));
      assert m[last].id == last;
      if last != id {
        ValuesOfSnoc(m - {id}, Filter(init, KeyIsNot(id)), last);
      }
    }
  }

  /** Deleting an id keeps the table valid and removes just that zone from the listing. */
  lemma ZoneTableDelete(zones: map<int, Zone>, order: seq<int>, next: int, id: int)
    requires ZoneTable(zones, order, next)
    ensures ZoneTable(zones - {id}, Filter(order, KeyIsNot(id)), next)
    ensures ValuesOf(zones - {id}, Filter(order, KeyIsNot(id))) == Filter(ValuesOf(zones, order), IdIsNot(id))
  {
    ValuesOfDelete(zones, order, id);
    FilterDistinct(order, KeyIsNot(id));
    forall k | k in zones - {id} ensures k in Filter(order, KeyIsNot(id)) {
      FilterMembership(order, KeyIsNot(id), k);
    }
  }

  /** Overwriting a present zone with one of the same id keeps the table valid. */
  lemma ZoneTableOverwrite(zones: map<int, Zone>, order: seq<int>, next: int, z: Zone)
    requires ZoneTable(zones, order, next)
    requires z.id in zones
    ensures ZoneTable(zones[z.id := z], order, next)
  {
  }

  /** The newest record saved for session `s` in the save history `h`, or undefined. */
  function LastSaved(h: seq<UserLocation>, s: string): (r: Option<UserLocation>)
    ensures r.Some? ==> r.value in h && r.value.sessionId == s
  {
    if h == [] then None
    else if h[|h| - 1].sessionId == s then Some(h[|h| - 1])
    else LastSaved(h[..|h| - 1], s)
  }

  /** `LastSaved` finds a record exactly when one was saved for the session, and no later record is for it. */
  lemma {:induction false} LastSavedIsNewest(h: seq<UserLocation>, s: string)
    ensures LastSaved(h, s).None? <==> forall i :: 0 <= i < |h| ==> h[i].sessionId != s
    ensures LastSaved(h, s).Some? ==>
              exists i :: 0 <= i < |h| && h[i] == LastSaved(h, s).value &&
                          forall j :: i < j < |h| ==> h[j].sessionId != s
  {
    if h != [] && h[|h| - 1].sessionId != s {
      var init := h[..|h| - 1];
      LastSavedIsNewest(init, s);
      if LastSaved(init, s).Some? {
        var i :| 0 <= i < |init| && init[i] == LastSaved(init, s).value &&
                 forall j :: i < j < |init| ==> init[j].sessionId != s;
        assert h[i] == init[i];
        assert forall j :: i < j < |h| ==> h[j].sessionId != s by {
          forall j | i < j < |h| ensures h[j].sessionId != s {
            if j < |init| { assert h[j] == init[j]; }
          }
        }
      } else {
        forall i | 0 <= i < |h| ensures h[i].sessionId != s {
          if i < |init| { assert h[i] == init[i]; }
        }
      }
    }
  }

  /**
   * The location table: each session maps to the newest record saved for it,
   * and saved ids increase strictly over time and stay below the counter.
   */
  ghost predicate LocationTable(locs: map<string, UserLocation>, saves: seq<UserLocation>, next: int) {
    && 1 <= next
    && (forall i, j :: 0 <= i < j < |saves| ==> saves[i].id < saves[j].id)
    && (forall i :: 0 <= i < |saves| ==> 1 <= saves[i].id < next)
    && (forall s :: Get(locs, s) == LastSaved(saves, s))
  }

  /** Saving a record under the counter keeps the location table valid; the new id exceeds every stored one. */
  lemma LocationTableSave(locs: map<string, UserLocation>, saves: seq<UserLocation>, next: int, u: UserLocation)
    requires LocationTable(locs, saves, next)
    requires u.id == next
    ensures forall s :: s in locs ==> locs[s].id < next
    ensures LocationTable(locs[u.sessionId := u], saves + [u], next + 1)
  {
    forall s | s in locs ensures locs[s].id < next {
      assert Get(locs, s) == LastSaved(saves, s);
    }
    var saves' := saves + [u];
    forall s ensures Get(locs[u.sessionId := u], s) == LastSaved(saves', s) {
      assert saves'[..|saves'| - 1] == saves;
      assert Get(locs, s) == LastSaved(saves, s);
    }
  }

  class MemStorage {
    var zones: map<int, Zone>
    /** The zone ids in insertion order: the iteration order of the `Map`. */
    var order: seq<int>
    var userLocations: map<string, UserLocation>
    var currentZoneId: int
    var currentLocationId: int
    /** Every user location ever saved, oldest first. */
    ghost var saves: seq<UserLocation>

    ghost predicate Valid()
      reads this
    {
      && ZoneTable(zones, order, currentZoneId)
      && LocationTable(userLocations, saves, currentLocationId)
    }

    /** The stored zones in insertion order. */
    ghost function Values(): (r: seq<Zone>)
      reads this
      requires Valid()
    {
      ValuesOf(zones, order)
    }

    /** A store seeded with the six sample zones, ids 1 to 6, and no user locations. */
    constructor (stamps: seq<Time>)
      requires |stamps| == 6
      ensures Valid()
      ensures Values() == Seeded(SampleZones(), 1, stamps)
      ensures currentZoneId == 7
      ensures userLocations == map[] && currentLocationId == 1 && saves == []
    {
      zones := map[];
      order := [];
      userLocations := map[];
      currentZoneId := 1;
      currentLocationId := 1;
      saves := [];
      new;
      InitializeSampleZones(stamps);
    }

    /** Seeds the store with the sample zones, reading the clock once per zone. */
    method InitializeSampleZones(stamps: seq<Time>)
      requires Valid()
      requires |stamps| == 6
      modifies this
      ensures Valid()
      ensures Values() == old(Values()) + Seeded(SampleZones(), old(currentZoneId), stamps)
      ensures currentZoneId == old(currentZoneId) + 6
      ensures userLocations == old(userLocations) && currentLocationId == old(currentLocationId)
      ensures saves == old(saves)
    {
      AddZones(SampleZones(), stamps);
    }

    /** The `forEach` of the seeding: inserts the zones one by one, each under the next zone id and stamped with its own clock reading. */
    method AddZones(seed: seq<NewZone>, stamps: seq<Time>)
      requires Valid()
      requires |stamps| == |seed|
      modifies this
      ensures Valid()
      ensures Values() == old(Values()) + Seeded(seed, old(currentZoneId), stamps)
      ensures currentZoneId == old(currentZoneId) + |seed|
      ensures userLocations == old(userLocations) && currentLocationId == old(currentLocationId)
      ensures saves == old(saves)
    {
      ghost var start, firstId := ValuesOf(zones, order), currentZoneId;
      for i := 0 to |seed|
        invariant Valid()
        invariant currentZoneId == firstId + i
        invariant ValuesOf(zones, order) == start + Seeded(seed[..i], firstId, stamps[..i])
        invariant userLocations == old(userLocations) && currentLocationId == old(currentLocationId)
        invariant saves == old(saves)
      {
        SeededStep(seed, i, firstId, stamps);
        var z := FromNewZone(seed[i], currentZoneId, stamps[i]);
        ghost var done := Seeded(seed[..i], firstId, stamps[..i]);
        Insert(z);
        assert (start + done) + [z] == start + (done + [z]);
      }
      assert seed[..|seed|] == seed && stamps[..|stamps|] == stamps;
    }

    /** `getAllZones`: the active zones, in insertion order. */
    method GetAllZones() returns (r: seq<Zone>)
      requires Valid()
      ensures r == Filter(Values(), IsActive)
      ensures forall z :: z in r <==> z.id in zones && zones[z.id] == z && IsActive(z)
    {
      r := [];
      for i := 0 to |order|
        invariant r == Filter(ValuesOf(zones, order[..i]), IsActive)
      {
        var z := zones[order[i]];
        if z.isActive == Some(true) {
          r := r + [z];
        }
        assert order[..i + 1][..i] == order[..i];
      }
      assert order[..|order|] == order;
      forall z ensures z in r <==> z.id in zones && zones[z.id] == z && IsActive(z) {
        ActiveMembership(zones, order, currentZoneId, z);
      }
    }

    /** `getZonesByLocation`: the active zones no farther than `radius` from the point, in insertion order. */
    method GetZonesByLocation(dist: Distance, latitude: real, longitude: real, radius: real)
      returns (r: seq<Zone>)
      requires Valid()
      ensures r == Filter(Filter(Values(), IsActive), Within(dist, latitude, longitude, radius))
      ensures forall z :: z in r <==>
                z.id in zones && zones[z.id] == z && IsActive(z) &&
                dist(latitude, longitude, z.latitude, z.longitude) <= radius
    {
      var active := GetAllZones();
      r := [];
      for i := 0 to |active|
        invariant r == Filter(active[..i], Within(dist, latitude, longitude, radius))
      {
        var z := active[i];
        if dist(latitude, longitude, z.latitude, z.longitude) <= radius {
          r := r + [z];
        }
        assert active[..i + 1][..i] == active[..i];
      }
      assert active[..|active|] == active;
      forall z ensures z in r <==> z in active && Within(dist, latitude, longitude, radius)(z) {
        FilterMembership(active, Within(dist, latitude, longitude, radius), z);
      }
    }

    /** `createZone`: stores the zone under the next id, which is larger than every id in use. */
    method CreateZone(n: NewZone, now: Time) returns (z: Zone)
      requires Valid()
      modifies this
      ensures Valid()
      ensures z == FromNewZone(n, old(currentZoneId), now)
      ensures currentZoneId == old(currentZoneId) + 1
      ensures forall k :: k in old(zones) ==> k < z.id
      ensures zones == old(zones)[z.id := z]
      ensures Values() == old(Values()) + [z]
      ensures userLocations == old(userLocations) && currentLocationId == old(currentLocationId)
      ensures saves == old(saves)
    {
      z := FromNewZone(n, currentZoneId, now);
      Insert(z);
    }

    /** `zones.set(zone.id, zone)` for a zone carrying the next id, followed by the increment of the counter. */
    method Insert(z: Zone)
      requires Valid()
      requires z.id == currentZoneId
      modifies this
      ensures Valid()
      ensures currentZoneId == old(currentZoneId) + 1
      ensures z.id !in old(zones)
      ensures zones == old(zones)[z.id := z]
      ensures ValuesOf(zones, order) == old(ValuesOf(zones, order)) + [z]
      ensures userLocations == old(userLocations) && currentLocationId == old(currentLocationId)
      ensures saves == old(saves)
    {
      ZoneTableInsert(zones, order, currentZoneId, z);
      zones := zones[z.id := z];
      order := order + [z.id];
      currentZoneId := currentZoneId + 1;
    }

    /** `updateZone`: undefined for an unknown id; otherwise the supplied fields overwrite that zone alone. */
    method UpdateZone(id: int, patch: ZonePatch, now: Time) returns (r: Option<Zone>)
      requires Valid()
      modifies this
      ensures Valid()
      ensures id !in old(zones) ==> r == None && zones == old(zones)
      ensures id in old(zones) ==>
                r == Some(ApplyPatch(old(zones)[id], patch, now)) && zones == old(zones)[id := r.value]
      ensures r.Some? ==> r.value.id == id
      ensures forall k :: k in zones && k != id ==> zones[k] == old(zones)[k]
      ensures order == old(order) && currentZoneId == old(currentZoneId)
      ensures userLocations == old(userLocations) && currentLocationId == old(currentLocationId)
      ensures saves == old(saves)
    {
      if id !in zones {
        return None;
      }
      var updated := ApplyPatch(zones[id], patch, now);
      ZoneTableOverwrite(zones, order, currentZoneId, updated);
      zones := zones[id := updated];
      r := Some(updated);
    }

    /** `deleteZone`: true exactly when the id was present; the other zones stay, in order. */
    method DeleteZone(id: int) returns (deleted: bool)
      requires Valid()
      modifies this
      ensures Valid()
      ensures deleted == (id in old(zones))
      ensures zones == old(zones) - {id}
      ensures Values() == Filter(old(Values()), IdIsNot(id))
      ensures currentZoneId == old(currentZoneId)
      ensures userLocations == old(userLocations) && currentLocationId == old(currentLocationId)
      ensures saves == old(saves)
    {
      deleted := id in zones;
      ZoneTableDelete(zones, order, currentZoneId, id);
      zones := zones - {id};
      order := Filter(order, KeyIsNot(id));
    }

    /** `saveUserLocation`: the record replaces any earlier one of its session and takes the next location id. */
    method SaveUserLocation(n: NewUserLocation, now: Time) returns (u: UserLocation)
      requires Valid()
      modifies this
      ensures Valid()
      ensures u == FromNewUserLocation(n, old(currentLocationId), now)
      ensures currentLocationId == old(currentLocationId) + 1
      ensures userLocations == old(userLocations)[n.sessionId := u]
      ensures forall s :: s in old(userLocations) ==> old(userLocations)[s].id < u.id
      ensures saves == old(saves) + [u]
      ensures zones == old(zones) && order == old(order) && currentZoneId == old(currentZoneId)
    {
      u := FromNewUserLocation(n, currentLocationId, now);
      LocationTableSave(userLocations, saves, currentLocationId, u);
      currentLocationId := currentLocationId + 1;
      userLocations := userLocations[n.sessionId := u];
      saves := saves + [u];
    }

    /** `getUserLocation`: the newest record saved for the session, or undefined if it never saved one. */
    method GetUserLocation(sessionId: string) returns (r: Option<UserLocation>)
      requires Valid()
      ensures r == LastSaved(saves, sessionId)
      ensures r.None? <==> forall i :: 0 <= i < |saves| ==> saves[i].sessionId != sessionId
      ensures r.Some? ==> r.value.sessionId == sessionId && r.value.id < currentLocationId
    {
      r := Get(userLocations, sessionId);
      assert Get(userLocations, sessionId) == LastSaved(saves, sessionId);
      LastSavedIsNewest(saves, sessionId);
    }
  }

  /** Whether a zone lies within `radius` of the point: the boundary counts as inside. */
  function Within(dist: Distance, latitude: real, longitude: real, radius: real): (p: Zone -> bool)
    ensures forall z :: p(z) <==> dist(latitude, longitude, z.latitude, z.longitude) <= radius
  {
    (z: Zone) => dist(latitude, longitude, z.latitude, z.longitude) <= radius
  }

  /** The nearby zones are always among the listed zones. */
  lemma NearbyAmongAll(all: seq<Zone>, dist: Distance, latitude: real, longitude: real, radius: real)
    ensures forall z :: z in Filter(Filter(all, IsActive), Within(dist, latitude, longitude, radius)) ==>
                          z in Filter(all, IsActive)
  {
    forall z | z in Filter(Filter(all, IsActive), Within(dist, latitude, longitude, radius))
      ensures z in Filter(all, IsActive)
    {
      FilterMembership(Filter(all, IsActive), Within(dist, latitude, longitude, radius), z);
    }
  }

  /** A zone created without an active flag is stored but never listed: the store gives the flag no default. */
  method CreateWithoutFlagIsHidden(store: MemStorage, n: NewZone, now: Time) returns (z: Zone, listed: seq<Zone>)
    requires store.Valid()
    requires n.isActive == None
    modifies store
    ensures store.Valid()
    ensures z.id in store.zones && store.zones[z.id] == z
    ensures z !in listed
  {
    z := store.CreateZone(n, now);
    listed := store.GetAllZones();
  }

  /** Saving twice for one session, at any two clock readings, keeps one record for it: the second, which the lookup returns. */
  method SaveTwice(store: MemStorage, a: NewUserLocation, b: NewUserLocation, t1: Time, t2: Time)
    returns (found: Option<UserLocation>)
    requires store.Valid()
    requires a.sessionId == b.sessionId
    modifies store
    ensures store.Valid()
    ensures store.userLocations.Keys == old(store.userLocations.Keys) + {a.sessionId}
    ensures store.userLocations[a.sessionId] == FromNewUserLocation(b, old(store.currentLocationId) + 1, t2)
    ensures found == Some(FromNewUserLocation(b, old(store.currentLocationId) + 1, t2))
  {
    var first := store.SaveUserLocation(a, t1);
    var second := store.SaveUserLocation(b, t2);
    found := store.GetUserLocation(a.sessionId);
    assert found == Some(second);
  }
}
