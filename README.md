# SafeTracker — a verified model of its core logic

SafeTracker is a web app for emergencies. The browser reads the user's position and the quality of the
network. It saves the position to a server, which keeps an in-memory table of danger zones and safe
zones. A dashboard then shows:

- whether the user stands inside a danger zone;
- the nearby zones, with "time ago" and distance labels;
- a map the user can pan and zoom;
- a button that opens directions to a safe zone.

This project models the sequential logic behind that, in Dafny:

- `storage.dfy`: the server's `MemStorage` class, modelled as a class. It has:
  - a zone map, with its key insertion order, because a JavaScript `Map` lists entries in insertion order;
  - a user-location map keyed by session id;
  - the two id counters.

  Its methods are proved against specification functions (`Filter`, `ValuesOf`, `Seeded`, `LastSaved`). The invariants `ZoneTable` and `LocationTable` are proved preserved by every method.
- `schema.dfy`: the zone and user-location records. Also the object spreads that build them (`{...insert, id, lastUpdated}`) and update them (`{...zone, ...patch}`).
- `dashboard.dfy`: the split of the zones into danger and safe lists, the "in danger" test, the DANGER/SAFE status and the choice of the safe-route target.
- `zonecard.dfy`: the "time ago" buckets and the metres/kilometres choice of the zone card.
- `interactive_map.dfy`: the map's zoom and drag state, as a class, and the placement of a zone on the canvas.
- `application.dfy`: the page's permission → loading → dashboard | error state machine, as a class, and what it renders.
- `network.dfy`: the network-information readers with their `||` defaults.
- `collections.dfy`: `Option`, and the `Array.prototype.filter` and `Map.prototype.get` that the source relies on.

Choices that shape the model:

- **Distance.** The great-circle distance is a parameter `dist: (real, real, real, real) -> real`. Nothing is assumed about it.
- **Time.** Each reading of the clock (`new Date()`) is a parameter, in milliseconds. The seeding reads the clock once per zone, so it takes a sequence of six readings (`stamps`); every other operation takes one reading, `now`.
- **Awaited calls.** The geolocation call and the POST of the location request are one `RequestOutcome` parameter.
- **Browser connection.** The connection record of the Network Information API is an `Option<Connection>` parameter.
- **Number formatting.** Labels are datatypes rather than formatted strings.

**A failed POST is reported as a location failure.** The page stores the position (`setUserLocation`, client/src/pages/application.tsx:45) as soon as the geolocation call returns, before it awaits the POST. Any exception after that also lands in the one `catch`. So when only the POST throws, the page shows the "Failed to get your location" toast (lines 65-69) and the "Location Access Failed … We couldn't access your location" screen (lines 99-101), although the position was obtained and is still stored. The model follows the code: `Application.App.HandleRequestLocation` keeps the old position only when the geolocation call itself fails, and stores the new one on `PostFailed`.

Notes on the behaviour the proofs bring out:

- A zone created without an `isActive` field is stored but never listed. The in-memory store gives the flag no default, and the listing keeps only zones whose flag is truthy. `Storage.CreateWithoutFlagIsHidden` shows this.
- The safe-route button opens directions to the first safe zone in the list, not the nearest one.
- A distance just below 1000 m can show as "1000m away": `Math.round(999.5)` is 1000, while exactly 1000 m shows as "1.0km away".

## Model

| member | source | states |
|---|---|---|
| Collections.Filter | server/storage.ts:113 | `Array.prototype.filter` never yields more elements than it is given |
| Collections.FilterMembership | server/storage.ts:113 | an element survives the filter exactly when it is in the input and satisfies the predicate |
| Collections.FilterConcat | client/src/components/Dashboard.tsx:22-23 | filtering keeps the input order: it distributes over concatenation |
| Collections.FilterFirst | client/src/components/Dashboard.tsx:44 | the first element the filter keeps is the first element of the input that satisfies the predicate |
| Collections.FilterDistinct | server/storage.ts:149 | filtering a list without repetitions leaves one without repetitions (so the key order stays duplicate-free after a delete) |
| Collections.Get | server/storage.ts:136 | `Map.prototype.get` yields a value exactly when the key is present, and then the stored one |
| Schema.IsActive | server/storage.ts:113 | `zone.isActive` is truthy exactly when the nullable flag is present and true; null, undefined and false are not |
| Schema.FromNewZone | server/storage.ts:103-107 | the stored zone carries the given id and timestamp and every inserted field unchanged (it maps back to the insert) |
| Schema.ApplyPatch | server/storage.ts:139-143 | an update keeps the zone's id and sets the timestamp to the clock |
| Schema.EmptyPatchKeepsZone | server/storage.ts:139-143 | an update that supplies no field changes nothing but the timestamp |
| Schema.ApplyPatchIdempotent | server/storage.ts:139-143 | applying the same update twice gives the same zone as applying it once |
| Schema.FullPatchOverwrites | shared/schema.ts:29-32 | an update supplying every insertable field determines the whole zone except its id, which the update type cannot carry |
| Schema.FromNewUserLocation | server/storage.ts:153-157 | the stored record carries the given id, the clock's timestamp and every posted field |
| Storage.SampleZone | server/storage.ts:34-99 | the six sample zones: all active; the first three are danger zones with a severity and no capacity, the last three safe zones with a capacity and no severity |
| Storage.SampleZones | server/storage.ts:102 | `[...dangerZones, ...safeZones]`: six zones, the three danger zones first, then the three safe zones |
| Storage.Seeded | server/storage.ts:102-109 | seeding yields one zone per sample zone |
| Storage.SeededAt | server/storage.ts:102-109 | the i-th seeded zone is the i-th sample zone under id firstId + i, stamped with the i-th clock reading |
| Storage.SampleSeedShape | server/storage.ts:32-109 | the seed is six active zones with ids 1 to 6, each stamped with its own clock reading, the three danger zones first, then the three safe zones |
| Storage.SeededStep | server/storage.ts:102-109 | seeding one more sample zone appends it under the next id |
| Storage.ValuesOf | server/storage.ts:113 | `Array.from(map.values())` lists one entry per key, in key order |
| Storage.ValuesOfMembership | server/storage.ts:113 | a zone is listed exactly when it is stored under its own id |
| Storage.ZoneTableInsert | server/storage.ts:131 | storing a zone under the counter keeps ids unique and below the counter, and appends the zone to the listing |
| Storage.ValuesOfDelete | server/storage.ts:149 | removing a key from the map and the key order removes just that zone from the listing, and keeps the rest in order |
| Storage.ZoneTableDelete | server/storage.ts:149 | deleting an id keeps the zone table valid and removes only the zone with that id from the listing |
| Storage.ZoneTableOverwrite | server/storage.ts:144 | overwriting a present zone with one of the same id keeps the zone table valid |
| Storage.LastSaved | server/storage.ts:162-164 | the record found for a session was saved for that session |
| Storage.LastSavedIsNewest | server/storage.ts:158 | a record is found exactly when one was saved for the session, and it is the newest of them |
| Storage.LocationTableSave | server/storage.ts:152-160 | a save under the counter keeps one record per session, the newest, with ids strictly increasing over time |
| Storage.MemStorage.constructor | server/storage.ts:22-30 | a new store holds exactly the six seeded zones, each with its own clock reading, no user locations, zone counter 7 and location counter 1 |
| Storage.MemStorage.InitializeSampleZones | server/storage.ts:32-110 | seeding appends the six sample zones under consecutive ids, one clock reading each, and advances the zone counter by six |
| Storage.MemStorage.AddZones | server/storage.ts:102-109 | the `forEach` inserts each zone under the next id with its own clock reading, in order, and touches nothing else |
| Storage.MemStorage.Insert | server/storage.ts:128-131 | a zone with the next id is stored under a fresh key, appended to the listing, and the counter advances |
| Storage.MemStorage.GetAllZones | server/storage.ts:112-114 | the listing is exactly the stored zones whose active flag is true, in insertion order, and the store is unchanged |
| Storage.MemStorage.GetZonesByLocation | server/storage.ts:116-123 | the result is exactly the active stored zones at distance at most `radius`, in insertion order |
| Storage.Within | server/storage.ts:119-122 | a zone passes exactly when its distance from the point is at most the radius, boundary included |
| Storage.NearbyAmongAll | server/storage.ts:116-123 | the nearby zones are always among the listed active zones |
| Storage.MemStorage.CreateZone | server/storage.ts:125-133 | the new zone takes the counter value, which exceeds every id in use; the counter advances; no earlier entry changes |
| Storage.CreateWithoutFlagIsHidden | server/storage.ts:113 | a zone created without an active flag is stored but left out of the listing |
| Storage.MemStorage.UpdateZone | server/storage.ts:135-146 | an unknown id gives undefined and changes nothing; a known id gets the supplied fields, keeps its id, and no other entry changes |
| Storage.MemStorage.DeleteZone | server/storage.ts:148-150 | the result is true exactly when the id was present; afterwards it is absent and the other zones stay, in order |
| Storage.MemStorage.SaveUserLocation | server/storage.ts:152-160 | the record replaces any earlier one of its session and gets an id above every stored one; the counter advances even on overwrite |
| Storage.MemStorage.GetUserLocation | server/storage.ts:162-164 | the result is the newest record saved for the session, or undefined exactly when the session never saved one |
| Storage.SaveTwice | server/storage.ts:152-164 | two saves for one session, at any two clock readings, leave one record for it, the second with the second reading, and the lookup returns it |
| Dashboard.DangerZones | client/src/components/Dashboard.tsx:22 | the danger list holds exactly the input zones of type 'danger', and is empty without zones |
| Dashboard.SafeZones | client/src/components/Dashboard.tsx:23 | the safe list holds exactly the input zones of type 'safe', and is empty without zones |
| Dashboard.SplitKeepsOrder | client/src/components/Dashboard.tsx:22-23 | both lists keep the input order |
| Dashboard.SplitDisjoint | client/src/components/Dashboard.tsx:22-23 | no zone is in both lists, and a zone of any other type is in neither |
| Dashboard.Inside | client/src/components/Dashboard.tsx:26-32 | the `some` callback: the user is inside when the distance is below or equal to the radius, outside when above |
| Dashboard.AnyInside | client/src/components/Dashboard.tsx:25-33 | `some` holds exactly when some zone of the list has the user within its radius, boundary included |
| Dashboard.IsInDangerZone | client/src/components/Dashboard.tsx:25-33 | the user is in danger exactly when some danger zone of the input has the user within its radius, boundary included; never without zones |
| Dashboard.DangerListSkips | client/src/components/Dashboard.tsx:22 | removing a zone that is not a danger zone leaves the danger list unchanged |
| Dashboard.OnlyDangerZonesMatter | client/src/components/Dashboard.tsx:25-33 | safe zones, and zones of other types, never change the in-danger verdict |
| Dashboard.CurrentStatus | client/src/components/Dashboard.tsx:35 | the status is DANGER exactly when a danger zone contains the user, and SAFE exactly when none does |
| Dashboard.StatusWithoutZones | client/src/pages/application.tsx:86-90 | the page passes no zones, so both lists are empty and the status is always SAFE |
| Dashboard.FindSafeRoute | client/src/components/Dashboard.tsx:43-55 | the notice appears exactly when no zone is safe; otherwise directions go to the first safe zone of the list |
| ZoneCard.MinutesAgo | client/src/components/ZoneCard.tsx:45 | the minute count is the elapsed milliseconds divided by 60000, rounded down (also for a future date) |
| ZoneCard.TimeAgoBucket | client/src/components/ZoneCard.tsx:47-50 | the four buckets are disjoint and exhaustive; minutes carry the count; hours lie in 1..23; days are at least 1; each count is rounded down |
| ZoneCard.GetTimeAgo | client/src/components/ZoneCard.tsx:43-51 | a future date or less than a minute gives "Just now" |
| ZoneCard.TimeAgoMonotone | client/src/components/ZoneCard.tsx:47-50 | an older date never gets a finer bucket, nor a smaller count in the same bucket |
| ZoneCard.FormatDistance | client/src/components/ZoneCard.tsx:35-41 | metres exactly below 1000, rounded to the nearest metre; otherwise kilometres, distance / 1000 and at least 1 |
| ZoneCard.ThresholdIsKilometres | client/src/components/ZoneCard.tsx:36 | exactly 1000 m uses the kilometre form |
| ZoneCard.RoundsUpToThousandMetres | client/src/components/ZoneCard.tsx:37 | 999.5 m shows as 1000 metres |
| InteractiveMap.ProjectZone | client/src/components/InteractiveMap.tsx:75-77 | the display radius is max(radius / 100, 10), so at least 10; the placement is inverted by `Unproject` |
| InteractiveMap.ProjectionBijective | client/src/components/InteractiveMap.tsx:75-76 | every canvas point is where exactly the position `Unproject` gives is drawn |
| InteractiveMap.UserZoneAtCenter | client/src/components/InteractiveMap.tsx:70-76 | a zone at the user's coordinates is drawn at the canvas centre |
| InteractiveMap.ProjectionOrientation | client/src/components/InteractiveMap.tsx:75-76 | further east is further right and further north is further up |
| InteractiveMap.ZoomedIn | client/src/components/InteractiveMap.tsx:153 | `Math.min(prev * 1.2, 3)`: the smaller of the two, so never above 3 nor above the scaled zoom |
| InteractiveMap.ZoomedOut | client/src/components/InteractiveMap.tsx:157 | `Math.max(prev / 1.2, 0.5)`: the larger of the two, so never below 0.5 nor below the scaled zoom |
| InteractiveMap.ZoomStepProperties | client/src/components/InteractiveMap.tsx:152-158 | zoom-in never decreases the zoom and zoom-out never increases it; both keep it in [0.5, 3]; each is a no-op exactly at its bound |
| InteractiveMap.ZoomStaysInRange | client/src/components/InteractiveMap.tsx:15 | from zoom 1 (or any zoom in range), any sequence of zoom presses keeps the zoom in [0.5, 3] |
| InteractiveMap.ZoomTenPresses | client/src/components/InteractiveMap.tsx:152-154 | ten zoom-ins take the zoom from 0.5 to the cap of 3 |
| InteractiveMap.ZoomInSaturates | client/src/components/InteractiveMap.tsx:152-154 | ten or more zoom-ins from 0.5 leave the zoom at 3 |
| InteractiveMap.ToScreen | client/src/components/InteractiveMap.tsx:36-37 | the translate-then-scale transform shows the canvas unchanged in the initial view and can be undone for any non-zero zoom |
| InteractiveMap.MapView.constructor | client/src/components/InteractiveMap.tsx:15-18 | the view starts at zoom 1, offset (0, 0), not dragging |
| InteractiveMap.MapView.MouseDown | client/src/components/InteractiveMap.tsx:134-137 | pressing starts a drag and records the pointer relative to the current offset |
| InteractiveMap.MapView.MouseMove | client/src/components/InteractiveMap.tsx:139-146 | while dragging, the offset is the pointer minus the anchor; otherwise nothing changes |
| InteractiveMap.MapView.MouseUp | client/src/components/InteractiveMap.tsx:148-150 | releasing, or leaving the canvas, stops the drag and changes nothing else |
| InteractiveMap.MapView.ZoomIn | client/src/components/InteractiveMap.tsx:152-154 | the zoom becomes min(zoom × 1.2, 3) and stays in range |
| InteractiveMap.MapView.ZoomOut | client/src/components/InteractiveMap.tsx:156-158 | the zoom becomes max(zoom / 1.2, 0.5) and stays in range |
| InteractiveMap.MapView.CenterOnUser | client/src/components/InteractiveMap.tsx:160-163 | whatever the prior view, the offset becomes (0, 0) and the zoom 1, so the user's marker is back at the centre |
| InteractiveMap.Drag | client/src/components/InteractiveMap.tsx:134-146 | a press and moves shift the map by the pointer's displacement from the press, so moving back to the press point restores the offset |
| InteractiveMap.MoveAfterRelease | client/src/components/InteractiveMap.tsx:148-150 | after a release (or leaving the canvas, line 175) a move does not shift the map |
| Application.RenderContent | client/src/pages/application.tsx:78-121 | the dashboard shows exactly in state 'dashboard' with a known position; the retry or permission prompt shows exactly in 'error' or 'permission' |
| Application.LocationPayload | client/src/pages/application.tsx:53-59 | the POST body carries the session and the position; the network fields fall back to 'unknown' and 0 |
| Application.PayloadCarriesReading | client/src/pages/application.tsx:34-38 | with the reading taken at start-up, the body carries its type and speed |
| Application.App.constructor | client/src/pages/application.tsx:28-38 | the page starts in 'permission' with no position, and reads the network once |
| Application.App.HandleRequestLocation | client/src/pages/application.tsx:40-72 | the state passes through 'loading', then is 'dashboard' exactly when both calls complete, whatever the HTTP status, and 'error' otherwise; the position is stored once it arrives |
| Application.App.CurrentScreen | client/src/pages/application.tsx:84-91 | a valid page never renders nothing; the dashboard shows the stored position |
| Application.Retry | client/src/pages/application.tsx:103-108 | the error screen offers the request again, which runs from 'loading' |
| Network.OrText | client/src/lib/network.ts:24 | the string default: s unless it is empty, then d; empty only when both are |
| Network.OrNumber | client/src/lib/network.ts:25-26 | the numeric default: x unless it is 0, then d; 0 only when both are |
| Network.GetNetworkInfo | client/src/lib/network.ts:20-38 | without the API, the fallback 4g/10/100/false; with it, each falsy field takes its default; the type is never empty and downlink and rtt are never 0 |
| Network.GetConnectionType | client/src/lib/network.ts:40-45 | 'unknown' exactly without a connection or with an empty or 'unknown' type; otherwise the type |
| Network.IsSlowConnection | client/src/lib/network.ts:47-54 | true exactly when there is a connection whose type is 'slow-2g' or '2g' or whose saveData is set |
| Network.GetDownlinkSpeed | client/src/lib/network.ts:56-61 | 10 without a connection or with downlink 0, otherwise the downlink; never 0 |
| Network.ReadersAgree | client/src/lib/network.ts:20-61 | the separate readers agree with the full reading wherever the connection reports a value |
| Network.DefaultingIdempotent | client/src/lib/network.ts:22-28 | a full reading passes through the defaulting unchanged |

## Left out

- The haversine `calculateDistance` (server/storage.ts:166-179 and its copies in the dashboard and the zone card) is floating-point trigonometry. Distance is a parameter, and no property of it (symmetry, zero at the same point) is assumed.
- Floating point in general: every number is an exact `real` or `int`. NaN is not modelled, so `x || d` replaces only 0.
- The text of the labels: `toFixed(1)`, the `Math.round` inside template strings and the pluralisation of "mins/hours/days" are not modelled. The labels are datatypes.
- All canvas drawing: grid, colours, labels, the user marker and its accuracy circle. Only the zone placement (lines 75-77) and the view state are modelled.
- InteractiveMap.MapView.MouseMove: React runs a handler with the state of its last render. The model applies the handlers one after another to the latest state, which matches the source as long as each event is rendered before the next one.
- Application.App.HandleRequestLocation: the `setState` calls are modelled as immediate assignments. React's batching and the `async` suspension points are not modelled, and nothing else runs during a request.
- Application.App.constructor: the network reading is taken at construction. In the source it is taken by an effect right after the first render, and `networkInfo` is null until then.
- The `async`/`Promise` wrappers of the storage methods: nothing concurrent happens, so the methods are sequential.
- server/routes.ts (Express plumbing, `parseFloat`, zod validation), client/src/lib/geolocation.ts (a callback wrapper over the browser API), `addNetworkChangeListener` (an event subscription), toasts, `window.open`, `navigator.share`, the clipboard and `fetch`: these are I/O and library calls. The request's two awaited calls are the `RequestOutcome` parameter.
- The `Math.random` session id and the `new Date()` timestamps: these are the `sessionId` parameter and the clock-reading parameters (`now`, and `stamps` for the seeding). Nothing is assumed about the readings, not even that they increase.
- A patch that explicitly supplies `undefined` for a field: `{...zone, ...patch}` copies that `undefined` over the field. `ZonePatch` models only omitted fields and supplied values, so a supplied `null` is `Some(None)`.
- Purely presentational pages and components (landing page, loading screen, permission prompt) and all JSX beyond which screen is shown.
