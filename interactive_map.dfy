/**
 * The zone map: an 800 by 400 canvas centred on the user, on which every zone
 * is a circle, with a zoom between 0.5 and 3 and an offset the user changes by
 * dragging. The drawing itself is not modelled; what is modelled is where each
 * zone is placed and how the view state changes with each control.
 */
module InteractiveMap {
  import opened Schema
  import Application

  const CanvasWidth: real := 800.0
  const CanvasHeight: real := 400.0
  const CenterX: real := CanvasWidth / 2.0
  const CenterY: real := CanvasHeight / 2.0
  /** Canvas units per degree of latitude or longitude. */
  const Scale: real := 10000.0
  /** The smallest radius a zone circle is drawn with. */
  const MinRadius: real := 10.0
  /** Metres per canvas unit of radius. */
  const RadiusDivisor: real := 100.0

  const MinZoom: real := 0.5
  const MaxZoom: real := 3.0
  const ZoomStep: real := 1.2

  /** A zone as drawn: its centre on the canvas and its radius. */
  datatype Circle = Circle(x: real, y: real, radius: real)

  /** Where a zone is drawn: east to the right and north up, relative to the user at the centre. */
  function ProjectZone(zone: Zone, user: Application.Position): (c: Circle)
    ensures c.radius >= MinRadius && c.radius >= zone.radius / RadiusDivisor
    ensures c.radius == MinRadius || c.radius == zone.radius / RadiusDivisor
    ensures Unproject(c.x, c.y, user) == (zone.latitude, zone.longitude)
  {
    var x := CenterX + (zone.longitude - user.longitude) * Scale;
    var y := CenterY - (zone.latitude - user.latitude) * Scale;
    var r := if zone.radius / RadiusDivisor >= MinRadius then zone.radius / RadiusDivisor else MinRadius;
    Circle(x, y, r)
  }

  /** The latitude and longitude drawn at a canvas point: the inverse of the placement. */
  function Unproject(x: real, y: real, user: Application.Position): (real, real) {
    (user.latitude - (y - CenterY) / Scale, user.longitude + (x - CenterX) / Scale)
  }

  /** Placing is one-to-one on positions, and every canvas point is the place of some position. */
  lemma ProjectionBijective(zone: Zone, user: Application.Position, x: real, y: real)
    ensures var p := Unproject(x, y, user);
            var c := ProjectZone(zone.(latitude := p.0, longitude := p.1), user);
            c.x == x && c.y == y
  {
  }

  /** A zone at the user's position is drawn at the centre, under the user's marker. */
  lemma UserZoneAtCenter(zone: Zone, user: Application.Position)
    requires zone.latitude == user.latitude && zone.longitude == user.longitude
    ensures ProjectZone(zone, user).x == CenterX && ProjectZone(zone, user).y == CenterY
  {
  }

  /** Further east is further right, further north is further up. */
  lemma ProjectionOrientation(a: Zone, b: Zone, user: Application.Position)
    ensures a.longitude < b.longitude <==> ProjectZone(a, user).x < ProjectZone(b, user).x
    ensures a.latitude < b.latitude <==> ProjectZone(a, user).y > ProjectZone(b, user).y
  {
  }

  /** `handleZoomIn`: `Math.min(prev * 1.2, 3)`. */
  function ZoomedIn(zoom: real): (r: real)
    ensures r <= MaxZoom && r <= zoom * ZoomStep
    ensures r == MaxZoom || r == zoom * ZoomStep
  {
    if zoom * ZoomStep <= MaxZoom then zoom * ZoomStep else MaxZoom
  }

  /** `handleZoomOut`: `Math.max(prev / 1.2, 0.5)`. */
  function ZoomedOut(zoom: real): (r: real)
    ensures r >= MinZoom && r >= zoom / ZoomStep
    ensures r == MinZoom || r == zoom / ZoomStep
  {
    if zoom / ZoomStep >= MinZoom then zoom / ZoomStep else MinZoom
  }

  predicate InZoomRange(zoom: real) {
    MinZoom <= zoom <= MaxZoom
  }

  /** Both buttons keep the zoom in range, move it in their direction, and stop at the bounds. */
  lemma ZoomStepProperties(zoom: real)
    requires InZoomRange(zoom)
    ensures InZoomRange(ZoomedIn(zoom)) && InZoomRange(ZoomedOut(zoom))
    ensures ZoomedOut(zoom) <= zoom <= ZoomedIn(zoom)
    ensures ZoomedIn(zoom) == zoom <==> zoom == MaxZoom
    ensures ZoomedOut(zoom) == zoom <==> zoom == MinZoom
  {
  }

  datatype ZoomOp = In | Out

  /** The zoom after pressing the buttons in order. */
  function ApplyZooms(zoom: real, ops: seq<ZoomOp>): real
    decreases |ops|
  {
    if ops == [] then zoom
    else
      var z := ApplyZooms(zoom, ops[..|ops| - 1]);
      if ops[|ops| - 1] == In then ZoomedIn(z) else ZoomedOut(z)
  }

  /** From a zoom in range, no sequence of presses leaves the range. */
  lemma {:induction false} ZoomStaysInRange(zoom: real, ops: seq<ZoomOp>)
    requires InZoomRange(zoom)
    ensures InZoomRange(ApplyZooms(zoom, ops))
  {
    if ops != [] {
      ZoomStaysInRange(zoom, ops[..|ops| - 1]);
      ZoomStepProperties(ApplyZooms(zoom, ops[..|ops| - 1]));
    }
  }

  /** Zooming in from the bottom of the range reaches the top and then stays there. */
  lemma {:induction false} ZoomInSaturates(n: nat)
    requires n >= 10
    ensures ApplyZooms(MinZoom, seq(n, _ => In)) == MaxZoom
  {
    if n == 10 {
      ZoomTenPresses();
    } else {
      var ops := seq(n, _ => In);
      assert ops[..n - 1] == seq(n - 1, _ => In);
      ZoomInSaturates(n - 1);
    }
  }

  /** Ten presses take the zoom from 0.5 up to the cap of 3 (0.5 times 1.2 to the 10th exceeds 3). */
  lemma ZoomTenPresses()
    ensures ApplyZooms(MinZoom, seq(10, _ => In)) == MaxZoom
  {
    var ops := seq(10, _ => In);
    // the zoom after each press: 0.5 times a power of 1.2, until the cap
    var levels := [0.5, 0.6, 0.72, 0.864, 1.0368, 1.24416, 1.492992, 1.7915904, 2.14990848, 2.579890176, 3.0];
    var k := 0;
    while k < 10
      invariant 0 <= k <= 10
      invariant ApplyZooms(MinZoom, ops[..k]) == levels[k]
    {
      assert ops[..k + 1][..k] == ops[..k];
      assert ZoomedIn(levels[k]) == levels[k + 1];
      k := k + 1;
    }
    assert ops[..10] == ops;
  }

  /**
   * Where a canvas point appears on screen under `ctx.translate(offset)` then
   * `ctx.scale(zoom, zoom)`: the initial view shows the canvas as it is, and any
   * other view with a non-zero zoom can be undone.
   */
  function ToScreen(zoom: real, offsetX: real, offsetY: real, x: real, y: real): (r: (real, real))
    ensures zoom == 1.0 && offsetX == 0.0 && offsetY == 0.0 ==> r.0 == x && r.1 == y
    ensures zoom != 0.0 ==> (r.0 - offsetX) / zoom == x && (r.1 - offsetY) / zoom == y
  {
    (offsetX + zoom * x, offsetY + zoom * y)
  }

  /** The view state of the map. */
  class MapView {
    var zoom: real
    var offsetX: real
    var offsetY: real
    var isDragging: bool
    var dragStartX: real
    var dragStartY: real

    ghost predicate Valid()
      reads this
    {
      InZoomRange(zoom)
    }

    /** The initial view: zoom 1, no offset, not dragging. */
    constructor ()
      ensures Valid()
      ensures zoom == 1.0 && offsetX == 0.0 && offsetY == 0.0
      ensures !isDragging && dragStartX == 0.0 && dragStartY == 0.0
    {
      zoom := 1.0;
      offsetX, offsetY := 0.0, 0.0;
      isDragging := false;
      dragStartX, dragStartY := 0.0, 0.0;
    }

    /** `handleMouseDown`: start dragging, remembering the pointer relative to the offset. */
    method MouseDown(clientX: real, clientY: real)
      requires Valid()
      modifies this
      ensures Valid()
      ensures isDragging
      ensures dragStartX == clientX - offsetX && dragStartY == clientY - offsetY
      ensures zoom == old(zoom) && offsetX == old(offsetX) && offsetY == old(offsetY)
    {
      isDragging := true;
      dragStartX, dragStartY := clientX - offsetX, clientY - offsetY;
    }

    /** `handleMouseMove`: while dragging, the offset follows the pointer; otherwise nothing changes. */
    method MouseMove(clientX: real, clientY: real)
      requires Valid()
      modifies this
      ensures Valid()
      ensures old(isDragging) ==> offsetX == clientX - dragStartX && offsetY == clientY - dragStartY
      ensures !old(isDragging) ==> offsetX == old(offsetX) && offsetY == old(offsetY)
      ensures zoom == old(zoom) && isDragging == old(isDragging)
      ensures dragStartX == old(dragStartX) && dragStartY == old(dragStartY)
    {
      if isDragging {
        offsetX, offsetY := clientX - dragStartX, clientY - dragStartY;
      }
    }

    /** `handleMouseUp`, also run when the pointer leaves the canvas: stop dragging. */
    method MouseUp()
      requires Valid()
      modifies this
      ensures Valid()
      ensures !isDragging
      ensures zoom == old(zoom) && offsetX == old(offsetX) && offsetY == old(offsetY)
      ensures dragStartX == old(dragStartX) && dragStartY == old(dragStartY)
    {
      isDragging := false;
    }

    /** `handleZoomIn`. */
    method ZoomIn()
      requires Valid()
      modifies this
      ensures Valid()
      ensures zoom == ZoomedIn(old(zoom))
      ensures offsetX == old(offsetX) && offsetY == old(offsetY) && isDragging == old(isDragging)
      ensures dragStartX == old(dragStartX) && dragStartY == old(dragStartY)
    {
      ZoomStepProperties(zoom);
      zoom := ZoomedIn(zoom);
    }

    /** `handleZoomOut`. */
    method ZoomOut()
      requires Valid()
      modifies this
      ensures Valid()
      ensures zoom == ZoomedOut(old(zoom))
      ensures offsetX == old(offsetX) && offsetY == old(offsetY) && isDragging == old(isDragging)
      ensures dragStartX == old(dragStartX) && dragStartY == old(dragStartY)
    {
      ZoomStepProperties(zoom);
      zoom := ZoomedOut(zoom);
    }

    /** `handleCenterOnUser`: back to the initial offset and zoom; a drag in progress goes on. */
    method CenterOnUser()
      requires Valid()
      modifies this
      ensures Valid()
      ensures offsetX == 0.0 && offsetY == 0.0 && zoom == 1.0
      ensures ToScreen(zoom, offsetX, offsetY, CenterX, CenterY) == (CenterX, CenterY)
      ensures isDragging == old(isDragging)
      ensures dragStartX == old(dragStartX) && dragStartY == old(dragStartY)
    {
      offsetX, offsetY := 0.0, 0.0;
      zoom := 1.0;
    }
  }

  /** A press at one point and moves to others shift the map by the pointer's displacement from the press. */
  method Drag(view: MapView, x0: real, y0: real, x1: real, y1: real, x2: real, y2: real)
    requires view.Valid()
    modifies view
    ensures view.Valid() && !view.isDragging && view.zoom == old(view.zoom)
    ensures view.offsetX == old(view.offsetX) + (x2 - x0)
    ensures view.offsetY == old(view.offsetY) + (y2 - y0)
  {
    view.MouseDown(x0, y0);
    view.MouseMove(x1, y1);
    view.MouseMove(x2, y2);
    view.MouseUp();
  }

  /** Once the button is released, moving the pointer does not move the map. */
  method MoveAfterRelease(view: MapView, x: real, y: real)
    requires view.Valid()
    modifies view
    ensures view.Valid() && !view.isDragging
    ensures view.offsetX == old(view.offsetX) && view.offsetY == old(view.offsetY)
    ensures view.zoom == old(view.zoom)
  {
    view.MouseUp();
    view.MouseMove(x, y);
  }
}
