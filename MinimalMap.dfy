/** The `MinimalMap` component: the map handle it creates once and tears
    down, the potholes it keeps in state, and the circle marker it adds to
    the map for each pothole. The mapping library's map object is modelled
    by the state the component's calls change on it. */
module MinimalMap {
  import opened Wrappers
  import opened HotColor
  import opened Potholes

  /** The centre and zoom level the map is first shown at. */
  const InitialPosition: LatLng := (9.959792, 76.405983)
  const InitialZoom: int := 15

  /** The OpenStreetMap tile source added to every new map. */
  const TileUrl: string := "https://{s}.tile.openstreetmap.org/{z}/{x}/{y}.png"

  /** The fixed styling of a pothole marker. */
  const MarkerRadius: nat := 8
  const MarkerStroke: string := "black"
  const MarkerWeight: nat := 2
  const MarkerOpacity: real := 1.0
  const MarkerFillOpacity: real := 0.7

  /** The popup `Pothole Severity: <severity>` bound to a marker; it keeps the
      severity itself rather than its decimal text. */
  datatype Popup = SeverityPopup(severity: real)

  /** What `L.circleMarker(...).bindPopup(...)` describes. */
  datatype Marker = CircleMarker(
    center: LatLng,
    radius: nat,
    fillColor: string,
    color: string,
    weight: nat,
    opacity: real,
    fillOpacity: real,
    popup: Popup)

  /** The marker the second effect makes for one pothole: at the pothole's
      coordinates, radius 8, a black stroke of weight 2 at full opacity, a
      fill at opacity 0.7 in the ramp colour of the severity's band, and a
      popup with that severity. */
  function MarkerFor(p: Pothole): (m: Marker)
    ensures m.center == p.coordinates && m.radius == 8
    ensures m.color == "black" && m.weight == 2 && m.opacity == 1.0 && m.fillOpacity == 0.7
    ensures m.fillColor == PaletteTexts[Band(Clamp(p.severity))]
    ensures m.popup.severity == p.severity
  {
    CircleMarker(p.coordinates, MarkerRadius, GetHotColor(p.severity), MarkerStroke,
                 MarkerWeight, MarkerOpacity, MarkerFillOpacity, SeverityPopup(p.severity))
  }

  /** The markers for a list of potholes, one each, in list order. */
  function Markers(ps: seq<Pothole>): (ms: seq<Marker>)
    ensures |ms| == |ps|
    ensures forall i :: 0 <= i < |ps| ==> ms[i] == MarkerFor(ps[i])
  {
    if ps == [] then [] else [MarkerFor(ps[0])] + Markers(ps[1..])
  }

  /** The markers of a concatenation are the markers of each part, in order. */
  lemma {:induction false} MarkersAppend(a: seq<Pothole>, b: seq<Pothole>)
    ensures Markers(a + b) == Markers(a) + Markers(b)
  {
    if a != [] {
      assert (a + b)[1..] == a[1..] + b;
      MarkersAppend(a[1..], b);
    }
  }

  /** The markers of one more pothole are those of the shorter list and
      the new pothole's marker. */
  lemma MarkersOfPrefix(ps: seq<Pothole>, i: int)
    requires 0 <= i < |ps|
    ensures Markers(ps[..i + 1]) == Markers(ps[..i]) + [MarkerFor(ps[i])]
  {
    assert ps[..i + 1] == ps[..i] + [ps[i]];
    MarkersAppend(ps[..i], [ps[i]]);
  }

  lemma AppendOne<T>(a: seq<T>, b: seq<T>, x: T)
    ensures (a + b) + [x] == a + (b + [x])
  {
  }

  /** Each marker sits at its pothole, has radius 8, carries the pothole's
      severity in its popup and is filled with the pothole's ramp colour,
      which is one of the five drawn stops. */
  lemma MarkerDescribesPothole(ps: seq<Pothole>, i: int)
    requires 0 <= i < |ps|
    ensures Markers(ps)[i].center == ps[i].coordinates
    ensures Markers(ps)[i].radius == 8
    ensures Markers(ps)[i].popup.severity == ps[i].severity
    ensures ParseRgb(Markers(ps)[i].fillColor) == Some(HotColorRgb(ps[i].severity))
    ensures HotColorRgb(ps[i].severity) in Palette
  {
  }

  /** The markers for the potholes fetched from a list of records: the
      reshaping and the marker derivation composed. */
  lemma {:induction false} MarkersOfFetched(data: seq<PotholeRecord>, i: int)
    requires 0 <= i < |data|
    ensures |Markers(FormatAll(data))| == |data|
    ensures Markers(FormatAll(data))[i].center == (data[i].latitude, data[i].longitude)
    ensures Markers(FormatAll(data))[i].fillColor == GetHotColor(data[i].severity)
  {
    MarkerDescribesPothole(FormatAll(data), i);
  }

  /** The map object of the mapping library, as the component's own calls
      leave it: its view, a record of the tile layers and markers the
      component added, and whether it was removed. The record of added layers
      and markers is kept after removal; the library itself detaches them,
      which is not modelled. */
  class LeafletMap {
    var center: LatLng
    var zoom: int
    var tileLayers: seq<string>
    var markers: seq<Marker>
    var removed: bool

    /** `L.map('map').setView(center, zoom)` */
    constructor (center: LatLng, zoom: int)
      ensures this.center == center && this.zoom == zoom
      ensures tileLayers == [] && markers == [] && !removed
    {
      this.center := center;
      this.zoom := zoom;
      tileLayers := [];
      markers := [];
      removed := false;
    }

    /** `L.tileLayer(url, ...).addTo(map)` */
    method AddTileLayer(url: string)
      modifies this
      ensures tileLayers == old(tileLayers) + [url]
      ensures center == old(center) && zoom == old(zoom)
      ensures markers == old(markers) && removed == old(removed)
    {
      tileLayers := tileLayers + [url];
    }

    /** `marker.addTo(map)` */
    method AddMarker(m: Marker)
      modifies this
      ensures markers == old(markers) + [m]
      ensures center == old(center) && zoom == old(zoom)
      ensures tileLayers == old(tileLayers) && removed == old(removed)
    {
      markers := markers + [m];
    }

    /** `map.remove()` */
    method Remove()
      modifies this
      ensures removed
      ensures center == old(center) && zoom == old(zoom)
      ensures tileLayers == old(tileLayers) && markers == old(markers)
    {
      removed := true;
    }
  }

  /** How the request for the pothole list settled. */
  datatype FetchOutcome =
    | Fetched(data: seq<PotholeRecord>)  // response.ok, body parsed
    | NotOk                              // a response without response.ok
    | Failed                             // the request or the parsing threw

  /** The component's state: `mapRef.current`, `position`, `zoom` and `potholes`. */
  class MinimalMapComponent {
    var mapRef: LeafletMap?
    var position: LatLng
    var zoom: int
    var potholes: seq<Pothole>

    /** A handle held in `mapRef` has not been removed. */
    ghost predicate Valid()
      reads this, mapRef
    {
      mapRef != null ==> !mapRef.removed
    }

    /** The first render: no map yet and no potholes. */
    constructor ()
      ensures Valid() && mapRef == null && potholes == []
      ensures position == InitialPosition && zoom == InitialZoom
    {
      mapRef := null;
      position := InitialPosition;
      zoom := InitialZoom;
      potholes := [];
    }

    /** `fetchPotholes` once its request has settled: only a successful
        response replaces the potholes; a failure leaves them as they were. */
    method ReceivePotholes(outcome: FetchOutcome)
      requires Valid()
      modifies this`potholes
      ensures Valid()
      ensures potholes == if outcome.Fetched? then FormatAll(outcome.data) else old(potholes)
    {
      match outcome
      case Fetched(data) =>
        potholes := FormatAll(data);
      case NotOk =>
      case Failed =>
    }

    /** The map creation of the first effect: a map is made, centred and
        given its tile layer only when `mapRef` holds none; otherwise the
        handle is kept as it is. */
    method MountMap()
      requires Valid()
      modifies this`mapRef
      ensures Valid() && mapRef != null
      ensures old(mapRef) != null ==> mapRef == old(mapRef)
      ensures old(mapRef) == null ==>
        fresh(mapRef) && mapRef.center == position && mapRef.zoom == zoom &&
        mapRef.tileLayers == [TileUrl] && mapRef.markers == []
    {
      if mapRef == null {
        var view := new LeafletMap(position, zoom);
        view.AddTileLayer(TileUrl);
        mapRef := view;
      }
    }

    /** The cleanup of the first effect: a held map is removed and `mapRef`
        reset; with no map held nothing happens. */
    method Teardown()
      requires Valid()
      modifies this`mapRef, mapRef
      ensures Valid() && mapRef == null
      ensures old(mapRef) != null ==>
        old(mapRef).removed && old(mapRef).markers == old(mapRef.markers) &&
        old(mapRef).tileLayers == old(mapRef.tileLayers) &&
        old(mapRef).center == old(mapRef.center) && old(mapRef).zoom == old(mapRef.zoom)
    {
      if mapRef != null {
        mapRef.Remove();
        mapRef := null;
      }
    }

    /** The second effect: with a map held, one circle marker per pothole is
        added to it, in list order; with none, nothing happens. */
    method ShowPotholes()
      requires Valid()
      modifies mapRef
      ensures Valid()
      ensures mapRef != null ==>
        mapRef.markers == old(mapRef.markers) + Markers(potholes) &&
        mapRef.tileLayers == old(mapRef.tileLayers) &&
        mapRef.center == old(mapRef.center) && mapRef.zoom == old(mapRef.zoom)
    {
      if mapRef != null {
        AddMarkers(mapRef, potholes);
      }
    }
  }

  /** `potholes.forEach(...)`: one circle marker per pothole is added to the
      map, in list order, and nothing else about the map changes. */
  method AddMarkers(view: LeafletMap, ps: seq<Pothole>)
    modifies view
    ensures view.markers == old(view.markers) + Markers(ps)
    ensures view.removed == old(view.removed) && view.tileLayers == old(view.tileLayers)
    ensures view.center == old(view.center) && view.zoom == old(view.zoom)
  {
    ghost var start := view.markers;
    var i := 0;
    while i < |ps|
      invariant 0 <= i <= |ps|
      invariant view.markers == start + Markers(ps[..i])
      invariant view.removed == old(view.removed) && view.tileLayers == old(view.tileLayers)
      invariant view.center == old(view.center) && view.zoom == old(view.zoom)
    {
      ghost var done := Markers(ps[..i]);
      var marker := MarkerFor(ps[i]);
      view.AddMarker(marker);
      MarkersOfPrefix(ps, i);
      AppendOne(start, done, marker);
      i := i + 1;
    }
    assert ps[..i] == ps;
  }

  /** A trace that exercises both guards: the fetched list arrives and is
      drawn, a second `MountMap` finds the map already held and keeps it, and
      a second `Teardown` finds none and does nothing. React itself never
      takes those two branches: the first effect has no dependencies, so its
      setup and cleanup alternate, and the cleanup always leaves `mapRef`
      null before the setup runs again. */
  method GuardTrace(outcome: FetchOutcome)
  {
    var component := new MinimalMapComponent();
    component.MountMap();
    var first := component.mapRef;
    assert first.tileLayers == [TileUrl] && first.markers == [];
    component.ShowPotholes();
    assert first.markers == [];
    component.ReceivePotholes(outcome);
    component.ShowPotholes();
    assert outcome.Fetched? ==> |first.markers| == |outcome.data|;
    component.MountMap();
    assert component.mapRef == first;
    component.Teardown();
    assert component.mapRef == null && first.removed;
    component.Teardown();
    assert component.mapRef == null;
  }

  /** The order React's development mode runs the effects in: mount, the
      marker effect, a simulated unmount, a remount that runs both effects
      again, then the real unmount. The remount makes a new map and draws the
      current potholes on it; the first map is removed. */
  method StrictModeTrace()
  {
    var component := new MinimalMapComponent();
    component.MountMap();
    var first := component.mapRef;
    component.ShowPotholes();
    component.Teardown();
    assert component.mapRef == null && first.removed;
    component.MountMap();
    var second := component.mapRef;
    assert second != first && !second.removed && second.tileLayers == [TileUrl];
    assert second.markers == [];
    component.ShowPotholes();
    assert second.markers == Markers(component.potholes);
    component.Teardown();
    assert component.mapRef == null && second.removed;
  }
}
