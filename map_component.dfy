/**
 * `Map`: a component that owns a Leaflet map and keeps its markers and its route
 * line in step with the `events` prop. Leaflet is abstracted to the state the
 * component observes: the marker layers on the map, the drawn route and the view.
 */
module MapWidget {
  import opened Wrappers
  import opened Entities

  /** One entry of the `events` prop. */
  datatype EventLocation = EventLocation(
    id: string,
    lat: real,
    lng: real,
    title: string,
    description: Option<string>,
    category: string)

  function Position(e: EventLocation): LatLng {
    LatLng(e.lat, e.lng)
  }

  /** The events' coordinates in list order. */
  function Positions(events: seq<EventLocation>): seq<LatLng> {
    seq(|events|, i requires 0 <= i < |events| => Position(events[i]))
  }

  /** The `center` and `zoom` props' defaults, used when a page passes none. */
  const DefaultCenter := LatLng(37.5665, 126.9780)
  const DefaultZoom: real := 13.0
  const InitFailureMessage := "Failed to load map. Please try again later."

  /** The map's view, as the last view request that set it. */
  datatype View =
    | NoView                          // no map exists yet
    | SetTo(center: LatLng, zoom: real) // `setView(center, zoom)`
    | FittedTo(points: seq<LatLng>)     // `fitBounds` over these points (padding left to Leaflet)

  /** A Leaflet marker: a layer object at a position, with an optional click listener. */
  class Marker {
    const position: LatLng
    /** The id the click listener reports, or `None` when no listener is bound. */
    const clickReports: Option<string>

    constructor (position: LatLng, clickReports: Option<string>)
      ensures this.position == position && this.clickReports == clickReports
    {
      this.position := position;
      this.clickReports := clickReports;
    }
  }

  /** The positions of the given markers, in order. */
  function MarkerPositions(markers: seq<Marker>): seq<LatLng> {
    seq(|markers|, i requires 0 <= i < |markers| => markers[i].position)
  }

  /** What the component renders. */
  datatype Display = ErrorMessage(text: string) | LoadingOverlay | MapShown

  /** A set built from distinct elements has as many elements as the sequence. */
  lemma {:induction false} DistinctCardinality<T>(s: seq<T>)
    requires Distinct(s)
    ensures |set x | x in s| == |s|
  {
    if s != [] {
      var tail := s[1..];
      assert Distinct(tail) by {
        forall i, j | 0 <= i < j < |tail| ensures tail[i] != tail[j] {
          assert tail[i] == s[i + 1] && tail[j] == s[j + 1];
        }
      }
      DistinctCardinality(tail);
      assert (set x | x in s) == (set x | x in tail) + {s[0]};
      assert s[0] !in tail by {
        forall j | 0 <= j < |tail| ensures tail[j] != s[0] {
          assert tail[j] == s[j + 1];
        }
      }
    }
  }

  /** `layers.removeLayer(m)` for each `m` in `markers`, in order. */
  method RemoveLayers(layers: set<Marker>, markers: seq<Marker>) returns (remaining: set<Marker>)
    ensures remaining == layers - set m | m in markers
  {
    remaining := layers;
    var i := 0;
    while i < |markers|
      invariant 0 <= i <= |markers|
      invariant remaining == layers - set m | m in markers[..i]
    {
      assert markers[..i + 1] == markers[..i] + [markers[i]];
      remaining := remaining - {markers[i]};
      i := i + 1;
    }
    assert markers[..i] == markers;
  }

  /** `L.marker([lat, lng])` for each event in order, each a new object. */
  method CreateMarkers(events: seq<EventLocation>, hasOnMarkerClick: bool) returns (drawn: seq<Marker>)
    ensures |drawn| == |events|
    ensures forall j :: 0 <= j < |events| ==>
      drawn[j].position == Position(events[j])
      && drawn[j].clickReports == (if hasOnMarkerClick then Some(events[j].id) else None)
    ensures forall j :: 0 <= j < |drawn| ==> fresh(drawn[j])
    ensures Distinct(drawn)
  {
    drawn := [];
    var k := 0;
    while k < |events|
      invariant 0 <= k <= |events| && |drawn| == k
      invariant forall j :: 0 <= j < k ==>
        drawn[j].position == Position(events[j])
        && drawn[j].clickReports == (if hasOnMarkerClick then Some(events[j].id) else None)
      invariant forall j :: 0 <= j < k ==> fresh(drawn[j])
      invariant Distinct(drawn)
    {
      var e := events[k];
      var marker := new Marker(LatLng(e.lat, e.lng), if hasOnMarkerClick then Some(e.id) else None);
      drawn := drawn + [marker];
      k := k + 1;
    }
  }

  class MapComponent {
    // The Leaflet map (`mapRef.current`) and what is attached to it.
    var mapAlive: bool
    var view: View
    var markerLayers: set<Marker>
    var observingResize: bool
    // The component's refs and state.
    var markers: seq<Marker>              // `markersRef.current`
    var route: Option<seq<LatLng>>        // `routeLineRef.current`: the drawn polyline's points
    var routeCleanupPending: bool         // the last marker-effect run returned its cleanup
    var initialized: bool                 // `mapInitialized`
    var error: Option<string>             // `mapError`
    var mountEffectRan: bool              // the mount effect has run (its dependency list is empty)

    /** The component's invariant. */
    ghost predicate Valid()
      reads this
    {
      && (initialized ==> mapAlive)
      && (mapAlive ==> markerLayers == set m | m in markers)
      && (!mapAlive ==> markerLayers == {})
      && Distinct(markers)
      && (route.Some? ==> routeCleanupPending && |route.value| >= 2)
      && (!mountEffectRan ==> !mapAlive && markers == [] && route.None? && !routeCleanupPending && error.None?)
      && (error.Some? ==> !mapAlive)
    }

    /** The state before the first render's effects. */
    constructor ()
      ensures Valid()
      ensures !mountEffectRan && !mapAlive && !initialized && error.None?
      ensures markers == [] && route.None? && view == NoView
    {
      mapAlive, view, markerLayers, observingResize := false, NoView, {}, false;
      markers, route, routeCleanupPending := [], None, false;
      initialized, error, mountEffectRan := false, None, false;
    }

    /** What the component renders: the error text, the map under a loading overlay, or the map. */
    function Render(): (r: Display)
      reads this
      ensures r.ErrorMessage? <==> error.Some?
      ensures r == LoadingOverlay <==> error.None? && !initialized
    {
      if error.Some? then ErrorMessage(error.value)
      else if !initialized then LoadingOverlay
      else MapShown
    }

    /**
     * The mount effect. It runs once; it does nothing when the map is already initialized
     * or the container element is missing. Creating the map may throw (`libraryFails`),
     * which sets the error message instead. On success the view is set to the `center`
     * and `zoom` props (`None` when not passed, so the defaults apply), the resize observer is attached, and `onMapReady` (if given) is called.
     */
    method InitEffect(containerPresent: bool, libraryFails: bool, center: Option<LatLng>, zoom: Option<real>,
                      hasOnMapReady: bool) returns (readyCalled: bool)
      requires Valid()
      modifies this
      ensures Valid() && mountEffectRan
      ensures old(mountEffectRan || initialized || !containerPresent) ==>
        !readyCalled && mapAlive == old(mapAlive) && initialized == old(initialized) && view == old(view)
        && error == old(error) && markers == old(markers) && route == old(route)
        && markerLayers == old(markerLayers) && observingResize == old(observingResize)
        && routeCleanupPending == old(routeCleanupPending)
      ensures !old(mountEffectRan || initialized || !containerPresent) && libraryFails ==>
        !readyCalled && error == Some(InitFailureMessage) && !mapAlive && !initialized
        && Render() == ErrorMessage(InitFailureMessage)
        && view == old(view) && observingResize == old(observingResize) && markers == old(markers)
        && markerLayers == old(markerLayers) && route == old(route)
        && routeCleanupPending == old(routeCleanupPending)
      ensures !old(mountEffectRan || initialized || !containerPresent) && !libraryFails ==>
        readyCalled == hasOnMapReady && mapAlive && initialized && observingResize
        && view == SetTo(center.GetOr(DefaultCenter), zoom.GetOr(DefaultZoom)) && markerLayers == {} && markers == [] && route.None?
        && !routeCleanupPending
        && error.None? && Render() == MapShown
    {
      readyCalled := false;
      if mountEffectRan {
        return;
      }
      mountEffectRan := true;
      if initialized || !containerPresent {
        return;
      }
      if libraryFails {
        error := Some(InitFailureMessage);
        return;
      }
      mapAlive := true;
      view := SetTo(center.GetOr(DefaultCenter), zoom.GetOr(DefaultZoom));
      markerLayers := {};
      initialized := true;
      observingResize := true;
      readyCalled := hasOnMapReady;
    }

    /**
     * The mount effect's cleanup, registered only when the map was created: disconnect the
     * observer, remove the map, clear the map ref and the initialized flag.
     */
    method Teardown()
      requires Valid()
      modifies this
      ensures Valid()
      ensures !mapAlive && !initialized && markerLayers == {}
      ensures old(mapAlive) ==> !observingResize && view == NoView
      ensures !old(mapAlive) ==> view == old(view) && observingResize == old(observingResize)
      ensures error == old(error) && markers == old(markers) && route == old(route)
      ensures routeCleanupPending == old(routeCleanupPending) && mountEffectRan == old(mountEffectRan)
    {
      if mapAlive {
        observingResize := false;
        mapAlive := false;
        view := NoView;
        markerLayers := {};
        initialized := false;
      }
    }

    /**
     * The marker effect's body. Unless the map is missing or uninitialized, it removes every
     * marker it drew before, adds one marker per event in order (bound to report the event's
     * id on click when `onMarkerClick` is given), fits the view to them when there is at least
     * one, and when `showRoute` is on and there are at least two events, replaces the route
     * with a line through the events in order.
     */
    method MarkersEffect(events: seq<EventLocation>, hasOnMarkerClick: bool, showRoute: bool)
      requires Valid()
      modifies this
      ensures Valid()
      ensures !old(mapAlive && initialized) ==>
        markers == old(markers) && markerLayers == old(markerLayers) && view == old(view)
        && route == old(route) && routeCleanupPending == old(routeCleanupPending)
      ensures old(mapAlive && initialized) ==>
        && |markers| == |events|
        && (forall i :: 0 <= i < |events| ==>
              markers[i].position == Position(events[i])
              && markers[i].clickReports == (if hasOnMarkerClick then Some(events[i].id) else None))
        && (forall i :: 0 <= i < |markers| ==> fresh(markers[i]))
        && markerLayers == (set m | m in markers) && |markerLayers| == |events|
        && view == (if events == [] then old(view) else FittedTo(Positions(events)))
        && route == (if showRoute && |events| >= 2 then Some(Positions(events)) else old(route))
        && routeCleanupPending
      ensures mapAlive == old(mapAlive) && initialized == old(initialized) && error == old(error)
      ensures observingResize == old(observingResize) && mountEffectRan == old(mountEffectRan)
    {
      if !mapAlive || !initialized {
        return;
      }
      // Clear the existing markers, then add one per event.
      var remaining := RemoveLayers(markerLayers, markers);
      var drawn := CreateMarkers(events, hasOnMarkerClick);
      assert remaining == {};
      markers, markerLayers := drawn, set m | m in drawn;
      DistinctCardinality(markers);
      assert MarkerPositions(markers) == Positions(events);
      // Fit the view to the markers.
      if |events| > 0 {
        view := FittedTo(MarkerPositions(markers));
      }
      // Draw the route.
      if showRoute && |events| >= 2 {
        var routePoints := Positions(events);
        if route.Some? {
          route := None;
        }
        route := Some(routePoints);
      }
      routeCleanupPending := true;
    }

    /** The marker effect's cleanup: remove the route, if one is drawn. */
    method MarkersCleanup()
      requires Valid()
      modifies this
      ensures Valid()
      ensures route.None? && !routeCleanupPending
      ensures markers == old(markers) && markerLayers == old(markerLayers) && view == old(view)
      ensures mapAlive == old(mapAlive) && initialized == old(initialized) && error == old(error)
      ensures observingResize == old(observingResize) && mountEffectRan == old(mountEffectRan)
    {
      if route.Some? {
        route := None;
      }
      routeCleanupPending := false;
    }

    /**
     * A change of `events`, `onMarkerClick`, `showRoute` or `mapInitialized`: the previous
     * run's cleanup (if it registered one), then the effect body. Afterwards, on an
     * initialized map, the markers match the events one to one and the route exists iff
     * `showRoute` is on and there are at least two events.
     */
    method Rerender(events: seq<EventLocation>, hasOnMarkerClick: bool, showRoute: bool)
      requires Valid()
      modifies this
      ensures Valid()
      ensures !old(mapAlive && initialized) ==>
        markers == old(markers) && markerLayers == old(markerLayers) && view == old(view)
        && route.None?
      ensures old(mapAlive && initialized) ==>
        && |markers| == |events|
        && (forall i :: 0 <= i < |events| ==>
              markers[i].position == Position(events[i])
              && markers[i].clickReports == (if hasOnMarkerClick then Some(events[i].id) else None))
        && (forall i :: 0 <= i < |markers| ==> fresh(markers[i]))
        && markerLayers == (set m | m in markers) && |markerLayers| == |events|
        && view == (if events == [] then old(view) else FittedTo(Positions(events)))
        && route == (if showRoute && |events| >= 2 then Some(Positions(events)) else None)
      ensures routeCleanupPending == old(mapAlive && initialized)
      ensures mapAlive == old(mapAlive) && initialized == old(initialized) && error == old(error)
      ensures observingResize == old(observingResize) && mountEffectRan == old(mountEffectRan)
    {
      if routeCleanupPending {
        MarkersCleanup();
      }
      MarkersEffect(events, hasOnMarkerClick, showRoute);
    }
  }
}
