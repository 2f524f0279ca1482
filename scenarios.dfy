/**
 * Uses of the map component that chain several updates, as the pages drive it.
 */
module MapScenarios {
  import opened Wrappers
  import opened Entities
  import opened MapWidget
  import SearchDateCourse
  import EventSearch

  /** The same events twice in a row: still exactly one marker per event on the map. */
  method UpdateTwice(m: MapComponent, events: seq<EventLocation>, hasOnMarkerClick: bool, showRoute: bool)
    requires m.Valid() && m.mapAlive && m.initialized
    modifies m
    ensures m.Valid()
    ensures |m.markers| == |events| && |m.markerLayers| == |events|
    ensures MarkerPositions(m.markers) == Positions(events)
  {
    m.Rerender(events, hasOnMarkerClick, showRoute);
    m.Rerender(events, hasOnMarkerClick, showRoute);
    assert MarkerPositions(m.markers) == Positions(events);
  }

  /**
   * Two events with the route on draw one line through both in order; turning the route
   * off removes the line and puts the markers back at the same positions.
   */
  method RouteToggle(m: MapComponent) returns (drawn: Option<seq<LatLng>>, markersBefore: seq<LatLng>)
    requires m.Valid() && m.mapAlive && m.initialized
    modifies m
    ensures drawn == Some([LatLng(37.5665, 126.9780), LatLng(37.5730, 126.9768)])
    ensures markersBefore == [LatLng(37.5665, 126.9780), LatLng(37.5730, 126.9768)]
    ensures m.Valid() && m.route.None? && MarkerPositions(m.markers) == markersBefore
  {
    var a := EventLocation("1", 37.5665, 126.9780, "A", None, "Workshop");
    var b := EventLocation("2", 37.5730, 126.9768, "B", None, "Music");
    m.Rerender([a, b], true, true);
    assert Positions([a, b]) == [LatLng(37.5665, 126.9780), LatLng(37.5730, 126.9768)];
    drawn := m.route;
    markersBefore := MarkerPositions(m.markers);
    assert markersBefore == Positions([a, b]);
    m.Rerender([a, b], true, false);
    assert MarkerPositions(m.markers) == Positions([a, b]);
  }

  /** The date course on a freshly initialized map: four markers and a route through the stops in order. */
  method ShowCourse(m: MapComponent)
    requires m.Valid() && m.mapAlive && m.initialized
    modifies m
    ensures m.Valid() && |m.markers| == 4
    ensures m.route == Some(seq(4, i requires 0 <= i < 4 =>
      LatLng(SearchDateCourse.MockPlaces[i].lat, SearchDateCourse.MockPlaces[i].lng)))
  {
    var props := SearchDateCourse.CourseMapProps(SearchDateCourse.MockPlaces);
    m.Rerender(props.events, true, props.showRoute);
    assert Positions(props.events) == seq(4, i requires 0 <= i < 4 =>
      LatLng(SearchDateCourse.MockPlaces[i].lat, SearchDateCourse.MockPlaces[i].lng));
  }

  /**
   * A click on a card that is not yet selected, on the home page, followed by the
   * re-render the changed selection causes. The page passes a new `events` array on
   * every render, so the marker effect runs again. The last view request is then the
   * fit over all events, not the fly-to the card asked for. (Clicking the selected card
   * again stores an equal id, React skips the re-render, and the fly-to stands.)
   */
  method CardClickRefits(page: EventSearch.EventSearchPage, m: MapComponent, e: Event)
      returns (request: Option<EventSearch.ViewRequest>)
    requires m.Valid() && m.mapAlive && m.initialized && page.mapStored && |page.events| > 0
    requires page.selectedEventId != Some(e.id)
    modifies page, m
    ensures request == Some(EventSearch.FlyTo(LatLng(e.lat, e.lng), EventSearch.CardFlyZoom))
    ensures page.selectedEventId == Some(e.id)
    ensures m.Valid() && m.view == FittedTo(Positions(EventSearch.MapEvents(page.events)))
  {
    var navigatesTo;
    request, navigatesTo := page.CardClick(e);
    m.Rerender(EventSearch.MapEvents(page.events), true, false);
  }
}
