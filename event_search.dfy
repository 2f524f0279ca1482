/**
 * `EventSearch`: the home page. A map of the built-in events above their cards; a
 * marker click or a card click selects an event, and a stored map handle lets the
 * page move the map.
 */
module EventSearch {
  import opened Wrappers
  import opened Entities
  import EventCard
  import Selection
  import MapWidget

  /** The page's built-in events. */
  const MockEvents: seq<Event> := [
    Event("1", "Community Art Workshop", "Today, 14:00 - 16:00", "Community Center, Room 201",
      "https://images.unsplash.com/photo-1508700115892-45ecd05ae2ad?ixlib=rb-4.0.3&ixid=M3wxMjA3fDB8MHxwaG90by1wYWdlfHx8fGVufDB8fHx8fA%3D%3D&auto=format&fit=crop&w=2000&q=80",
      "Workshop", 37.5665, 126.9780),
    Event("2", "Jazz Night at Blue Note", "Tomorrow, 20:00 - 23:00", "Blue Note Jazz Club",
      "https://images.unsplash.com/photo-1470229722913-7c0e2dbbafd3?ixlib=rb-4.0.3&ixid=M3wxMjA3fDB8MHxwaG90by1wYWdlfHx8fGVufDB8fHx8fA%3D%3D&auto=format&fit=crop&w=2000&q=80",
      "Music", 37.5730, 126.9768),
    Event("3", "Weekend Farmers Market", "This Saturday, 09:00 - 15:00", "Central Park",
      "https://images.unsplash.com/photo-1556911220-bff31c812dba?ixlib=rb-4.0.3&ixid=M3wxMjA3fDB8MHxwaG90by1wYWdlfHx8fGVufDB8fHx8fA%3D%3D&auto=format&fit=crop&w=2000&q=80",
      "Market", 37.5758, 126.9734)
  ]

  /** The zoom of the fly-to on a card click. */
  const CardFlyZoom: real := 15.0

  /** A request the page makes on the map handle it stored. */
  datatype ViewRequest =
    | FitBounds(points: seq<LatLng>)       // `fitBounds` over these points (padding left to Leaflet)
    | FlyTo(center: LatLng, zoom: real)   // an animated move to `center` at `zoom`

  /**
   * The events as passed to the map: `{...event, description: event.location}`; the map
   * keeps id, position, title and category, and the description is the location. Their
   * positions are also the points the page's own `fitBounds` calls cover.
   */
  function MapEvents(events: seq<Event>): (r: seq<MapWidget.EventLocation>)
    ensures |r| == |events|
    ensures forall i :: 0 <= i < |events| ==>
      r[i].id == events[i].id && r[i].title == events[i].title && r[i].category == events[i].category
      && r[i].description == Some(events[i].location)
      && MapWidget.Position(r[i]) == LatLng(events[i].lat, events[i].lng)
  {
    seq(|events|, i requires 0 <= i < |events| =>
      MapWidget.EventLocation(events[i].id, events[i].lat, events[i].lng, events[i].title,
        Some(events[i].location), events[i].category))
  }

  /** The element ids of the rendered cards, in list order. */
  function CardElementIds(events: seq<Event>): seq<string> {
    seq(|events|, i requires 0 <= i < |events| => EventCard.ElementId(events[i].id))
  }

  class EventSearchPage {
    var events: seq<Event>
    var selectedEventId: Option<string>
    var mapStored: bool          // `mapRef.current` holds the map handle
    var loading: bool

    constructor ()
      ensures events == MockEvents && selectedEventId.None? && !mapStored && loading
    {
      events, selectedEventId, mapStored, loading := MockEvents, None, false, true;
    }

    /** The mount effect: loading ends at once, since the events are built in. */
    method LoadEffect()
      modifies this
      ensures !loading
      ensures events == old(events) && selectedEventId == old(selectedEventId) && mapStored == old(mapStored)
    {
      loading := false;
    }

    /** `handleMapReady`: store the handle, and fit the map to the events when there are any. */
    method HandleMapReady() returns (request: Option<ViewRequest>)
      modifies this
      ensures mapStored
      ensures request.Some? <==> |events| > 0
      ensures request.Some? ==> request.value == FitBounds(MapWidget.Positions(MapEvents(events)))
      ensures events == old(events) && selectedEventId == old(selectedEventId) && loading == old(loading)
    {
      mapStored := true;
      request := None;
      if |events| > 0 {
        request := Some(FitBounds(MapWidget.Positions(MapEvents(events))));
      }
    }

    /**
     * `handleMarkerClick`: select the id whatever it is, and ask to scroll to the card with
     * that element id when such a card is rendered.
     */
    method HandleMarkerClick(id: string) returns (scrollTarget: Option<string>)
      modifies this
      ensures selectedEventId == Some(id)
      ensures scrollTarget.Some? <==> id in EventIds(events)
      ensures scrollTarget.Some? ==> scrollTarget.value == EventCard.ElementId(id)
      ensures events == old(events) && mapStored == old(mapStored) && loading == old(loading)
    {
      selectedEventId := Some(id);
      scrollTarget := None;
      var target := EventCard.ElementId(id);
      forall i | 0 <= i < |events| ensures CardElementIds(events)[i] == target <==> events[i].id == id {
        EventCard.IdsInjective(events[i].id, id);
      }
      assert target in CardElementIds(events) <==> id in EventIds(events) by {
        if id in EventIds(events) {
          var i :| 0 <= i < |events| && EventIds(events)[i] == id;
          assert CardElementIds(events)[i] == target;
        }
        if target in CardElementIds(events) {
          var i :| 0 <= i < |events| && CardElementIds(events)[i] == target;
          assert EventIds(events)[i] == id;
        }
      }
      if target in CardElementIds(events) {
        scrollTarget := Some(EventCard.ElementId(id));
      }
    }

    /** `handleEventCardClick`: select the card's event and fly to it when a map is stored. */
    method HandleEventCardClick(e: Event) returns (request: Option<ViewRequest>)
      modifies this
      ensures selectedEventId == Some(e.id)
      ensures request.Some? <==> mapStored
      ensures request.Some? ==> request.value == FlyTo(LatLng(e.lat, e.lng), CardFlyZoom)
      ensures events == old(events) && mapStored == old(mapStored) && loading == old(loading)
    {
      selectedEventId := Some(e.id);
      request := None;
      if mapStored {
        request := Some(FlyTo(LatLng(e.lat, e.lng), CardFlyZoom));
      }
    }

    /** A click on a card: its `onClick` runs the card-click handler and suppresses the link. */
    method CardClick(e: Event) returns (request: Option<ViewRequest>, navigatesTo: Option<string>)
      modifies this
      ensures selectedEventId == Some(e.id) && navigatesTo.None?
      ensures request.Some? <==> mapStored
      ensures request.Some? ==> request.value == FlyTo(LatLng(e.lat, e.lng), CardFlyZoom)
      ensures events == old(events) && mapStored == old(mapStored) && loading == old(loading)
    {
      var click := EventCard.Click(e.id, true);
      request := HandleEventCardClick(e);
      navigatesTo := click.navigatesTo;
    }

    /** `handleSearch`: only logs the query. */
    method HandleSearch(query: string)
      ensures events == old(events) && selectedEventId == old(selectedEventId)
    {
    }

    /** "Show all on map": fit to the events when a map is stored and there are events. */
    method ShowAllOnMap() returns (request: Option<ViewRequest>)
      ensures request.Some? <==> mapStored && |events| > 0
      ensures request.Some? ==> request.value == FitBounds(MapWidget.Positions(MapEvents(events)))
    {
      request := None;
      if mapStored && |events| > 0 {
        request := Some(FitBounds(MapWidget.Positions(MapEvents(events))));
      }
    }

    /** The cards' highlight: exactly the card whose id is the selected id. */
    function CardHighlights(): (r: seq<bool>)
      reads this
      ensures |r| == |events|
      ensures forall i :: 0 <= i < |events| ==> (r[i] <==> selectedEventId == Some(events[i].id))
      ensures (selectedEventId.None? || selectedEventId.value !in EventIds(events)) ==>
        forall i :: 0 <= i < |r| ==> !r[i]
    {
      Selection.Highlights(EventIds(events), selectedEventId)
    }
  }

  /** The built-in events have distinct ids, so at most one card is highlighted. */
  lemma MockCardsHighlightAtMostOne(selected: Option<string>)
    ensures var r := Selection.Highlights(EventIds(MockEvents), selected);
      forall i, j :: 0 <= i < |r| && 0 <= j < |r| && r[i] && r[j] ==> i == j
  {
    assert Distinct(EventIds(MockEvents));
  }
}
