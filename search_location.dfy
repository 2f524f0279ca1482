/**
 * `SearchLocation`: events filtered by the `q` search parameter (falling back to the
 * whole list when nothing matches), a map of them and a selectable list.
 */
module SearchLocation {
  import opened Wrappers
  import opened JsText
  import opened Entities
  import Selection
  import EventCard
  import MapWidget

  /** The page's built-in events. */
  const MockEvents: seq<Event> := [
    Event("1", "Community Art Workshop", "Today, 14:00 - 16:00", "Community Center, Room 201",
      "https://images.unsplash.com/photo-1508700115892-45ecd05ae2ad?ixlib=rb-4.0.3&ixid=M3wxMjA3fDB8MHxwaG90by1wYWdlfHx8fGVufDB8fHx8fA%3D%3D&auto=format&fit=crop&w=2000&q=80",
      "Workshop", 37.5665, 126.9780),
    Event("2", "Jazz Night at Blue Note", "Tomorrow, 20:00 - 23:00", "Blue Note Jazz Club",
      "https://images.unsplash.com/photo-1470229722913-7c0e2dbbafd3?ixlib=rb-4.0.3&ixid=M3wxMjA3fDB8MHxwaG90by1wYWdlfHx8fGVufDB8fHx8fA%3D%3D&auto=format&fit=crop&w=2000&q=80",
      "Music", 37.5730, 126.9768),
    Event("3", "Weekend Farmers Market", "This Saturday, 09:00 - 15:00", "Central Park",
      "https://images.unsplash.com/photo-1556911220-bff31c812dba?ixlib=rb-4.0.3&ixid=M3wxMjA3fDB8MHxwaG90by1wYWdlfHx8fGVufDB8fHx8fA%3D%3D&auto=format&fit=crop&w=2000&q=80",
      "Market", 37.5758, 126.9734),
    Event("4", "Tech Conference 2023", "June 20, 10:00 - 18:00", "Convention Center",
      "https://images.unsplash.com/photo-1505373877841-8d25f7d46678?ixlib=rb-4.0.3&ixid=M3wxMjA3fDB8MHxwaG90by1wYWdlfHx8fGVufDB8fHx8fA%3D%3D&auto=format&fit=crop&w=2000&q=80",
      "Conference", 37.5700, 126.9775)
  ]

  /** The event's title, location or category contains the query, ignoring letter case. */
  predicate Matches(e: Event, query: string) {
    var q := LowerStr(query);
    Includes(LowerStr(e.title), q) || Includes(LowerStr(e.location), q) || Includes(LowerStr(e.category), q)
  }

  /** `events.filter(e => Matches(e, query))`: the matching events, in their original order. */
  function Matching(events: seq<Event>, query: string): (r: seq<Event>)
    ensures |r| <= |events|
    ensures forall e :: e in r ==> e in events && Matches(e, query)
    ensures forall e :: e in events && Matches(e, query) ==> e in r
  {
    if events == [] then []
    else
      var rest := Matching(events[1..], query);
      assert forall e :: e in events ==> e == events[0] || e in events[1..];
      if Matches(events[0], query) then [events[0]] + rest else rest
  }

  /** Filtering a concatenation filters each part: the filter keeps the list's order. */
  lemma {:induction false} MatchingConcat(a: seq<Event>, b: seq<Event>, query: string)
    ensures Matching(a + b, query) == Matching(a, query) + Matching(b, query)
  {
    if a == [] {
      assert a + b == b;
    } else {
      assert (a + b)[1..] == a[1..] + b;
      MatchingConcat(a[1..], b, query);
    }
  }

  /**
   * The events shown for the `q` parameter `query` (`null` when absent): all of `mock`
   * for an absent or empty query, else the matching ones, or all of `mock` when none match.
   */
  function SearchResults(mock: seq<Event>, query: Option<string>): (r: seq<Event>)
    ensures query.None? || query == Some("") ==> r == mock
    ensures forall e :: e in r ==> e in mock
    ensures |mock| > 0 ==> |r| > 0
    ensures query.Some? && query.value != "" && (exists e :: e in mock && Matches(e, query.value)) ==>
      forall e :: e in r <==> e in mock && Matches(e, query.value)
    ensures query.Some? && (forall e :: e in mock ==> !Matches(e, query.value)) ==> r == mock
    ensures query.Some? && query.value != "" && Matching(mock, query.value) != [] ==>
      r == Matching(mock, query.value)
  {
    if query.Some? && query.value != "" then
      var filtered := Matching(mock, query.value);
      assert |filtered| > 0 ==> filtered[0] in filtered;
      if |filtered| > 0 then filtered else mock
    else mock
  }

  /** Filtering keeps ids distinct: it only drops events. */
  lemma {:induction false} MatchingKeepsDistinctIds(events: seq<Event>, query: string)
    requires Distinct(EventIds(events))
    ensures Distinct(EventIds(Matching(events, query)))
  {
    if events != [] {
      var tail := events[1..];
      assert Distinct(EventIds(tail)) by {
        forall i, j | 0 <= i < j < |tail| ensures EventIds(tail)[i] != EventIds(tail)[j] {
          assert EventIds(events)[i + 1] == EventIds(tail)[i];
          assert EventIds(events)[j + 1] == EventIds(tail)[j];
        }
      }
      MatchingKeepsDistinctIds(tail, query);
      var rest := Matching(tail, query);
      if Matches(events[0], query) {
        var r := [events[0]] + rest;
        forall j | 0 <= j < |rest| ensures rest[j].id != events[0].id {
          assert rest[j] in tail;
          var k :| 0 <= k < |tail| && tail[k] == rest[j];
          assert EventIds(events)[k + 1] == rest[j].id;
          assert EventIds(events)[0] == events[0].id;
        }
        forall i, j | 0 <= i < j < |r| ensures EventIds(r)[i] != EventIds(r)[j] {
          if i == 0 {
            assert r[j] == rest[j - 1];
          } else {
            assert EventIds(rest)[i - 1] == EventIds(r)[i];
            assert EventIds(rest)[j - 1] == EventIds(r)[j];
          }
        }
      }
    }
  }

  /** The page's results for any `q` have distinct ids. */
  lemma ResultsHaveDistinctIds(query: Option<string>)
    ensures Distinct(EventIds(SearchResults(MockEvents, query)))
  {
    assert Distinct(EventIds(MockEvents));
    if query.Some? && query.value != "" {
      MatchingKeepsDistinctIds(MockEvents, query.value);
    }
  }

  /** So on the page, whatever `q` and the selection are, at most one row is highlighted. */
  lemma ResultsHighlightAtMostOne(query: Option<string>, selected: Option<string>)
    ensures var r := Selection.Highlights(EventIds(SearchResults(MockEvents, query)), selected);
      forall i, j :: 0 <= i < |r| && 0 <= j < |r| && r[i] && r[j] ==> i == j
  {
    ResultsHaveDistinctIds(query);
  }

  /** Two queries that differ only in the case of their letters. */
  ghost predicate SameUpToCase(q1: string, q2: string) {
    |q1| == |q2| && forall i :: 0 <= i < |q1| ==> Lower(q1[i]) == Lower(q2[i])
  }

  /** Such queries match the same events. */
  lemma {:induction false} MatchingIgnoresCase(events: seq<Event>, q1: string, q2: string)
    requires SameUpToCase(q1, q2)
    ensures Matching(events, q1) == Matching(events, q2)
  {
    assert LowerStr(q1) == LowerStr(q2);
    if events != [] {
      MatchingIgnoresCase(events[1..], q1, q2);
    }
  }

  /** And give the same results. */
  lemma ResultsIgnoreCase(mock: seq<Event>, q1: string, q2: string)
    requires SameUpToCase(q1, q2)
    ensures SearchResults(mock, Some(q1)) == SearchResults(mock, Some(q2))
  {
    MatchingIgnoresCase(mock, q1, q2);
  }

  /** Lowercasing the query first changes nothing. */
  lemma ResultsIgnoreLowercasing(mock: seq<Event>, query: string)
    ensures SearchResults(mock, Some(LowerStr(query))) == SearchResults(mock, Some(query))
  {
    assert SameUpToCase(LowerStr(query), query);
    ResultsIgnoreCase(mock, LowerStr(query), query);
  }

  /** The events as passed to the page's map: no description. */
  function MapEvents(events: seq<Event>): (r: seq<MapWidget.EventLocation>)
    ensures |r| == |events|
    ensures forall i :: 0 <= i < |events| ==>
      r[i].id == events[i].id && r[i].title == events[i].title && r[i].category == events[i].category
      && MapWidget.Position(r[i]) == LatLng(events[i].lat, events[i].lng) && r[i].description.None?
  {
    seq(|events|, i requires 0 <= i < |events| =>
      MapWidget.EventLocation(events[i].id, events[i].lat, events[i].lng, events[i].title, None, events[i].category))
  }

  const AllEventsHeading := "All Events"
  const ResultsPrefix := "Results for \""

  /** The heading for a non-empty query `q`. */
  function QuotedHeading(q: string): string {
    ResultsPrefix + q + "\""
  }

  class SearchLocationPage {
    var searchQuery: string
    var selectedEvent: Option<Event>
    var mapCenter: LatLng
    var events: seq<Event>

    /** The initial state, before the search-parameter effect runs. */
    constructor ()
      ensures searchQuery == "" && selectedEvent.None? && mapCenter == MapWidget.DefaultCenter && events == []
    {
      searchQuery, selectedEvent, mapCenter, events := "", None, MapWidget.DefaultCenter, [];
    }

    /**
     * The effect on a change of the location's search string, with `query` the value of its
     * `q` parameter: the events become the search results; a non-empty query is also stored.
     */
    method OnSearchParams(query: Option<string>)
      modifies this
      ensures events == SearchResults(MockEvents, query) && !ShowsEmptyState()
      ensures searchQuery == (if query.Some? && query.value != "" then query.value else old(searchQuery))
      ensures selectedEvent == old(selectedEvent) && mapCenter == old(mapCenter)
      ensures query.Some? && query.value != "" ==> Heading() == QuotedHeading(query.value)
      ensures Distinct(EventIds(events))
    {
      ResultsHaveDistinctIds(query);
      if query.Some? && query.value != "" {
        searchQuery := query.value;
      }
      events := SearchResults(MockEvents, query);
    }

    /** `handleEventSelect`: select the event and move `mapCenter` to it. */
    method HandleEventSelect(e: Event)
      modifies this
      ensures selectedEvent == Some(e) && mapCenter == LatLng(e.lat, e.lng)
      ensures events == old(events) && searchQuery == old(searchQuery)
    {
      selectedEvent := Some(e);
      mapCenter := LatLng(e.lat, e.lng);
    }

    /**
     * `handleMarkerClick`: an id found in the list selects the first event with it and asks
     * to scroll to its row; an unknown id changes nothing.
     */
    method HandleMarkerClick(id: string) returns (scrollTarget: Option<string>)
      modifies this
      ensures (exists i :: 0 <= i < |events| && events[i].id == id) ==>
        selectedEvent == Selection.FindBy(events, EventId, id)
        && selectedEvent.Some? && selectedEvent.value in events && selectedEvent.value.id == id
        && mapCenter == LatLng(selectedEvent.value.lat, selectedEvent.value.lng)
        && scrollTarget == Some(EventCard.ElementId(id))
      ensures (forall i :: 0 <= i < |events| ==> events[i].id != id) ==>
        selectedEvent == old(selectedEvent) && mapCenter == old(mapCenter) && scrollTarget.None?
      ensures events == old(events) && searchQuery == old(searchQuery)
    {
      scrollTarget := None;
      var found := Selection.FindBy(events, EventId, id);
      if found.Some? {
        HandleEventSelect(found.value);
        scrollTarget := Some(EventCard.ElementId(id));
      }
    }

    /**
     * A click on an event's card: the card has no `onClick`, so its link navigates to the
     * event's page and the click bubbles to the row, which selects the event.
     */
    method HandleCardClick(e: Event) returns (navigatesTo: Option<string>)
      modifies this
      ensures selectedEvent == Some(e) && mapCenter == LatLng(e.lat, e.lng)
      ensures navigatesTo == Some(EventCard.LinkTarget(e.id))
      ensures events == old(events) && searchQuery == old(searchQuery)
    {
      var click := EventCard.Click(e.id, false);
      if !click.propagationStopped {
        HandleEventSelect(e);
      }
      navigatesTo := click.navigatesTo;
    }

    /** "Clear search": the query becomes empty and the list the whole built-in list. */
    method ClearSearch()
      modifies this
      ensures searchQuery == "" && events == MockEvents && Heading() == AllEventsHeading
      ensures selectedEvent == old(selectedEvent) && mapCenter == old(mapCenter)
      ensures Distinct(EventIds(events))
    {
      assert Distinct(EventIds(MockEvents));
      searchQuery := "";
      events := MockEvents;
    }

    /**
     * The rows' highlight: exactly the rows whose id is the selected event's; at most one
     * while the ids are distinct, as after `OnSearchParams` and `ClearSearch`.
     */
    function RowHighlights(): (r: seq<bool>)
      reads this
      ensures |r| == |events|
      ensures forall i :: 0 <= i < |events| ==>
        (r[i] <==> selectedEvent.Some? && selectedEvent.value.id == events[i].id)
      ensures Distinct(EventIds(events)) ==> forall i, j :: 0 <= i < |r| && 0 <= j < |r| && r[i] && r[j] ==> i == j
    {
      Selection.Highlights(EventIds(events), if selectedEvent.Some? then Some(selectedEvent.value.id) else None)
    }

    /** The empty-state panel ("No events found") is shown instead of the list. */
    function ShowsEmptyState(): bool
      reads this
    {
      |events| == 0
    }

    /**
     * The heading above the list: "All Events" exactly when no query is stored; otherwise
     * the query, which reads back unchanged from between the quotes.
     */
    function Heading(): (r: string)
      reads this
      ensures r == AllEventsHeading <==> searchQuery == ""
      ensures searchQuery != "" ==>
        |r| == |ResultsPrefix| + |searchQuery| + 1 && StartsWith(r, ResultsPrefix)
        && r[|r| - 1] == '"' && r[|ResultsPrefix|..|r| - 1] == searchQuery
    {
      if searchQuery != "" then
        var r := QuotedHeading(searchQuery);
        assert |r| == |ResultsPrefix| + |searchQuery| + 1 && r[0] != AllEventsHeading[0];
        assert r[|ResultsPrefix|..|r| - 1] == searchQuery;
        r
      else AllEventsHeading
    }
  }
}
