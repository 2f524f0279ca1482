/**
 * `SearchDateCourse`: a fixed course of places, shown as a numbered list of stops
 * and as markers joined by a route on the map.
 */
module SearchDateCourse {
  import opened Wrappers
  import opened Entities
  import Selection
  import MapWidget

  /** The course's stops, in visiting order. */
  const MockPlaces: seq<Place> := [
    Place("1", "Café Miel", "Coffee", "123 Coffee Street, Seoul", "45 min", 37.5665, 126.9780),
    Place("2", "Art Gallery", "Museum", "456 Art Avenue, Seoul", "1.5 hours", 37.5730, 126.9768),
    Place("3", "Riverside Park", "Outdoor", "789 Riverside Road, Seoul", "1 hour", 37.5758, 126.9734),
    Place("4", "Italian Restaurant", "Dining", "101 Pasta Street, Seoul", "1.5 hours", 37.5770, 126.9710)
  ]

  /** The props the page passes to its map. */
  datatype MapProps = MapProps(
    events: seq<MapWidget.EventLocation>,
    center: LatLng,
    zoom: real,
    showRoute: bool)

  /**
   * The map's props for the course: every place in order, titled by its name, with the
   * route on. They depend on the places only, not on the selection.
   */
  function CourseMapProps(places: seq<Place>): (r: MapProps)
    ensures |r.events| == |places| && r.showRoute
    ensures r.center == LatLng(37.5665, 126.9780) && r.zoom == 14.0
    ensures forall i :: 0 <= i < |places| ==>
      r.events[i].id == places[i].id && r.events[i].title == places[i].name
      && r.events[i].category == places[i].category && r.events[i].description.None?
      && MapWidget.Position(r.events[i]) == LatLng(places[i].lat, places[i].lng)
  {
    MapProps(
      seq(|places|, i requires 0 <= i < |places| =>
        MapWidget.EventLocation(places[i].id, places[i].lat, places[i].lng, places[i].name, None,
          places[i].category)),
      LatLng(37.5665, 126.9780),
      14.0,
      true)
  }

  /**
   * The number in each stop's badge, `index + 1`: the badges of `n` stops are exactly
   * 1..n, each once, rising down the list, the first 1 and the last `n`.
   */
  function StopNumbers(n: nat): (r: seq<nat>)
    ensures |r| == n
    ensures forall k :: k in r <==> 1 <= k <= n
    ensures Distinct(r)
    ensures forall i, j :: 0 <= i < j < n ==> r[i] < r[j]
    ensures n > 0 ==> r[0] == 1 && r[n - 1] == n
  {
    var r := seq(n, i requires 0 <= i < n => i + 1);
    NumberedFromOne(r);
    r
  }

  /** A list numbered `index + 1` holds each of 1..|r|, and nothing else. */
  lemma NumberedFromOne(r: seq<nat>)
    requires forall i :: 0 <= i < |r| ==> r[i] == i + 1
    ensures forall k :: k in r <==> 1 <= k <= |r|
  {
    forall k | 1 <= k <= |r| ensures k in r {
      assert r[k - 1] == k;
    }
  }

  /** Whether a connector follows each stop: after every row but the last. */
  function Connectors(n: nat): (r: seq<bool>)
    ensures |r| == n
    ensures forall i :: 0 <= i < n ==> (r[i] <==> i < n - 1)
  {
    seq(n, i requires 0 <= i < n => i < n - 1)
  }

  /** How many of the flags are set. */
  function CountTrue(flags: seq<bool>): nat {
    if flags == [] then 0 else (if flags[0] then 1 else 0) + CountTrue(flags[1..])
  }

  /** A course of `n` stops draws `n - 1` connectors (none for an empty course). */
  lemma {:induction false} ConnectorCount(n: nat)
    ensures CountTrue(Connectors(n)) == if n == 0 then 0 else n - 1
  {
    if n > 0 {
      CountPrefix(Connectors(n), n - 1);
    }
  }

  /** Flags that are set exactly below index `k` count `k`. */
  lemma {:induction false} CountPrefix(flags: seq<bool>, k: nat)
    requires k <= |flags|
    requires forall i :: 0 <= i < |flags| ==> (flags[i] <==> i < k)
    ensures CountTrue(flags) == k
  {
    if flags != [] {
      var tail := flags[1..];
      if k > 0 {
        CountPrefix(tail, k - 1);
      } else {
        CountPrefix(tail, 0);
      }
    }
  }

  class DateCoursePage {
    var selectedPlace: Option<Place>
    const places: seq<Place>
    const searchQuery: string

    /** The page with its `q` parameter (read once, unused by the rendering). */
    constructor (query: Option<string>)
      ensures selectedPlace.None? && places == MockPlaces && searchQuery == query.GetOr("")
    {
      selectedPlace := None;
      places := MockPlaces;
      searchQuery := query.GetOr("");
    }

    /** `handlePlaceSelect`, also a row's click handler: select that place. */
    method HandlePlaceSelect(p: Place)
      modifies this
      ensures selectedPlace == Some(p)
    {
      selectedPlace := Some(p);
    }

    /** The map's marker-click handler: a known id selects its place, an unknown one changes nothing. */
    method HandleMarkerClick(id: string)
      modifies this
      ensures (exists i :: 0 <= i < |places| && places[i].id == id) ==>
        selectedPlace == Selection.FindBy(places, PlaceId, id)
        && selectedPlace.Some? && selectedPlace.value in places && selectedPlace.value.id == id
      ensures (forall i :: 0 <= i < |places| ==> places[i].id != id) ==> selectedPlace == old(selectedPlace)
    {
      var found := Selection.FindBy(places, PlaceId, id);
      if found.Some? {
        HandlePlaceSelect(found.value);
      }
    }

    /** The rows' highlight: exactly the row whose id is the selected place's. */
    function RowHighlights(): (r: seq<bool>)
      reads this
      ensures |r| == |places|
      ensures forall i :: 0 <= i < |places| ==>
        (r[i] <==> selectedPlace.Some? && selectedPlace.value.id == places[i].id)
      ensures selectedPlace.None? ==> forall i :: 0 <= i < |r| ==> !r[i]
    {
      Selection.Highlights(PlaceIds(places), if selectedPlace.Some? then Some(selectedPlace.value.id) else None)
    }
  }

  /** The course's places have distinct ids, so a selection highlights at most one row. */
  lemma CourseHighlightsAtMostOne(selected: Option<string>)
    ensures var r := Selection.Highlights(PlaceIds(MockPlaces), selected);
      forall i, j :: 0 <= i < |r| && 0 <= j < |r| && r[i] && r[j] ==> i == j
  {
    assert Distinct(PlaceIds(MockPlaces));
  }
}
