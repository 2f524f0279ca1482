/**
 * The located records the pages hold. Coordinates are opaque: the model only
 * copies them, so they are reals with no arithmetic done on them.
 */
module Entities {

  /** A `[lat, lng]` pair, as passed to the map. */
  datatype LatLng = LatLng(lat: real, lng: real)

  /** The `Event` record of the event-list pages (`EventSearch`, `SearchLocation`). */
  datatype Event = Event(
    id: string,
    title: string,
    date: string,
    location: string,
    imageUrl: string,
    category: string,
    lat: real,
    lng: real)

  /** A stop of a date course (`SearchDateCourse`). */
  datatype Place = Place(
    id: string,
    name: string,
    category: string,
    address: string,
    timeSpent: string,
    lat: real,
    lng: real)

  /** No value occurs twice in `s`. */
  predicate Distinct<T(==)>(s: seq<T>) {
    forall i, j :: 0 <= i < j < |s| ==> s[i] != s[j]
  }

  /** The key `find` looks events up by. */
  function EventId(e: Event): string {
    e.id
  }

  /** The key `find` looks places up by. */
  function PlaceId(p: Place): string {
    p.id
  }

  function EventIds(events: seq<Event>): seq<string> {
    seq(|events|, i requires 0 <= i < |events| => events[i].id)
  }

  function PlaceIds(places: seq<Place>): seq<string> {
    seq(|places|, i requires 0 <= i < |places| => places[i].id)
  }
}
