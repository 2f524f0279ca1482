# date-it: map, search and selection rules

A model of the client-side core of an event-discovery web app (React over Leaflet,
with built-in mock data). It covers:

- the `Map` component: its mount effect (create the Leaflet map once, or show an error),
  its teardown, and the effect that rebuilds the markers and the route whenever the
  `events`, `onMarkerClick` or `showRoute` props (or the initialized flag) change;
- the location search page: the query filter with its fallback to the full list, and
  the marker, row and card handlers that set the selection and the map centre;
- the home page (`EventSearch`): unconditional selection on marker clicks, fly-to on card
  clicks, the fit requests made through the stored map handle;
- the date-course page: stop numbering, connectors, the props given to the map, and
  selection that ignores unknown ids;
- the `Layout` shell (title, back link, active tab, search bar), the `SearchBar`
  submit rule and chips, and the `EventCard` id and link conventions.

Leaflet is modelled only as the state the component sees: a set of marker layer objects
on the map, at most one route line (its points), and the view as the last request that
set it (`setView` to a centre and zoom, or `fitBounds` over a list of points).
Coordinates are only copied, so they are reals with no arithmetic.
A marker is an object (`MapWidget.Marker`), so "no duplicate markers" is a claim about
object identity: after each update the map carries exactly the markers in
`markersRef`, and those are new, pairwise distinct objects, one per event.

React's lifecycle is modelled explicitly, not inferred:

- `MapWidget.MapComponent.InitEffect` is the mount effect. Its empty dependency list
  becomes the `mountEffectRan` flag.
- A marker-effect run is the body, `MarkersEffect`, plus its cleanup,
  `MarkersCleanup`. The cleanup is registered only when the body got past its guard.
- `Rerender` is what React does when a dependency changes: it runs the previous cleanup
  (if there is one) and then the body. That ordering is why an initialized map has a
  route exactly when `showRoute` is on and there are at least two events. The body on
  its own only replaces a route, so without the cleanup a route would outlive
  `showRoute` being turned off.
- Handlers with outside effects return those effects instead of performing them: a
  scroll-target element id, a link target, a `fitBounds`/`flyTo` request, or whether
  `onMapReady` was called.

Behaviours of the code that the model makes explicit:

- The code does not restore centre and zoom after a resize. It only calls
  `invalidateSize({ pan: false })` (`src/components/Map.tsx` lines 103 and 205).
- The `center`/`zoom` props are read only by the mount effect. The location page
  updates its `mapCenter` state on selection and passes it as `center`, but that
  cannot move a map that already exists. In the model, `InitEffect` is the only
  operation that takes a centre. It takes the props as options, and an absent prop
  falls back to the defaults of lines 42-43.
- The home page passes a new `events` array to the map on every render
  (`src/pages/EventSearch.tsx` lines 116-120). So every change of the selection re-runs
  the marker effect, which recreates the markers and fits the view to all of them. After
  a click on a card that was not selected, the fit comes after the fly-to
  (`MapScenarios.CardClickRefits`). A click on the selected card stores an equal id, so
  React skips the re-render and the fly-to stands.
- `Layout` renders `<SearchBar />` without `onSearch`. A non-blank submit from it
  therefore calls an undefined handler (`Layout.LayoutSubmitHasNoHandler`).

## Model

| member | source | states |
|---|---|---|
| `JsText.StartsWith` | src/components/Layout.tsx:30 | `startsWith` holds exactly when the string is the prefix followed by some rest (equivalently, the prefix occurs at index 0) |
| `JsText.Includes` | src/pages/SearchLocation.tsx:76-78 | `includes` holds exactly when some window of the string equals the needle (the empty needle always occurs) |
| `JsText.Trim` | src/components/SearchBar.tsx:20-21 | the result is a window of the input with only white space cut from either end; it neither starts nor ends with white space; it is empty iff the input is all white space |
| `JsText.TrimIdempotent` | src/components/SearchBar.tsx:21 | trimming a trimmed string changes nothing |
| `Selection.FindBy` | src/pages/SearchLocation.tsx:92 | `find` returns something iff some element has the id, and then the first such element |
| `Selection.Highlights` | src/pages/EventSearch.tsx:153-157 | a row is highlighted iff its id is the selected id; with distinct ids at most one row is; none when nothing or an unknown id is selected; one when a listed id is |
| `EventCard.ElementId` | src/components/EventCard.tsx:34 | the wrapper id is `event-` followed by the event id |
| `EventCard.LinkTarget` | src/components/EventCard.tsx:36 | the link goes to `/event/` followed by the event id |
| `EventCard.IdsInjective` | src/components/EventCard.tsx:34-36 | two cards have equal element ids iff their ids are equal, and equal link targets iff their ids are equal |
| `EventCard.Click` | src/components/EventCard.tsx:25-38 | with `onClick` the handler runs once and navigation and bubbling are suppressed; without it nothing is suppressed and the link navigates to the card's target |
| `SearchBar.SubmitOutcomeOf` | src/components/SearchBar.tsx:18-23 | nothing is submitted iff the query is blank; otherwise `onSearch` is called once with the trimmed, non-empty query (itself its own trim), or, with no `onSearch`, an undefined handler is called |
| `SearchBar.SearchedQueryIsTrimmed` | src/components/SearchBar.tsx:21 | the argument passed to `onSearch` has no white space at either end |
| `SearchBar.SearchBarState.constructor` | src/components/SearchBar.tsx:16 | the query starts empty |
| `SearchBar.SearchBarState.Change` | src/components/SearchBar.tsx:46 | typing sets the query to the field's value |
| `SearchBar.SearchBarState.ChipClick` | src/components/SearchBar.tsx:52-58 | a chip sets the query to exactly its text and submits nothing |
| `SearchBar.SearchBarState.Submit` | src/components/SearchBar.tsx:18-23 | a submit produces the outcome of `SubmitOutcomeOf` and leaves the query as it was |
| `Layout.ShowsBackLink` | src/components/Layout.tsx:19 | the back link is shown iff the pathname is not `/`, which is exactly when the Home tab is not highlighted |
| `Layout.TitleFragments` | src/components/Layout.tsx:27-33 | at most one title is produced; `/` gives "Events", `/event/new` "Create Event", any other `/event/...` path "Event Details", the two search paths "Date Course" and "Location Search", and every other path none |
| `Layout.ActiveTabs` | src/components/Layout.tsx:44-62 | a tab is highlighted iff its path equals the pathname; at most one is; one is iff the pathname is a tab's path |
| `Layout.ShowsSearchBar` | src/components/Layout.tsx:10-36 | the search bar is rendered unless `showSearchBar` is `false`; it defaults to `true` |
| `Layout.LayoutSubmitHasNoHandler` | src/components/Layout.tsx:36 | the layout's search bar has no `onSearch`, so a non-blank submit calls an undefined handler |
| `MapWidget.Marker.constructor` | src/components/Map.tsx:146-152 | a marker sits at the given position and reports the given id on click, or nothing without a listener |
| `MapWidget.RemoveLayers` | src/components/Map.tsx:139-142 | removing each old marker leaves the map's marker layers minus all of them |
| `MapWidget.CreateMarkers` | src/components/Map.tsx:145-155 | one new marker per event, in order, at the event's coordinates, reporting the event's id iff a click handler is given; all distinct |
| `MapWidget.MapComponent.constructor` | src/components/Map.tsx:49-55 | before any effect: no map, not initialized, no error, no markers, no route |
| `MapWidget.MapComponent.Render` | src/components/Map.tsx:225-242 | the error text replaces the map iff there is an error; the loading overlay shows iff there is no error and the map is not initialized |
| `MapWidget.MapComponent.InitEffect` | src/components/Map.tsx:42-130 | runs at most once and does nothing when already initialized or without a container; a failure sets the error message, shows it and changes nothing else; success sets the view to the `center`/`zoom` props (defaults (37.5665, 126.9780) and 13 when absent), starts observing resizes and calls `onMapReady` iff given, with no cleanup registered yet |
| `MapWidget.MapComponent.Teardown` | src/components/Map.tsx:118-124 | the observer is disconnected, the map removed, the map ref cleared and the initialized flag reset; nothing else changes |
| `MapWidget.MapComponent.MarkersEffect` | src/components/Map.tsx:133-180 | without an initialized map nothing changes; otherwise every old marker is removed and the map holds exactly one new marker per event, in order, at its coordinates; the view is fitted to the events iff there are any; the route is replaced by the events' points iff `showRoute` and at least two events |
| `MapWidget.MapComponent.MarkersCleanup` | src/components/Map.tsx:181-187 | the route is removed; markers and view are untouched |
| `MapWidget.MapComponent.Rerender` | src/components/Map.tsx:133-188 | after a dependency change on an initialized map the markers are new objects matching the events one to one (no duplicates), the marker-effect cleanup is registered, and a route exists iff `showRoute` and at least two events, with the events' points in order; on an uninitialized map markers and view are untouched and no cleanup is registered |
| `MapScenarios.UpdateTwice` | src/components/Map.tsx:139-155 | updating twice with the same events still leaves one marker per event on the map, at the events' positions |
| `MapScenarios.RouteToggle` | src/components/Map.tsx:164-187 | two events with the route on draw one line through both in order (returned as `drawn`); turning the route off removes it and leaves the markers at the same two positions |
| `MapScenarios.CardClickRefits` | src/pages/EventSearch.tsx:91-122 | after a click on a card that was not selected, the re-render's marker effect fits the view to all events, so the fit is the last view request, not the card's fly-to |
| `MapScenarios.ShowCourse` | src/pages/SearchDateCourse.tsx:78-96 | the date course on an initialized map gives four markers and a route through the stops in order |
| `SearchLocation.Matching` | src/pages/SearchLocation.tsx:75-79 | keeps exactly the events whose lowercased title, location or category contains the lowercased query |
| `SearchLocation.MatchingConcat` | src/pages/SearchLocation.tsx:75-79 | filtering distributes over concatenation, so the original order is kept |
| `SearchLocation.SearchResults` | src/pages/SearchLocation.tsx:69-84 | an absent or empty query gives the whole list; otherwise the matching events in their original order (so `MatchingConcat` applies), or the whole list when none match; the result is never empty for a non-empty list |
| `SearchLocation.MatchingIgnoresCase` | src/pages/SearchLocation.tsx:76-78 | queries that differ only in letter case match the same events |
| `SearchLocation.ResultsIgnoreCase` | src/pages/SearchLocation.tsx:75-80 | queries that differ only in letter case give the same results |
| `SearchLocation.ResultsIgnoreLowercasing` | src/pages/SearchLocation.tsx:76-78 | lowercasing the query first gives the same results |
| `SearchLocation.MapEvents` | src/pages/SearchLocation.tsx:108-114 | the map gets each event's id, coordinates, title and category, with no description |
| `SearchLocation.SearchLocationPage.constructor` | src/pages/SearchLocation.tsx:64-67 | empty query, no selection, the default centre, no events |
| `SearchLocation.SearchLocationPage.OnSearchParams` | src/pages/SearchLocation.tsx:69-84 | the events become the search results for `q`, so the empty state cannot show and the ids are distinct; a non-empty `q` is stored as the query, and the heading then quotes it; otherwise the query is kept |
| `SearchLocation.SearchLocationPage.HandleEventSelect` | src/pages/SearchLocation.tsx:86-89 | selects the event and sets the centre to its coordinates |
| `SearchLocation.SearchLocationPage.HandleMarkerClick` | src/pages/SearchLocation.tsx:91-101 | a listed id selects the event `find` returns (the first with that id), centres on it and scrolls to its row; an unknown id changes neither the selection nor the centre |
| `SearchLocation.SearchLocationPage.HandleCardClick` | src/pages/SearchLocation.tsx:150-165 | the card has no `onClick`, so the click bubbles to the row, which selects it, and the link navigates to the event's page |
| `SearchLocation.SearchLocationPage.ClearSearch` | src/pages/SearchLocation.tsx:182-185 | resets the query to empty and the events to the whole list, so the heading is "All Events" and the ids are distinct |
| `SearchLocation.SearchLocationPage.RowHighlights` | src/pages/SearchLocation.tsx:154 | exactly the rows whose id is the selected event's are highlighted; at most one while the ids are distinct |
| `SearchLocation.SearchLocationPage.Heading` | src/pages/SearchLocation.tsx:124-126 | the heading is "All Events" iff no query is stored; otherwise the stored query reads back unchanged from between the quotes of `Results for "..."` |
| `SearchLocation.MatchingKeepsDistinctIds` | src/pages/SearchLocation.tsx:75-79 | filtering a list with distinct ids keeps them distinct |
| `SearchLocation.ResultsHaveDistinctIds` | src/pages/SearchLocation.tsx:69-84 | the page's events have distinct ids for every `q` |
| `SearchLocation.ResultsHighlightAtMostOne` | src/pages/SearchLocation.tsx:150-154 | whatever `q` and the selection, at most one row of the page is highlighted |
| `EventSearch.MapEvents` | src/pages/EventSearch.tsx:116-120 | the map gets each event's id, title, category and coordinates, in order, and its location as description; the page's own fits cover these positions |
| `EventSearch.EventSearchPage.constructor` | src/pages/EventSearch.tsx:55-58 | the built-in events, no selection, no stored map, loading |
| `EventSearch.EventSearchPage.LoadEffect` | src/pages/EventSearch.tsx:60-63 | loading ends; nothing else changes |
| `EventSearch.EventSearchPage.HandleMapReady` | src/pages/EventSearch.tsx:66-75 | stores the map and requests a fit over the events iff there are any; events, selection and loading flag unchanged |
| `EventSearch.EventSearchPage.HandleMarkerClick` | src/pages/EventSearch.tsx:78-88 | selects the clicked id whatever it is; asks to scroll to the card with element id `event-<id>` iff such a card is rendered; events, map handle and loading flag unchanged |
| `EventSearch.EventSearchPage.HandleEventCardClick` | src/pages/EventSearch.tsx:91-99 | selects the card's event; requests a fly-to its coordinates at zoom 15 iff a map is stored; events, map handle and loading flag unchanged |
| `EventSearch.EventSearchPage.CardClick` | src/pages/EventSearch.tsx:159-167 | a card click selects the card's event, requests the fly-to iff a map is stored, and does not navigate; events, map handle and loading flag unchanged |
| `EventSearch.EventSearchPage.HandleSearch` | src/pages/EventSearch.tsx:102-105 | changes neither the events nor the selection |
| `EventSearch.EventSearchPage.ShowAllOnMap` | src/pages/EventSearch.tsx:134-142 | requests a fit over the events iff a map is stored and there are events |
| `EventSearch.EventSearchPage.CardHighlights` | src/pages/EventSearch.tsx:150-157 | a card is highlighted iff its id is the selected id; none for no selection or an unknown id |
| `EventSearch.MockCardsHighlightAtMostOne` | src/pages/EventSearch.tsx:150-157 | with the built-in events at most one card is highlighted |
| `SearchDateCourse.CourseMapProps` | src/pages/SearchDateCourse.tsx:78-88 | the map gets every place in order, titled by its name, with its coordinates, route on, centre and zoom 14; the selection does not enter |
| `SearchDateCourse.StopNumbers` | src/pages/SearchDateCourse.tsx:113-122 | the badges of n stops are exactly the numbers 1..n, each once, rising down the list, the first 1 and the last n |
| `SearchDateCourse.NumberedFromOne` | src/pages/SearchDateCourse.tsx:121 | a list numbered `index + 1` holds each of 1..its length and nothing else |
| `SearchDateCourse.ConnectorCount` | src/pages/SearchDateCourse.tsx:132-136 | n stops draw n-1 connectors (none for no stops) |
| `SearchDateCourse.DateCoursePage.constructor` | src/pages/SearchDateCourse.tsx:58-62 | nothing selected; the built-in places; the query defaults to empty |
| `SearchDateCourse.DateCoursePage.HandlePlaceSelect` | src/pages/SearchDateCourse.tsx:64-67 | selects the place (also a row's click, line 117) |
| `SearchDateCourse.DateCoursePage.HandleMarkerClick` | src/pages/SearchDateCourse.tsx:89-94 | a known id selects the place `find` returns (the first with that id); an unknown id leaves the selection unchanged |
| `SearchDateCourse.DateCoursePage.RowHighlights` | src/pages/SearchDateCourse.tsx:116 | exactly the rows with the selected place's id are highlighted; none initially |
| `SearchDateCourse.CourseHighlightsAtMostOne` | src/pages/SearchDateCourse.tsx:113-117 | the course's places have distinct ids, so at most one row is highlighted |

## Left out

- Leaflet internals are not modelled: the tile layer, the zoom control, the marker icon
  defaults, the popup HTML and the polyline styling (all in `src/components/Map.tsx`).
  They are a foreign library's drawing.
- The geometry of `fitBounds`, its 0.1 padding, and the `flyTo` animation are not
  computed. These are floating-point work inside Leaflet. A fit or fly is recorded as a
  request carrying its points or its target.
- The container `ResizeObserver` callback and the debounced window-resize handler are
  left out (150 ms timers and DOM events). They only call `invalidateSize`.
- `scrollIntoView` and its 50 ms delay are DOM access. Only the requested element id is
  modelled.
- `console.log`/`console.error` output is left out.
- `MapWidget.MapComponent.InitEffect`: a throw anywhere while the map is being created and
  given its view is one boolean parameter. A throw after the map is stored (while creating
  the resize observer) is not modelled. Exceptions thrown by `onMapReady` are caught by the
  source and have no effect on the state, so they are not modelled either.
- `MapWidget.MapComponent.Teardown`: on unmount React also runs the marker effect's
  cleanup. The model leaves that call to the caller (`MarkersCleanup`).
- React's asynchronous, batched state updates and StrictMode's doubled effects are not
  modelled. Each state write takes effect at once.
- `SearchLocation.Matching`: `toLowerCase` is modelled for ASCII letters only.
  Unicode case mapping is not modelled.
- `SearchBar.SubmitOutcomeOf`: `trim` removes ASCII white space only. Unicode spaces and
  line terminators are not modelled.
- Coordinates are exact reals, not IEEE doubles. They are only copied.
- Navigation buttons, the static filter chips on the location page, the date-course
  "Start Navigation" alert and its other buttons are left out: they hold no state.
  Route resolution is left out too, including the bottom-nav link to
  `/search/date-course` on the home page, which the app's routes spell differently.
- `src/pages/EventRegistration.tsx`, `src/pages/EventDetail.tsx`, `src/App.tsx`,
  `src/main.tsx` and `tailwind.config.js` are not part of this model. They are form
  plumbing, timers, browser share and clipboard APIs, routing and styling.
