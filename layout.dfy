/**
 * `Layout`: the page shell. Everything it shows is a function of the current
 * pathname and of the `showSearchBar` prop; it keeps no state.
 */
module Layout {
  import opened Wrappers
  import opened JsText
  import SearchBar

  const HomePath := "/"
  const NewEventPath := "/event/new"
  const EventPathPrefix := "/event/"
  const DateCoursePath := "/search/datecourse"
  const LocationSearchPath := "/search/location"

  /** The bottom navigation tabs (Home, Courses, Nearby, New Event), by their link paths. */
  const NavTabs: seq<string> := [HomePath, DateCoursePath, LocationSearchPath, NewEventPath]

  /** `isActive(path)`: the pathname is exactly `path`. */
  function IsActive(pathname: string, path: string): bool {
    pathname == path
  }

  /** The back link to `/` is rendered on every page but the home page, exactly when the Home tab is not lit. */
  function ShowsBackLink(pathname: string): (r: bool)
    ensures r <==> pathname != HomePath
    ensures r <==> !ActiveTabs(pathname)[0]
  {
    !IsActive(pathname, HomePath)
  }

  /** The paths that get the "Event Details" title. */
  predicate IsEventDetailPath(pathname: string) {
    StartsWith(pathname, EventPathPrefix) && pathname != NewEventPath
  }

  /**
   * The fragments rendered inside the header's title: each of the five conditionals
   * contributes its text when its test holds and nothing otherwise.
   */
  function TitleFragments(pathname: string): (r: seq<string>)
    ensures |r| <= 1
    ensures r == ["Events"] <==> pathname == HomePath
    ensures r == ["Create Event"] <==> pathname == NewEventPath
    ensures r == ["Event Details"] <==> IsEventDetailPath(pathname)
    ensures r == ["Date Course"] <==> pathname == DateCoursePath
    ensures r == ["Location Search"] <==> pathname == LocationSearchPath
    ensures r == [] <==> pathname !in NavTabs && !StartsWith(pathname, EventPathPrefix)
  {
    FixedPathsAreNotDetailPaths();
    (if pathname == HomePath then ["Events"] else [])
    + (if pathname == NewEventPath then ["Create Event"] else [])
    + (if IsEventDetailPath(pathname) then ["Event Details"] else [])
    + (if pathname == DateCoursePath then ["Date Course"] else [])
    + (if pathname == LocationSearchPath then ["Location Search"] else [])
  }

  /** None of the other titled paths begins with `/event/`, and "Events" is no other title. */
  lemma FixedPathsAreNotDetailPaths()
    ensures !StartsWith(HomePath, EventPathPrefix)
    ensures !StartsWith(DateCoursePath, EventPathPrefix)
    ensures !StartsWith(LocationSearchPath, EventPathPrefix)
    ensures forall t :: t in ["Create Event", "Event Details", "Date Course", "Location Search"] ==> ["Events"] != [t]
  {
    assert DateCoursePath[1] != EventPathPrefix[1];
    assert LocationSearchPath[1] != EventPathPrefix[1];
  }

  /** Which nav tabs are highlighted: exactly those whose path is the pathname. */
  function ActiveTabs(pathname: string): (r: seq<bool>)
    ensures |r| == |NavTabs|
    ensures forall i :: 0 <= i < |r| ==> (r[i] <==> NavTabs[i] == pathname)
    ensures forall i, j :: 0 <= i < |r| && 0 <= j < |r| && r[i] && r[j] ==> i == j
    ensures (exists i :: 0 <= i < |r| && r[i]) <==> pathname in NavTabs
  {
    seq(|NavTabs|, i requires 0 <= i < |NavTabs| => IsActive(pathname, NavTabs[i]))
  }

  /** The search bar is rendered unless `showSearchBar` is passed as `false` (it defaults to `true`). */
  function ShowsSearchBar(showSearchBar: Option<bool>): (r: bool)
    ensures r <==> showSearchBar != Some(false)
  {
    showSearchBar.GetOr(true)
  }

  /** The layout renders `<SearchBar />` with no `onSearch` prop. */
  const LayoutGivesOnSearch := false

  /** So a non-blank submit from the layout's search bar calls an undefined handler. */
  lemma LayoutSubmitHasNoHandler(query: string)
    requires !Blank(query)
    ensures SearchBar.SubmitOutcomeOf(query, LayoutGivesOnSearch) == SearchBar.HandlerMissing
  {
  }
}
