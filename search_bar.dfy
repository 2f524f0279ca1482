/**
 * `SearchBar`: a text field whose value is component state, a form whose submit hands
 * the trimmed query to the optional `onSearch` prop, and chips that fill the field in.
 */
module SearchBar {
  import opened JsText

  /** The chips under the field, in display order. */
  const PopularSearches: seq<string> := ["Today", "Tomorrow", "This week", "Next week"]

  /** What a submit does once the form's default action is prevented. */
  datatype SubmitOutcome =
    | NotSubmitted            // the trimmed query is empty: `onSearch` is not called
    | Searched(query: string) // `onSearch` is called once, with this argument
    | HandlerMissing          // the query is non-blank but no `onSearch` was given: calling it throws

  /** The submit rule for the query `query`, with or without an `onSearch` prop. */
  function SubmitOutcomeOf(query: string, hasOnSearch: bool): (r: SubmitOutcome)
    ensures r.NotSubmitted? <==> Blank(query)
    ensures r.Searched? <==> !Blank(query) && hasOnSearch
    ensures r.HandlerMissing? <==> !Blank(query) && !hasOnSearch
    ensures r.Searched? ==> r.query == Trim(query) && r.query != [] && Trim(r.query) == r.query
  {
    var trimmed := Trim(query);
    TrimIdempotent(query);
    if trimmed == [] then NotSubmitted
    else if hasOnSearch then Searched(trimmed)
    else HandlerMissing
  }

  /** The argument of `onSearch` has no white space at either end. */
  lemma SearchedQueryIsTrimmed(query: string, hasOnSearch: bool)
    requires SubmitOutcomeOf(query, hasOnSearch).Searched?
    ensures var q := SubmitOutcomeOf(query, hasOnSearch).query;
      !IsSpace(q[0]) && !IsSpace(q[|q| - 1])
  {
  }

  /** The component's state: the field's current text. */
  class SearchBarState {
    var searchQuery: string
    const hasOnSearch: bool

    /** The field starts empty. */
    constructor (hasOnSearch: bool)
      ensures searchQuery == "" && this.hasOnSearch == hasOnSearch
    {
      searchQuery := "";
      this.hasOnSearch := hasOnSearch;
    }

    /** Typing into the field (`onChange`) replaces the query with the field's value. */
    method Change(value: string)
      modifies this
      ensures searchQuery == value
    {
      searchQuery := value;
    }

    /** A chip click sets the query to exactly the chip's text and does not submit. */
    method ChipClick(chip: string)
      requires chip in PopularSearches
      modifies this
      ensures searchQuery == chip
    {
      searchQuery := chip;
    }

    /** `handleSubmit`: reads the query, never writes it. */
    method Submit() returns (r: SubmitOutcome)
      ensures r == SubmitOutcomeOf(searchQuery, hasOnSearch)
    {
      r := SubmitOutcomeOf(searchQuery, hasOnSearch);
    }
  }
}
