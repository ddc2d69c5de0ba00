/** The search-layer vocabulary of `SearchAPI.swift`: the `SearchAPIError`
    cases with their descriptions and the suggestion response shape. */
module SearchApi {
  import opened Results

  /** `SearchAPIError`. */
  datatype SearchAPIError =
    | SearchQueryURLError(urlString: string)
    | SearchSuggestionURLError(urlString: string)
    | InvalidSearchSuggestionResponseData

  const SearchQueryURLErrorPrefix: string := "Search engine query URL error: "
  const SearchSuggestionURLErrorPrefix: string := "Search engine suggestion URL error: "
  /** Spelled as the app spells it. */
  const InvalidSearchSuggestionResponseDataMessage: string := "Invliad search suggestion response data."

  /** `errorDescription`: every case has a description. */
  function ErrorDescription(e: SearchAPIError): (d: Option<string>)
    ensures d.Some?
    ensures e.SearchQueryURLError? ==> d.value == SearchQueryURLErrorPrefix + e.urlString
    ensures e.SearchSuggestionURLError? ==> d.value == SearchSuggestionURLErrorPrefix + e.urlString
    ensures e.InvalidSearchSuggestionResponseData? ==> d.value == InvalidSearchSuggestionResponseDataMessage
  {
    match e
    case SearchQueryURLError(urlString) => Some(SearchQueryURLErrorPrefix + urlString)
    case SearchSuggestionURLError(urlString) => Some(SearchSuggestionURLErrorPrefix + urlString)
    case InvalidSearchSuggestionResponseData => Some(InvalidSearchSuggestionResponseDataMessage)
  }

  /** Two search errors with the same description are the same error. */
  lemma ErrorDescriptionInjective(a: SearchAPIError, b: SearchAPIError)
    requires ErrorDescription(a) == ErrorDescription(b)
    ensures a == b
  {
    var d := ErrorDescription(a).value;
    match a
    case SearchQueryURLError(s) =>
      assert d[0] == 'S' && d[14] == 'q';
      if b.SearchQueryURLError? {
        assert s == d[|SearchQueryURLErrorPrefix|..] == b.urlString;
      }
    case SearchSuggestionURLError(s) =>
      assert d[0] == 'S' && d[14] == 's';
      if b.SearchSuggestionURLError? {
        assert s == d[|SearchSuggestionURLErrorPrefix|..] == b.urlString;
      }
    case InvalidSearchSuggestionResponseData =>
      assert d[0] == 'I';
  }

  /** `SearchSuggestionResponse`: the text the server echoes back and its
      suggestions, in the server's order. */
  datatype SearchSuggestionResponse = SearchSuggestionResponse(searchText: string, suggestions: seq<string>)
}
