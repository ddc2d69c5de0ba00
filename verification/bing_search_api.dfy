/** `BingSearchAPI.swift`: the search and suggestion endpoints, the
    cancel-then-issue suggestion fetch with its single task slot, the mapping
    of a network response to a suggestion completion, and the validator of
    the suggestion payload. */
module BingSearchApi {
  import opened Results
  import opened Foundation
  import opened NetworkClient
  import opened SearchApi
  import opened Errors
  import opened UrlExtensions
  import opened UrlRequestExtension
  import opened HttpClient

  const SearchSuggestionURLString: string := "https://api.bing.com/osjson.aspx"
  const SearchQueryURLString: string := "https://www.bing.com/search"
  /** `SearchParameterKeys.suggestionKey`. */
  const SuggestionKey: string := "query"
  /** `SearchParameterKeys.queryKey`. */
  const QueryKey: string := "q"

  // ---------------------------------------------------------------------------
  // Search URL

  /** `searchQueryURL`: the parsed search endpoint, or `searchQueryURLError`
      naming the endpoint string when it does not parse. */
  function SearchQueryURL(env: Env): (r: Result<Url, Error>)
    ensures r.Ok? <==> env.parseUrl(SearchQueryURLString).Some?
    ensures r.Ok? ==> r.value == env.parseUrl(SearchQueryURLString).value
    ensures r.Err? ==> r.error == Search(SearchQueryURLError(SearchQueryURLString))
  {
    match env.parseUrl(SearchQueryURLString)
    case Some(url) => Ok(url)
    case None => Err(Search(SearchQueryURLError(SearchQueryURLString)))
  }

  /** `searchURLWithQuery`: the search endpoint with the single item `q=query`
      appended after whatever query the endpoint already has. Once the endpoint
      parses, a failed append throws `NetworkError.invalidURL`, never
      `searchQueryURLError`. */
  function SearchURLWithQuery(query: string, env: Env): (r: Result<Url, Error>)
    ensures env.parseUrl(SearchQueryURLString).None? ==> r == Err(Search(SearchQueryURLError(SearchQueryURLString)))
    ensures env.parseUrl(SearchQueryURLString).Some? ==>
              var endpoint := env.parseUrl(SearchQueryURLString).value;
              && (r.Ok? <==> env.decomposes(endpoint)
                             && env.recomposes(Url(endpoint.base, endpoint.queryItems + [QueryItem(QueryKey, query)])))
              && (r.Err? ==> r.error == Network(InvalidURL(if env.decomposes(endpoint) then ""
                                                           else env.absoluteString(endpoint))))
    ensures r.Ok? ==> var endpoint := env.parseUrl(SearchQueryURLString).value;
                      r.value == Url(endpoint.base, endpoint.queryItems + [QueryItem(QueryKey, query)])
  {
    var endpoint :- SearchQueryURL(env);
    AppendSingleParameter(endpoint, QueryKey, query, env);
    AppendingParameters(endpoint, [(QueryKey, query)], env)
  }

  /** On a platform that parses the endpoint as it is written, the search URL
      is `https://www.bing.com/search` with the one query item `q=<query>`. */
  lemma SearchURLForQuery(query: string, env: Env)
    requires PlainlyParses(env, SearchQueryURLString)
    ensures SearchURLWithQuery(query, env) == Ok(Url(SearchQueryURLString, [QueryItem(QueryKey, query)]))
  {
    var endpoint := Url(SearchQueryURLString, []);
    AppendSingleParameter(endpoint, QueryKey, query, env);
    assert env.decomposes(endpoint);
    assert endpoint.queryItems + [QueryItem(QueryKey, query)] == [QueryItem(QueryKey, query)];
    assert env.recomposes(Url(SearchQueryURLString, [QueryItem(QueryKey, query)]));
    assert SearchQueryURL(env) == Ok(endpoint);
  }

  // ---------------------------------------------------------------------------
  // Suggestion payload

  /** `as? [String]` on a JSON array: the strings when every element is one. */
  function AsStrings(items: seq<Json>): (r: Option<seq<string>>)
    ensures r.Some? <==> forall i :: 0 <= i < |items| ==> items[i].JString?
    ensures r.Some? ==> |r.value| == |items| && forall i :: 0 <= i < |items| ==> r.value[i] == items[i].str
  {
    if |items| == 0 then Some([])
    else if !items[0].JString? then None
    else match AsStrings(items[1..])
      case None => None
      case Some(rest) => Some([items[0].str] + rest)
  }

  /** The payload shape the app accepts: an array whose first element is a
      string and which has a second element that is an array of strings. */
  predicate IsSuggestionPayload(j: Json) {
    && j.JArray?
    && |j.items| >= 2
    && j.items[0].JString?
    && j.items[1].JArray?
    && forall i :: 0 <= i < |j.items[1].items| ==> j.items[1].items[i].JString?
  }

  /** `parseNetworkResponseData`: accepts exactly the suggestion payloads,
      taking the echoed text from element 0 and the suggestions, in order,
      from element 1; later elements are ignored and an empty suggestion list
      is accepted. Every other value throws
      `invalidSearchSuggestionResponseData`. */
  function ParseNetworkResponseData(j: Json): (r: Result<SearchSuggestionResponse, Error>)
    ensures r.Ok? <==> IsSuggestionPayload(j)
    ensures r.Err? ==> r.error == Search(InvalidSearchSuggestionResponseData)
    ensures r.Ok? ==> && r.value.searchText == j.items[0].str
                      && |r.value.suggestions| == |j.items[1].items|
                      && forall i :: 0 <= i < |r.value.suggestions| ==> r.value.suggestions[i] == j.items[1].items[i].str
  {
    if j.JArray? && |j.items| >= 1 && j.items[0].JString? then
      var searchText := j.items[0].str;
      if |j.items| >= 2 && j.items[1].JArray? && AsStrings(j.items[1].items).Some? then
        Ok(SearchSuggestionResponse(searchText, AsStrings(j.items[1].items).value))
      else Err(Search(InvalidSearchSuggestionResponseData))
    else Err(Search(InvalidSearchSuggestionResponseData))
  }

  function JStrings(strings: seq<string>): (items: seq<Json>)
    ensures |items| == |strings|
    ensures forall i :: 0 <= i < |strings| ==> items[i] == JString(strings[i])
  {
    if |strings| == 0 then [] else [JString(strings[0])] + JStrings(strings[1..])
  }

  /** The two leading elements of the payload the server sends for a response. */
  function EncodeSuggestionResponse(response: SearchSuggestionResponse): seq<Json>
  {
    [JString(response.searchText), JArray(JStrings(response.suggestions))]
  }

  /** Parsing a payload made from a response, whatever trails it, gives back
      that response. */
  lemma ParseEncodeRoundTrip(response: SearchSuggestionResponse, trailing: seq<Json>)
    ensures ParseNetworkResponseData(JArray(EncodeSuggestionResponse(response) + trailing)) == Ok(response)
  {
    var r := ParseNetworkResponseData(JArray(EncodeSuggestionResponse(response) + trailing));
    assert r.value.suggestions == response.suggestions;
  }

  /** Conversely, an accepted payload starts with the encoding of what it was
      parsed into: nothing in its first two elements is dropped or altered. */
  lemma ParsedPayloadIsEncoding(j: Json)
    requires ParseNetworkResponseData(j).Ok?
    ensures j.items[..2] == EncodeSuggestionResponse(ParseNetworkResponseData(j).value)
  {
    var r := ParseNetworkResponseData(j).value;
    assert JStrings(r.suggestions) == j.items[1].items;
  }

  // ---------------------------------------------------------------------------
  // Completion mapping

  /** The two arguments of a `SearchSuggestionCompletion`. */
  datatype SuggestionCompletion = SuggestionCompletion(response: Option<SearchSuggestionResponse>, error: Option<Error>)

  /** The completion the suggestion fetch calls, once, for a network response:
      an error is passed on; no body means neither a response nor an error; a
      body is parsed, a parse failure becoming the error. */
  function CompletionFor(networkResponse: NetworkResponse): (c: SuggestionCompletion)
    ensures networkResponse.error.Some? ==> c == SuggestionCompletion(None, networkResponse.error)
    ensures networkResponse.error.None? && networkResponse.response.None? ==> c == SuggestionCompletion(None, None)
    ensures networkResponse.error.None? && networkResponse.response.Some? ==>
      var parsed := ParseNetworkResponseData(networkResponse.response.value);
      c == if parsed.Ok? then SuggestionCompletion(Some(parsed.value), None)
           else SuggestionCompletion(None, Some(Search(InvalidSearchSuggestionResponseData)))
    ensures !(c.response.Some? && c.error.Some?)
  {
    if networkResponse.error.Some? then SuggestionCompletion(None, networkResponse.error)
    else if networkResponse.response.None? then SuggestionCompletion(None, None)
    else match ParseNetworkResponseData(networkResponse.response.value)
      case Ok(response) => SuggestionCompletion(Some(response), None)
      case Err(error) => SuggestionCompletion(None, Some(error))
  }

  /** The whole pipeline from what the URL loading system delivered to the
      suggestion completion: suggestions arrive exactly when the transport
      succeeded with a JSON body that decodes to a suggestion payload; a
      cancellation never arrives as an error. */
  lemma FetchPipeline(request: NetworkRequest, o: TransportOutcome, env: Env)
    ensures var c := CompletionFor(Classify(request, o, env));
            && (c.response.Some? <==>
                  && o.error.None? && IsHttp(o) && IsSuccessCode(o.response.value.statusCode)
                  && o.response.value.mimeType == Some(JsonMimeType)
                  && o.data.Some? && env.decodeJson(o.data.value).Some?
                  && IsSuggestionPayload(env.decodeJson(o.data.value).value))
            && (c.error.Some? ==> !IsCancellation(c.error.value))
            && (o.error.Some? && IsCancellation(o.error.value) ==> c == SuggestionCompletion(None, None))
  {
  }

  // ---------------------------------------------------------------------------
  // The suggestion task slot

  /** A data task: the request it answers and the `URLRequest` it loads. */
  datatype DataTask = DataTask(networkRequest: NetworkRequest, urlRequest: UrlRequest)

  /** The `networkTask` property together with the history it abstracts: every
      task ever started (its id is its index) and the ids `cancel()` was
      called on. */
  datatype Slot = Slot(networkTask: Option<nat>, issued: seq<DataTask>, cancelled: set<nat>)

  const EmptySlot: Slot := Slot(None, [], {})

  /** The stored task and the cancelled ones were all started, and every
      started task other than the stored one has been cancelled: at most one
      suggestion fetch is ever left uncancelled. */
  predicate ValidSlot(s: Slot) {
    && (s.networkTask.Some? ==> s.networkTask.value < |s.issued|)
    && (forall t :: t in s.cancelled ==> t < |s.issued|)
    && (forall t :: 0 <= t < |s.issued| && t !in s.cancelled ==> s.networkTask == Some(t))
  }

  /** `networkTask?.cancel()`. */
  function CancelStored(s: Slot): (cancelled: set<nat>)
    ensures s.cancelled <= cancelled
    ensures s.networkTask.Some? ==> s.networkTask.value in cancelled
    ensures forall t :: t in cancelled && t !in s.cancelled ==> s.networkTask == Some(t)
  {
    if s.networkTask.Some? then s.cancelled + {s.networkTask.value} else s.cancelled
  }

  /** What `suggestionsForText` does synchronously: the stored task, if any, is
      cancelled first; then the request is built and started, and only if
      both succeed does the new task replace the stored one. Building fails
      with `invalidURL` and starting rethrows the `URLRequest` error; in both
      cases the cancelled task stays stored. */
  datatype SuggestionCall = SuggestionCall(slot: Slot, thrown: Option<Error>)

  /** The suggestion request: the suggestion endpoint with the single
      parameter `query=text`, by `GET`; `invalidURL` naming the endpoint if it
      does not parse. */
  function SuggestionRequest(text: string, env: Env): (r: Result<NetworkRequest, Error>)
    ensures r.Ok? <==> env.parseUrl(SearchSuggestionURLString).Some?
    ensures r.Ok? ==> && r.value.url == env.parseUrl(SearchSuggestionURLString).value
                      && r.value.parameters == Some([(SuggestionKey, text)])
                      && r.value.httpMethod == Get
    ensures r.Err? ==> r.error == Network(InvalidURL(SearchSuggestionURLString))
  {
    MakeNetworkRequest(SearchSuggestionURLString, [(SuggestionKey, text)], Get, env)
  }

  function SuggestionsForText(s: Slot, text: string, env: Env): (r: SuggestionCall)
    ensures r.slot.cancelled == CancelStored(s)
    ensures r.thrown.Some? ==> r.slot.networkTask == s.networkTask && r.slot.issued == s.issued
    ensures r.thrown.None? <==>
      SuggestionRequest(text, env).Ok? && StartRequest(SuggestionRequest(text, env).value, env).Ok?
    ensures r.thrown.None? ==>
      && r.slot.networkTask == Some(|s.issued|)
      && |r.slot.issued| == |s.issued| + 1
      && r.slot.issued[..|s.issued|] == s.issued
      && r.slot.issued[|s.issued|].networkRequest.parameters == Some([(SuggestionKey, text)])
      && r.slot.issued[|s.issued|].urlRequest.httpMethod == Get
    ensures ValidSlot(s) ==> ValidSlot(r.slot)
    ensures ValidSlot(s) && r.thrown.None? ==> |s.issued| !in r.slot.cancelled
    ensures r.thrown.Some? ==> r.thrown.value.Network? && r.thrown.value.network.InvalidURL?
    ensures r.thrown.None? ==>
              var request := SuggestionRequest(text, env).value;
              r.slot.issued[|s.issued|] == DataTask(request, StartRequest(request, env).value)
  {
    var cancelled := CancelStored(s);
    var afterCancel := s.(cancelled := cancelled);
    match SuggestionRequest(text, env)
    case Err(e) => SuggestionCall(afterCancel, Some(e))
    case Ok(networkRequest) =>
      match StartRequest(networkRequest, env)
      case Err(e) => SuggestionCall(afterCancel, Some(e))
      case Ok(urlRequest) =>
        var id := |s.issued|;
        var issued := s.issued + [DataTask(networkRequest, urlRequest)];
        assert ValidSlot(s) ==> id !in cancelled;
        SuggestionCall(Slot(Some(id), issued, cancelled), None)
  }

  /** On a platform that parses the endpoint as it is written, the fetch never
      throws and loads `https://api.bing.com/osjson.aspx` with the single
      query item `query=<text>` by `GET`. */
  lemma SuggestionRequestForText(s: Slot, text: string, env: Env)
    requires PlainlyParses(env, SearchSuggestionURLString)
    ensures var r := SuggestionsForText(s, text, env);
            && r.thrown.None?
            && r.slot.issued[|s.issued|].urlRequest
               == UrlRequest(Url(SearchSuggestionURLString, [QueryItem(SuggestionKey, text)]), Get)
  {
    var endpoint := Url(SearchSuggestionURLString, []);
    AppendSingleParameter(endpoint, SuggestionKey, text, env);
    assert env.decomposes(endpoint);
    assert endpoint.queryItems + [QueryItem(SuggestionKey, text)] == [QueryItem(SuggestionKey, text)];
    assert env.recomposes(Url(SearchSuggestionURLString, [QueryItem(SuggestionKey, text)]));
  }
}
