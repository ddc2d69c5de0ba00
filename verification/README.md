# Search pipeline of the WebBrowser iOS app, in Dafny

This project models the search core of a small iOS browser. A search bar feeds a
finite state machine (`WebViewModel`). As the user types, the machine asks the
Bing suggestion endpoint for completions, through a cancel-then-issue task slot
(`BingSearchAPI`). An HTTP client (`HTTPClient`) checks each response in a fixed
order. When the user submits a query, the machine builds the Bing search URL and
tells the UI to load it.

Everything is modelled as pure functions over immutable values:

- `Results`, `Foundation`: optionals and throwing calls (`Option`, `Result`), and the
  platform types the app uses. `Foundation.Env` bundles the platform calls as
  uninterpreted, possibly failing functions: `URL(string:)`, `URLComponents`
  decomposition and recomposition, `absoluteString` and `JSONSerialization`.
  A URL is its part before the query plus its query items.
- `Decimal`: how Swift's string interpolation writes an `Int`, and the parser that
  reads it back.
- `NetworkClient`, `SearchApi`, `Errors`: the two error enums with their descriptions,
  the parameter dictionary, the request shape, and Swift's `Error` existential. The
  existential is restricted to the app's enums plus transport `NSError`s, each known
  by domain and code.
- `UrlExtensions`, `UrlRequestExtension`: appending parameters or query items to a
  URL, and building a `URLRequest`.
- `HttpClient`: `makeNetworkRequest` and the completion-handler classifier.
- `BingSearchApi`: the endpoints, the suggestion payload validator, the
  response-to-completion mapping and the task slot. In the slot, task ids index the
  list of started tasks, and a set records which tasks had `cancel()` called.
- `WebViewModel`: the state machine. One step takes a model (view state, the
  suggestions the table shows, the API's task slot) and one input, and gives a new
  model plus the ordered UI effects. The effects are an error alert, the list
  visibility, a suggestions-updated notice, the search-bar text and a URL load. A
  fetch completion is its own later input, because the HTTP client always hops to
  the main queue before calling back.

Behaviour of the code that a reader of a search coordinator might not expect, modelled as written:

- The code never compares a late completion with the stored task. A superseded task
  whose body arrived before its cancellation took effect is still shown
  (`SupersededSuccessIsStillShown`). Stale results are suppressed only because
  cancellation becomes "no response, no error", which the view model ignores
  (`CancelledFetchIsIgnored`).
- Entering empty text does not cancel the in-flight fetch (`EmptyTextClearsWithoutFetching`).
  If that fetch then delivers, its suggestions are published and shown under an empty
  search bar (`ClearedBarStillShowsEarlierSuggestions`).
- The suggestion payload may have more than two elements; the extra ones are ignored
  (`ParseEncodeRoundTrip`).
- If the suggestion URL cannot be built, the error is `NetworkError.invalidURL`.
  `SearchAPIError.searchSuggestionURLError` is never raised anywhere.
- Likewise, if the search URL cannot be formed from a parsed endpoint and the query,
  the error is `NetworkError.invalidURL`, not `searchQueryURLError`. That error is raised
  only when the endpoint string itself does not parse (`SearchURLWithQuery`).
- A body that is not valid JSON completes with neither a response nor an error, so
  it is silently ignored. Only well-formed JSON of the wrong shape raises
  `invalidSearchSuggestionResponseData`.
- The second `invalidURL` error thrown by `appendingQueryItems` always carries the
  empty string. The fallback expression it uses only runs when `components.url` is nil.

## Model

| member | source | states |
|---|---|---|
| `WebViewModel.InitialModel` | WebBrowser/ViewModels/WebViewModel.swift:29 | A new view model is in `emptyView`, with no suggestions and no stored task, and it satisfies the slot invariant. |
| `WebViewModel.Handle` | WebBrowser/ViewModels/WebViewModel.swift:63-141 | This is the transition table. Entered text leads to `enteringText` from every state. Empty text hides the list, then clears it, and leaves the task slot alone. Non-empty text calls `suggestionsForText` once; if that call throws, the only effect is one alert. `showSuggestions` only acts in `enteringText`: it publishes the suggestions, then shows the list exactly when they are non-empty. `searchQuery` only acts in `enteringText` and with a non-empty query: it loads the URL, sets the bar text and hides the list, in that order, and moves to `searchResultShown`. If the URL cannot be built, it raises one alert and keeps the model. Every other pair changes nothing. Every event preserves the slot invariant. |
| `WebViewModel.FetchCompleted` | WebBrowser/ViewModels/WebViewModel.swift:94-107 | A completion carrying an error raises one alert and changes no state. A completion with neither response nor error does nothing. A completion with a response raises `showSuggestions`. The view state and task slot never change. |
| `WebViewModel.Step` | WebBrowser/ViewModels/WebViewModel.swift:145-163 | Every external input preserves the invariant that all started tasks except the stored one are cancelled. |
| `WebViewModel.RunKeepsOneLiveTask` | WebBrowser/SearchEngine/SearchAPI/BingSearchAPI.swift:50-57 | Over any session, at most one suggestion fetch is left uncancelled, and it is the stored one. |
| `WebViewModel.StepPublishesSuggestions` | WebBrowser/ViewModels/SearchSuggestionViewModel.swift:20-24 | After one input, the model holds the suggestions last published in that step's effects, or its earlier ones if none were published. A step that changes the list publishes the new list. Empty text publishes `[]` even when the list is already empty. |
| `WebViewModel.RunPublishesSuggestions` | WebBrowser/ViewModels/WebViewModel.swift:85-122 | After any session, the table holds exactly the suggestions last published to it. |
| `WebViewModel.ResultShownOnlyAfterLoad` | WebBrowser/ViewModels/WebViewModel.swift:124-141 | A session can reach `searchResultShown` only if one of its effects loaded a URL. |
| `WebViewModel.EmptyTextClearsWithoutFetching` | WebBrowser/ViewModels/WebViewModel.swift:85-91 | Empty text, from any state, emits visibility(false) then suggestions `[]`. It neither starts nor cancels a fetch. |
| `WebViewModel.TextStartsOneFetch` | WebBrowser/ViewModels/WebViewModel.swift:93-112 | Non-empty text cancels the stored task. It then either starts exactly one fresh, uncancelled task that becomes the stored one and emits nothing, or emits exactly one alert and starts nothing. |
| `WebViewModel.CancelledFetchIsIgnored` | WebBrowser/ViewModels/WebViewModel.swift:99-106 | A completion whose transport reports a cancellation changes nothing and emits nothing, in every state. |
| `WebViewModel.LateSuggestionsAfterSearchAreDropped` | WebBrowser/ViewModels/WebViewModel.swift:68-83 | Outside `enteringText`, a completion leaves the model unchanged and can at most raise an alert. |
| `WebViewModel.ClearedBarStillShowsEarlierSuggestions` | WebBrowser/ViewModels/WebViewModel.swift:85-106 | The sequence is: type "a", clear the bar, then fetch 0 delivers `["a", ["apple"]]`. Clearing leaves fetch 0 stored and uncancelled, so its delivery publishes `["apple"]` and then shows the list. |
| `WebViewModel.SupersededSuccessIsStillShown` | WebBrowser/ViewModels/WebViewModel.swift:94-106 | No task identity is checked. A cancelled task whose successful body was delivered anyway still publishes its suggestions. |
| `WebViewModel.ShowSuggestionsIsIdempotent` | WebBrowser/ViewModels/WebViewModel.swift:116-122 | Showing the same suggestions twice gives the same model and the same effects both times. |
| `WebViewModel.RowSelectionIsSearch` | WebBrowser/ViewModels/WebViewModel.swift:147-163 | Selecting a row labelled `s` acts exactly like the search button with `s` in the bar. A missing bar text searches for "", which is a no-op. |
| `WebViewModel.TypingParShowsSuggestions` | WebBrowser/ViewModels/WebViewModel.swift:85-122 | From a new view, typing "par" emits nothing. The completion `["par", ["paris", "parrot"]]` then publishes those two suggestions and shows the list. |
| `WebViewModel.ServerErrorRaisesAlert` | WebBrowser/ViewModels/WebViewModel.swift:99-102 | An HTTP 500 for the fetch of "xy" raises exactly one alert, carrying `serverError(500)`. The view stays in `enteringText`. |
| `WebViewModel.SearchingWeatherLoadsResults` | WebBrowser/ViewModels/WebViewModel.swift:131-135 | Searching "weather" while entering text loads `https://www.bing.com/search?q=weather`, sets the bar to "weather" and hides the list, in that order. The view ends in `searchResultShown`. |
| `BingSearchApi.SearchQueryURL` | WebBrowser/SearchEngine/SearchAPI/BingSearchAPI.swift:93-99 | The result is the parsed search endpoint. If the endpoint does not parse, the error is `searchQueryURLError` naming the endpoint string. |
| `BingSearchApi.SearchURLWithQuery` | WebBrowser/SearchEngine/SearchAPI/BingSearchAPI.swift:46-48 | If the endpoint does not parse, it throws `searchQueryURLError`. Once it parses, the call succeeds exactly when the append succeeds: the endpoint decomposes, and it recomposes with `q=<query>` added. The result is then the endpoint with `q=<query>` after its existing items. A failed append throws `NetworkError.invalidURL`: with the endpoint's `absoluteString` when decomposing fails, with `""` when recomposing fails. |
| `BingSearchApi.SearchURLForQuery` | WebBrowser/SearchEngine/SearchAPI/BingSearchAPI.swift:46-48 | When the endpoint parses as written, decomposes, and recomposes with one item added, the URL is `https://www.bing.com/search` with the single item `q=<query>`. |
| `BingSearchApi.AsStrings` | WebBrowser/SearchEngine/SearchAPI/BingSearchAPI.swift:84 | `as? [String]` succeeds exactly when every element is a string. It keeps every element, in order. |
| `BingSearchApi.ParseNetworkResponseData` | WebBrowser/SearchEngine/SearchAPI/BingSearchAPI.swift:80-91 | The parser accepts exactly arrays with at least 2 elements whose element 0 is a string and whose element 1 is an array of strings (possibly empty). On success, `searchText` is element 0 and `suggestions` is element 1, in order. Every other value throws `invalidSearchSuggestionResponseData`. |
| `BingSearchApi.ParseEncodeRoundTrip` | WebBrowser/SearchEngine/SearchAPI/BingSearchAPI.swift:80-91 | Parsing the payload made from a response gives back that response, whatever elements trail it. |
| `BingSearchApi.ParsedPayloadIsEncoding` | WebBrowser/SearchEngine/SearchAPI/BingSearchAPI.swift:84-85 | The first two elements of an accepted payload are exactly the encoding of the parsed response. |
| `BingSearchApi.CompletionFor` | WebBrowser/SearchEngine/SearchAPI/BingSearchAPI.swift:57-75 | An error is passed on as `(nil, err)`. No body gives `(nil, nil)`. A parsed body gives `(resp, nil)`. A parse failure gives `(nil, invalidSearchSuggestionResponseData)`. A completion never carries both a response and an error. |
| `BingSearchApi.FetchPipeline` | WebBrowser/SearchEngine/SearchAPI/BingSearchAPI.swift:57-75 | Suggestions arrive exactly when the transport succeeded with a 2xx HTTP JSON body that decodes to a suggestion payload. A cancellation never arrives as an error. A cancelled transport gives `(nil, nil)`. |
| `BingSearchApi.CancelStored` | WebBrowser/SearchEngine/SearchAPI/BingSearchAPI.swift:51 | `networkTask?.cancel()` cancels the stored task if there is one. Everything cancelled before stays cancelled, and no other task is cancelled. |
| `BingSearchApi.SuggestionRequest` | WebBrowser/SearchEngine/SearchAPI/BingSearchAPI.swift:53-55 | The request is built exactly when the suggestion endpoint parses. It holds that URL, the single parameter `query=text` and `GET`. Otherwise it throws `invalidURL` naming the endpoint. |
| `BingSearchApi.SuggestionsForText` | WebBrowser/SearchEngine/SearchAPI/BingSearchAPI.swift:50-57 | The stored task is cancelled first, even when the request then fails to build, and nothing else is cancelled. If building or starting the request throws, the slot is otherwise kept, and the error is always `invalidURL`. If not, the new task is the suggestion request together with the `URLRequest` started from it, and it becomes the stored one. From a valid slot, that new task is uncancelled. The slot invariant is preserved. |
| `BingSearchApi.SuggestionRequestForText` | WebBrowser/SearchEngine/SearchAPI/BingSearchAPI.swift:19-55 | When the endpoint parses as written, decomposes, and recomposes with one item added, the fetch does not throw. It loads `https://api.bing.com/osjson.aspx` with the single item `query=<text>`, by `GET`. |
| `HttpClient.Classify` | WebBrowser/SearchEngine/NetworkClient/HTTPClient.swift:45-103 | A cancelled transport error gives `(nil, nil)`, and any other transport error is passed on unchanged. A response exists exactly when there is no error, the status is in 200...299, the MIME type is `application/json`, there is a body and the body decodes. A `serverError` carries the HTTP status and only arises for a status outside the range. A cancellation is never reported as an error. A response and an error never come together. |
| `HttpClient.ClassifyRunsChecksInOrder` | WebBrowser/SearchEngine/NetworkClient/HTTPClient.swift:47-102 | The classifier equals a reference that runs four independent checks in order (transport error, status, MIME type, body presence) and lets the first failing one decide. A missing MIME type is reported as "". |
| `HttpClient.SuccessCodesAreTwoHundreds` | WebBrowser/SearchEngine/NetworkClient/HTTPClient.swift:12 | A status code counts as success exactly when it is in the 2xx class. |
| `HttpClient.StartRequest` | WebBrowser/SearchEngine/NetworkClient/HTTPClient.swift:43-44 | Starting a request first builds its `URLRequest`, keeping the method. With nil parameters the request is built on the URL unchanged. With parameters it succeeds exactly when `appendingParameters` does, and loads the appended URL. The only error it can throw is `invalidURL`. |
| `HttpClient.MakeNetworkRequest` | WebBrowser/SearchEngine/NetworkClient/HTTPClient.swift:108-115 | A URL string that does not parse throws `invalidURL(urlString)`. Otherwise the request holds the parsed URL and the given parameters and method, unchanged. |
| `UrlRequestExtension.FromNetworkRequest` | WebBrowser/Extensions/URLRequest+NetworkClient.swift:13-24 | The method is copied. With nil parameters the URL is unchanged. With parameters the URL is `url.appendingParameters(parameters)`, and its error is rethrown. |
| `UrlRequestExtension.NoParametersLeaveUrlUnchanged` | WebBrowser/Extensions/URLRequest+NetworkClient.swift:15-18 | Nil parameters and an empty dictionary build the same request, whose URL is untouched. |
| `UrlExtensions.ItemsOf` | WebBrowser/Extensions/URL+NetworkClient.swift:21-23 | Each parameter pair becomes one query item with that name and value, in iteration order. |
| `UrlExtensions.AppendingQueryItems` | WebBrowser/Extensions/URL+NetworkClient.swift:28-47 | An empty list returns the URL unchanged. Otherwise the result is the existing items followed by the new ones, and it succeeds exactly when the URL decomposes and the result recomposes. A decomposition failure throws `invalidURL(absoluteString)`. A recomposition failure throws `invalidURL("")`. |
| `UrlExtensions.AppendingParameters` | WebBrowser/Extensions/URL+NetworkClient.swift:16-26 | An empty dictionary returns the URL unchanged. A non-empty dictionary succeeds exactly when the URL decomposes and recomposes with one item per pair added. On success the base is kept and those items follow the existing ones. A failure is `invalidURL`: with the URL's `absoluteString` when decomposing fails, and with `""` when recomposing fails. |
| `UrlExtensions.AppendKeepsExistingItems` | WebBrowser/Extensions/URL+NetworkClient.swift:38-40 | A successful append keeps the existing items as a prefix and grows the count by exactly the appended items. Duplicate names are not merged: each name's count adds up. |
| `UrlExtensions.AppendInTwoStepsIsAppendOnce` | WebBrowser/Extensions/URL+NetworkClient.swift:38-40 | If two successive appends both succeed, the result equals appending the concatenated lists at once. |
| `UrlExtensions.OneItemPerParameter` | WebBrowser/Extensions/URL+NetworkClient.swift:21-23 | Every key of a dictionary yields exactly one item of that name, carrying that key's value. A name that is not a key yields none. |
| `UrlExtensions.AppendSingleParameter` | WebBrowser/Extensions/URL+NetworkClient.swift:16-26 | A one-entry dictionary appends exactly its one item, so iteration order does not matter for it. |
| `NetworkClient.ErrorDescription` | WebBrowser/SearchEngine/NetworkClient/NetworkClient.swift:28-41 | Every case has a description. `unkown` and `invalidResponseObject` give fixed strings. The other cases give their prefix followed by the carried string, or by the status code in decimal. |
| `NetworkClient.ServerErrorDescriptionCarriesCode` | WebBrowser/SearchEngine/NetworkClient/NetworkClient.swift:36-37 | The status code can be read back from the text after "Server error with code: ". |
| `NetworkClient.ErrorDescriptionInjective` | WebBrowser/SearchEngine/NetworkClient/NetworkClient.swift:28-41 | Distinct network errors have distinct descriptions. |
| `SearchApi.ErrorDescription` | WebBrowser/SearchEngine/SearchAPI/SearchAPI.swift:26-35 | Every case has a description. `invalidSearchSuggestionResponseData` is the fixed string with its original typo. The URL errors are their prefixes followed by the URL string. |
| `SearchApi.ErrorDescriptionInjective` | WebBrowser/SearchEngine/SearchAPI/SearchAPI.swift:26-35 | Distinct search errors have distinct descriptions. |
| `Errors.AlertMessage` | WebBrowser/Views/WebViewController.swift:53-55 | An alert for one of the app's own errors shows that error's description: `NetworkError`'s for network errors, `SearchAPIError`'s for search errors. A transport error's text comes from the platform. |
| `Errors.CancellationIsDecidedByCode` | WebBrowser/SearchEngine/NetworkClient/HTTPClient.swift:49 | An error is a cancellation exactly when its code is `NSURLErrorCancelled` (-999), whatever its domain. None of the app's own errors is a cancellation. |
| `Errors.AlertMessageInjective` | WebBrowser/Views/WebViewController.swift:53-55 | Two of the app's own errors, from either enum, give the same alert text only if they are the same error. |
| `Errors.CrossFamilyMessagesDiffer` | WebBrowser/SearchEngine/SearchAPI/SearchAPI.swift:26-35 | No network error description equals a search error description. |
| `Decimal.NatToString` | WebBrowser/SearchEngine/NetworkClient/NetworkClient.swift:37 | Interpolating a non-negative `Int` gives only digits, at least one, with no leading zero. |
| `Decimal.IntToString` | WebBrowser/SearchEngine/NetworkClient/NetworkClient.swift:37 | Interpolating an `Int` gives a leading "-" exactly for negative values. |
| `Decimal.IntToStringRoundTrip` | WebBrowser/SearchEngine/NetworkClient/NetworkClient.swift:37 | Reading back an interpolated `Int` gives the same integer. |
| `Decimal.IntToStringInjective` | WebBrowser/SearchEngine/NetworkClient/NetworkClient.swift:37 | Distinct status codes give distinct texts. |

## Left out

- UIKit and WebKit binding (`WebViewController` apart from its alert text), `AppFactory`, and the table data source. Those are presentation and wiring code. The search bar is reduced to the two events it forwards. The suggestion view model is reduced to its list and its `didSet` notification.
- `URLSession`, `resume()` and `DispatchQueue.main.async`. They become a later `FetchDelivered` input whose transport outcome is arbitrary. Concurrency and timing are not modelled. A task may be delivered any number of times, which over-approximates the real transport. A delivery for a task id that was never issued cannot happen, and it changes nothing.
- `[weak self]` on the completion closure. The view model is taken to live for the whole session.
- `URL(string:)`, `URLComponents`, percent-encoding and `absoluteString` are uninterpreted functions of `Foundation.Env`. A recomposed URL is assumed to keep its base and items unchanged.
- `JSONSerialization` is an uninterpreted decoder to a three-way JSON value (string, array, anything else).
- Dictionary iteration order is not modelled. A parameter dictionary is given as its pairs in the order Swift happens to iterate them. The app only ever passes one-entry dictionaries.
- How the app's own enums bridge to `NSError` codes is not modelled. They are taken never to carry the cancellation code.
- The `default: break` branch of the MIME switch in the HTTP client. It is unreachable, because the MIME type is known to be JSON at that point.
- `HTTPMethod` and `HTTPMineType` are single constants (`"GET"`, `"application/json"`), not enums.
