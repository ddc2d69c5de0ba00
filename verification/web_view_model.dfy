/** `WebViewModel.swift`: the finite state machine that turns search-bar
    events, suggestion-row selections and fetch completions into UI effects.
    A transition is a pure step from a model to a model and the ordered list
    of effects it emits. A fetch completion is a separate, later input: the
    HTTP client always hops to the main queue before calling back, so the
    transition that started the fetch has committed by then. */
module WebViewModel {
  import opened Results
  import opened Foundation
  import opened Errors
  import opened HttpClient
  import opened BingSearchApi

  datatype ViewState = EmptyView | EnteringText | SearchResultShown

  datatype ViewEvent =
    | EnteredText(text: string)
    | ShowSuggestions(suggestions: seq<string>)
    | SearchQuery(query: string)

  /** The UI bindings the view model calls, in the order it calls them.
      `UpdateSearchSuggestions` is the notification the suggestion view model
      sends whenever its `suggestions` are assigned. */
  datatype Output =
    | ShowErrorAlert(error: Error)
    | SetSearchSuggestionVisibility(visible: bool)
    | UpdateSearchSuggestions(suggestions: seq<string>)
    | SetSearchBarToText(text: string)
    | LoadURL(url: Url)

  /** The view state, the suggestions held by the suggestion view model, and
      the task slot of the search API the view model owns. */
  datatype Model = Model(state: ViewState, suggestions: seq<string>, api: Slot)

  datatype Transition = Transition(model: Model, outputs: seq<Output>)

  predicate ValidModel(m: Model) {
    ValidSlot(m.api)
  }

  /** A fresh view model: no text entered, no suggestions, no task. */
  function InitialModel(): (m: Model)
    ensures m.state == EmptyView && m.suggestions == [] && m.api.networkTask.None?
    ensures ValidModel(m)
  {
    Model(EmptyView, [], EmptySlot)
  }

  /** `fetchSuggestionsForText`: empty text hides and clears the suggestions
      without touching the search API; other text asks the search API for
      suggestions once, an error it throws becoming one alert. Either way the
      view ends up in `enteringText`. */
  function FetchSuggestionsForText(m: Model, text: string, env: Env): (t: Transition)
  {
    if text == "" then
      Transition(m.(state := EnteringText, suggestions := []),
                 [SetSearchSuggestionVisibility(false), UpdateSearchSuggestions([])])
    else
      var call := SuggestionsForText(m.api, text, env);
      Transition(m.(state := EnteringText, api := call.slot),
                 if call.thrown.Some? then [ShowErrorAlert(call.thrown.value)] else [])
  }

  /** `showSuggestions`: publish the suggestions, then show the list exactly
      when it is not empty. */
  function ShowSuggestionsFor(m: Model, suggestions: seq<string>): (t: Transition)
  {
    Transition(m.(state := EnteringText, suggestions := suggestions),
               [UpdateSearchSuggestions(suggestions), SetSearchSuggestionVisibility(|suggestions| > 0)])
  }

  /** `searchQuery`: an empty query does nothing; otherwise the search URL is
      loaded, the search bar shows the query and the suggestions are hidden,
      or, if the URL cannot be built, one alert is shown and the state stays. */
  function SearchQueryFor(m: Model, query: string, env: Env): (t: Transition)
  {
    if query == "" then Transition(m, [])
    else match SearchURLWithQuery(query, env)
      case Ok(url) =>
        Transition(m.(state := SearchResultShown),
                   [LoadURL(url), SetSearchBarToText(query), SetSearchSuggestionVisibility(false)])
      case Err(error) => Transition(m, [ShowErrorAlert(error)])
  }

  /** `handle(event:)` with `transitionForEvent`: text may be entered in every
      state; suggestions are shown and queries searched only while entering
      text; every other pair leaves everything as it is. */
  function Handle(m: Model, event: ViewEvent, env: Env): (r: Transition)
    ensures event.EnteredText? ==> r.model.state == EnteringText
    ensures event.EnteredText? && event.text == "" ==>
      && r.outputs == [SetSearchSuggestionVisibility(false), UpdateSearchSuggestions([])]
      && r.model.suggestions == [] && r.model.api == m.api
    ensures event.EnteredText? && event.text != "" ==>
      var call := SuggestionsForText(m.api, event.text, env);
      && r.model.api == call.slot && r.model.suggestions == m.suggestions
      && r.outputs == (if call.thrown.Some? then [ShowErrorAlert(call.thrown.value)] else [])
    ensures event.ShowSuggestions? && m.state == EnteringText ==>
      && r.model == m.(suggestions := event.suggestions)
      && r.outputs == [UpdateSearchSuggestions(event.suggestions),
                       SetSearchSuggestionVisibility(event.suggestions != [])]
    ensures (event.ShowSuggestions? || event.SearchQuery?) && m.state != EnteringText ==> r == Transition(m, [])
    ensures event.SearchQuery? && event.query == "" ==> r == Transition(m, [])
    ensures event.SearchQuery? && m.state == EnteringText && event.query != "" ==>
      match SearchURLWithQuery(event.query, env)
      case Ok(url) =>
        && r.model == m.(state := SearchResultShown)
        && r.outputs == [LoadURL(url), SetSearchBarToText(event.query), SetSearchSuggestionVisibility(false)]
      case Err(error) => r == Transition(m, [ShowErrorAlert(error)])
    ensures ValidModel(m) ==> ValidModel(r.model)
  {
    match (m.state, event)
    case (EmptyView, EnteredText(text)) => FetchSuggestionsForText(m, text, env)
    case (EnteringText, EnteredText(text)) => FetchSuggestionsForText(m, text, env)
    case (EnteringText, ShowSuggestions(suggestions)) => ShowSuggestionsFor(m, suggestions)
    case (EnteringText, SearchQuery(query)) => SearchQueryFor(m, query, env)
    case (SearchResultShown, EnteredText(text)) => FetchSuggestionsForText(m, text, env)
    case _ => Transition(m, [])
  }

  /** The completion closure given to `suggestionsForText`, run when task
      `task` delivers `outcome`: an error becomes one alert; a response raises
      `showSuggestions`; neither does nothing. Nothing compares `task` with the
      stored task. A task id that was never issued cannot be delivered and
      changes nothing. */
  function FetchCompleted(m: Model, task: nat, outcome: TransportOutcome, env: Env): (r: Transition)
    ensures task < |m.api.issued| ==>
      var c := CompletionFor(Classify(m.api.issued[task].networkRequest, outcome, env));
      && (c.error.Some? ==> r == Transition(m, [ShowErrorAlert(c.error.value)]))
      && (c.error.None? && c.response.None? ==> r == Transition(m, []))
      && (c.response.Some? ==> r == Handle(m, ShowSuggestions(c.response.value.suggestions), env))
    ensures r.model.state == m.state && r.model.api == m.api
  {
    if task >= |m.api.issued| then Transition(m, [])
    else
      var c := CompletionFor(Classify(m.api.issued[task].networkRequest, outcome, env));
      if c.error.Some? then Transition(m, [ShowErrorAlert(c.error.value)])
      else if c.response.Some? then Handle(m, ShowSuggestions(c.response.value.suggestions), env)
      else Transition(m, [])
  }

  /** What reaches the view model from outside: the two search-bar delegate
      calls (the search button sends `searchBar.text ?? ""`), a suggestion row
      selection (only when the row's cell has a label text), and a fetch
      completion delivered on the main queue. */
  datatype Input =
    | SearchBarTextChanged(text: string)
    | SearchButtonClicked(barText: Option<string>)
    | SuggestionRowSelected(cellText: Option<string>)
    | FetchDelivered(task: nat, outcome: TransportOutcome)

  function Step(m: Model, input: Input, env: Env): (r: Transition)
    ensures ValidModel(m) ==> ValidModel(r.model)
  {
    match input
    case SearchBarTextChanged(text) => Handle(m, EnteredText(text), env)
    case SearchButtonClicked(barText) => Handle(m, SearchQuery(barText.GetOr("")), env)
    case SuggestionRowSelected(cellText) =>
      if cellText.Some? then Handle(m, SearchQuery(cellText.value), env) else Transition(m, [])
    case FetchDelivered(task, outcome) => FetchCompleted(m, task, outcome, env)
  }

  /** The inputs applied one after another, their effects concatenated. */
  function Run(m: Model, inputs: seq<Input>, env: Env): (t: Transition)
    decreases |inputs|
  {
    if |inputs| == 0 then Transition(m, [])
    else
      var first := Step(m, inputs[0], env);
      var rest := Run(first.model, inputs[1..], env);
      Transition(rest.model, first.outputs + rest.outputs)
  }

  // ---------------------------------------------------------------------------
  // Properties of whole sessions

  /** Along any session from a valid model, every suggestion task ever
      started except the stored one has been cancelled. */
  lemma {:induction false} RunKeepsOneLiveTask(m: Model, inputs: seq<Input>, env: Env)
    requires ValidModel(m)
    ensures ValidModel(Run(m, inputs, env).model)
    decreases |inputs|
  {
    if |inputs| > 0 {
      RunKeepsOneLiveTask(Step(m, inputs[0], env).model, inputs[1..], env);
    }
  }

  /** The suggestions last published to the table, `current` if none. */
  function LastPublished(outputs: seq<Output>, current: seq<string>): (published: seq<string>)
  {
    if |outputs| == 0 then current
    else LastPublished(outputs[1..], if outputs[0].UpdateSearchSuggestions? then outputs[0].suggestions else current)
  }

  lemma {:induction false} LastPublishedConcat(a: seq<Output>, b: seq<Output>, current: seq<string>)
    ensures LastPublished(a + b, current) == LastPublished(b, LastPublished(a, current))
  {
    if |a| == 0 {
      assert a + b == b;
    } else {
      assert (a + b)[1..] == a[1..] + b;
      LastPublishedConcat(a[1..], b, if a[0].UpdateSearchSuggestions? then a[0].suggestions else current);
    }
  }

  /** After one step the model holds the suggestions last published in that
      step, or its earlier ones if none were published. A step that changes
      the list publishes the new list, and clearing on empty text publishes
      `[]` even when the list was already empty. */
  lemma StepPublishesSuggestions(m: Model, input: Input, env: Env)
    ensures var r := Step(m, input, env);
            r.model.suggestions == LastPublished(r.outputs, m.suggestions)
    ensures var r := Step(m, input, env);
            r.model.suggestions != m.suggestions ==> UpdateSearchSuggestions(r.model.suggestions) in r.outputs
    ensures input.SearchBarTextChanged? && input.text == "" ==>
            UpdateSearchSuggestions([]) in Step(m, input, env).outputs
  {
    var r := Step(m, input, env);
    if input.SearchBarTextChanged? && input.text == "" {
      var cleared: seq<Output> := [UpdateSearchSuggestions([])];
      assert r.outputs[1..] == cleared && cleared[1..] == [];
      assert LastPublished(r.outputs, m.suggestions) == LastPublished(cleared, m.suggestions) == [];
    } else if |r.outputs| == 2 && r.outputs[0].UpdateSearchSuggestions? {
      var u := r.outputs[0].suggestions;
      assert r.model.suggestions == u;
      var shown: seq<Output> := [r.outputs[1]];
      assert r.outputs[1..] == shown && shown[1..] == [];
      assert LastPublished(r.outputs, m.suggestions) == LastPublished(shown, u) == u;
    } else {
      NothingPublished(r.outputs, m.suggestions);
    }
  }

  lemma {:induction false} NothingPublished(outputs: seq<Output>, current: seq<string>)
    requires forall i :: 0 <= i < |outputs| ==> !outputs[i].UpdateSearchSuggestions?
    ensures LastPublished(outputs, current) == current
  {
    if |outputs| > 0 {
      NothingPublished(outputs[1..], current);
    }
  }

  /** The suggestion table always shows what was last published to it: the
      suggestions the model holds after any session are those of the last
      `UpdateSearchSuggestions` effect, or the initial ones if there was none. */
  lemma {:induction false} RunPublishesSuggestions(m: Model, inputs: seq<Input>, env: Env)
    ensures var r := Run(m, inputs, env);
            r.model.suggestions == LastPublished(r.outputs, m.suggestions)
    decreases |inputs|
  {
    if |inputs| > 0 {
      var first := Step(m, inputs[0], env);
      var rest := Run(first.model, inputs[1..], env);
      StepPublishesSuggestions(m, inputs[0], env);
      RunPublishesSuggestions(first.model, inputs[1..], env);
      LastPublishedConcat(first.outputs, rest.outputs, m.suggestions);
    }
  }

  /** A session reaches `searchResultShown` only by loading a URL: if it ends
      there from any other state, some effect on the way was `LoadURL`. */
  lemma {:induction false} ResultShownOnlyAfterLoad(m: Model, inputs: seq<Input>, env: Env)
    requires m.state != SearchResultShown
    requires Run(m, inputs, env).model.state == SearchResultShown
    ensures exists i :: 0 <= i < |Run(m, inputs, env).outputs| && Run(m, inputs, env).outputs[i].LoadURL?
    decreases |inputs|
  {
    var first := Step(m, inputs[0], env);
    var rest := Run(first.model, inputs[1..], env);
    assert Run(m, inputs, env).outputs == first.outputs + rest.outputs;
    if first.model.state == SearchResultShown {
      assert first.outputs[0].LoadURL?;
      assert Run(m, inputs, env).outputs[0] == first.outputs[0];
    } else {
      ResultShownOnlyAfterLoad(first.model, inputs[1..], env);
      var i :| 0 <= i < |rest.outputs| && rest.outputs[i].LoadURL?;
      assert Run(m, inputs, env).outputs[|first.outputs| + i] == rest.outputs[i];
    }
  }

  // ---------------------------------------------------------------------------
  // Properties of single inputs

  /** Entering empty text hides the suggestion list, then clears it, and
      neither starts nor cancels a fetch, from every state. */
  lemma EmptyTextClearsWithoutFetching(m: Model, env: Env)
    ensures var r := Step(m, SearchBarTextChanged(""), env);
            && r.outputs == [SetSearchSuggestionVisibility(false), UpdateSearchSuggestions([])]
            && r.model == m.(state := EnteringText, suggestions := [])
  {
  }

  /** Entering non-empty text cancels the stored task and, unless the request
      cannot be made, starts exactly one new, uncancelled task which becomes
      the stored one; nothing is shown until it completes. */
  lemma TextStartsOneFetch(m: Model, text: string, env: Env)
    requires ValidModel(m) && text != ""
    ensures var r := Step(m, SearchBarTextChanged(text), env);
            && r.model.state == EnteringText
            && (m.api.networkTask.Some? ==> m.api.networkTask.value in r.model.api.cancelled)
            && (r.outputs == [] ==>
                  && |r.model.api.issued| == |m.api.issued| + 1
                  && r.model.api.networkTask == Some(|m.api.issued|)
                  && |m.api.issued| !in r.model.api.cancelled)
            && (r.outputs != [] ==>
                  && |r.outputs| == 1 && r.outputs[0].ShowErrorAlert?
                  && r.model.api.issued == m.api.issued)
  {
  }

  /** A completion whose transport reports the cancellation of its task
      changes nothing and shows nothing, whatever the state. */
  lemma CancelledFetchIsIgnored(m: Model, task: nat, outcome: TransportOutcome, env: Env)
    requires outcome.error.Some? && IsCancellation(outcome.error.value)
    ensures FetchCompleted(m, task, outcome, env) == Transition(m, [])
  {
    if task < |m.api.issued| {
      FetchPipeline(m.api.issued[task].networkRequest, outcome, env);
    }
  }

  /** Suggestions that arrive once the view has left `enteringText` (after a
      search, say) are dropped. */
  lemma LateSuggestionsAfterSearchAreDropped(m: Model, task: nat, outcome: TransportOutcome, env: Env)
    requires m.state != EnteringText
    ensures var r := FetchCompleted(m, task, outcome, env);
            r.model == m && forall i :: 0 <= i < |r.outputs| ==> r.outputs[i].ShowErrorAlert?
  {
  }

  /** The completion of a task that has since been cancelled is still shown if
      the transport delivered its body before the cancellation took effect:
      the view model does not compare tasks, it relies on the transport
      reporting the cancellation. */
  lemma SupersededSuccessIsStillShown(m: Model, task: nat, outcome: TransportOutcome, env: Env)
    requires m.state == EnteringText
    requires task < |m.api.issued| && task in m.api.cancelled
    requires outcome.error.None? && IsHttp(outcome) && IsSuccessCode(outcome.response.value.statusCode)
    requires outcome.response.value.mimeType == Some(JsonMimeType) && outcome.data.Some?
    requires env.decodeJson(outcome.data.value).Some? && IsSuggestionPayload(env.decodeJson(outcome.data.value).value)
    ensures var s := ParseNetworkResponseData(env.decodeJson(outcome.data.value).value).value.suggestions;
            FetchCompleted(m, task, outcome, env).outputs
              == [UpdateSearchSuggestions(s), SetSearchSuggestionVisibility(s != [])]
  {
    FetchPipeline(m.api.issued[task].networkRequest, outcome, env);
  }

  /** Showing the same suggestions twice publishes them twice, identically,
      and leaves the same model as showing them once. */
  lemma ShowSuggestionsIsIdempotent(m: Model, suggestions: seq<string>, env: Env)
    ensures var once := Handle(m, ShowSuggestions(suggestions), env);
            var twice := Handle(once.model, ShowSuggestions(suggestions), env);
            twice.model == once.model && twice.outputs == once.outputs
  {
  }

  /** Selecting a suggestion row with text `s` does what pressing the search
      button with `s` in the bar does; a missing bar text searches for "",
      which does nothing. */
  lemma RowSelectionIsSearch(m: Model, s: string, env: Env)
    ensures Step(m, SuggestionRowSelected(Some(s)), env) == Step(m, SearchButtonClicked(Some(s)), env)
    ensures Step(m, SearchButtonClicked(None), env) == Transition(m, [])
  {
  }

  // ---------------------------------------------------------------------------
  // Sessions on a platform that parses both endpoints as written

  ghost predicate PlainPlatform(env: Env) {
    PlainlyParses(env, SearchSuggestionURLString) && PlainlyParses(env, SearchQueryURLString)
  }

  /** Typing "par" in a fresh view and receiving `["par", ["paris", "parrot"]]`
      publishes those two suggestions and shows the list. */
  lemma TypingParShowsSuggestions(env: Env, body: Data)
    requires PlainPlatform(env)
    requires env.decodeJson(body) == Some(JArray([JString("par"), JArray([JString("paris"), JString("parrot")])]))
    ensures var typed := Step(InitialModel(), SearchBarTextChanged("par"), env);
            var done := Step(typed.model, FetchDelivered(0, TransportOutcome(Some(body), Some(HTTPURLResponse(200, Some(JsonMimeType))), None)), env);
            && typed.outputs == []
            && done.outputs == [UpdateSearchSuggestions(["paris", "parrot"]), SetSearchSuggestionVisibility(true)]
            && done.model.state == EnteringText
  {
    SuggestionRequestForText(EmptySlot, "par", env);
    var payload := JArray([JString("par"), JArray([JString("paris"), JString("parrot")])]);
    assert ParseNetworkResponseData(payload).value.suggestions == ["paris", "parrot"];
  }

  /** Clearing the bar does not cancel the fetch started for the earlier
      text: typing "a", then clearing the bar, then receiving that fetch's
      `["a", ["apple"]]` publishes `["apple"]` and shows the list under an
      empty search bar. */
  lemma ClearedBarStillShowsEarlierSuggestions(env: Env, body: Data)
    requires PlainPlatform(env)
    requires env.decodeJson(body) == Some(JArray([JString("a"), JArray([JString("apple")])]))
    ensures var typed := Step(InitialModel(), SearchBarTextChanged("a"), env);
            var cleared := Step(typed.model, SearchBarTextChanged(""), env);
            var done := Step(cleared.model, FetchDelivered(0, TransportOutcome(Some(body), Some(HTTPURLResponse(200, Some(JsonMimeType))), None)), env);
            && cleared.model.api.networkTask == Some(0) && 0 !in cleared.model.api.cancelled
            && done.outputs == [UpdateSearchSuggestions(["apple"]), SetSearchSuggestionVisibility(true)]
            && done.model.suggestions == ["apple"]
  {
    SuggestionRequestForText(EmptySlot, "a", env);
    var payload := JArray([JString("a"), JArray([JString("apple")])]);
    assert ParseNetworkResponseData(payload).value.suggestions == ["apple"];
  }

  /** A server answering 500 to the fetch for "xy" raises one alert carrying
      that status code, and the view stays in `enteringText`. */
  lemma ServerErrorRaisesAlert(env: Env)
    requires PlainPlatform(env)
    ensures var typed := Step(InitialModel(), SearchBarTextChanged("xy"), env);
            var done := Step(typed.model, FetchDelivered(0, TransportOutcome(None, Some(HTTPURLResponse(500, Some(JsonMimeType))), None)), env);
            && done.outputs == [ShowErrorAlert(Network(NetworkClient.ServerError(500)))]
            && done.model.state == EnteringText
  {
    SuggestionRequestForText(EmptySlot, "xy", env);
  }

  /** Searching "weather" while entering text loads the Bing search for it,
      puts the query in the search bar, hides the suggestions, in that order,
      and shows the result. */
  lemma SearchingWeatherLoadsResults(m: Model, env: Env)
    requires PlainPlatform(env) && m.state == EnteringText
    ensures var r := Step(m, SearchButtonClicked(Some("weather")), env);
            && r.outputs == [LoadURL(Url(SearchQueryURLString, [QueryItem(QueryKey, "weather")])),
                             SetSearchBarToText("weather"), SetSearchSuggestionVisibility(false)]
            && r.model.state == SearchResultShown
  {
    SearchURLForQuery("weather", env);
  }
}
