/** `HTTPClient.swift`: building a network request from a URL string, and the
    ordered checks that turn what the URL loading system delivered into the
    `HTTPResponse` handed to the completion. */
module HttpClient {
  import opened Results
  import opened Foundation
  import opened NetworkClient
  import opened Errors
  import opened UrlExtensions
  import opened UrlRequestExtension

  /** `HTTPSuccessCodes`, the closed range 200...299. */
  predicate IsSuccessCode(statusCode: int) {
    200 <= statusCode <= 299
  }

  /** The success range is exactly the codes of the 2xx class. */
  lemma SuccessCodesAreTwoHundreds(statusCode: int)
    ensures IsSuccessCode(statusCode) <==> statusCode / 100 == 2
  {
  }

  /** `HTTPMineType.json`. */
  const JsonMimeType: string := "application/json"

  /** The `URLResponse` a data task delivers: an HTTP response with its status
      code and optional MIME type, or some other kind of response. */
  datatype UrlResponse = HTTPURLResponse(statusCode: int, mimeType: Option<string>) | OtherURLResponse

  /** The three arguments of a data task's completion handler. */
  datatype TransportOutcome = TransportOutcome(data: Option<Data>, response: Option<UrlResponse>, error: Option<Error>)

  /** `HTTPResponse`: the request it answers, the decoded body, the error. */
  datatype NetworkResponse = NetworkResponse(request: NetworkRequest, response: Option<Json>, error: Option<Error>)

  predicate IsHttp(o: TransportOutcome) {
    o.response.Some? && o.response.value.HTTPURLResponse?
  }

  /** The response the HTTP client passes to the completion (on the main
      queue) for one delivered outcome. The guards run in this order: a
      transport error (a cancellation becomes no error at all), a response
      that is not HTTP or has a status outside the success range, a MIME type
      other than JSON (the empty string standing for a missing one), a
      missing body; past all of them the body is decoded, a decoding failure
      giving no response and no error. A function has one result, so the
      completion runs exactly once on every path. */
  function Classify(request: NetworkRequest, o: TransportOutcome, env: Env): (r: NetworkResponse)
    ensures r.request == request
    ensures o.error.Some? ==> r.response.None? && r.error == (if IsCancellation(o.error.value) then None else o.error)
    ensures r.error.Some? ==> !IsCancellation(r.error.value)
    ensures r.response.Some? ==> r.error.None?
    ensures r.response.Some? <==>
      && o.error.None? && IsHttp(o) && IsSuccessCode(o.response.value.statusCode)
      && o.response.value.mimeType == Some(JsonMimeType)
      && o.data.Some? && env.decodeJson(o.data.value).Some?
    ensures o.error.None? && r.error.Some? && r.error.value.Network? && r.error.value.network.ServerError? ==>
      && IsHttp(o)
      && o.response.value.statusCode == r.error.value.network.statusCode
      && !IsSuccessCode(o.response.value.statusCode)
  {
    if o.error.Some? then
      var newError := if IsCancellation(o.error.value) then None else o.error;
      NetworkResponse(request, None, newError)
    else if !(IsHttp(o) && IsSuccessCode(o.response.value.statusCode)) then
      var error := if IsHttp(o) then ServerError(o.response.value.statusCode) else InvalidResponseObject;
      NetworkResponse(request, None, Some(Network(error)))
    else
      var mime := o.response.value.mimeType;
      if mime != Some(JsonMimeType) then
        NetworkResponse(request, None, Some(Network(IncorrectReturnedDataType(mime.GetOr("")))))
      else if o.data.None? then
        NetworkResponse(request, None, None)
      else
        // `error` is the completion handler's argument, known to be nil here.
        NetworkResponse(request, env.decodeJson(o.data.value), o.error)
  }

  /** The guards of the classifier, each considered on its own. */
  datatype Check = TransportCheck | StatusCheck | MimeCheck | BodyCheck

  const CheckOrder: seq<Check> := [TransportCheck, StatusCheck, MimeCheck, BodyCheck]

  /** What one check decides when it fails, as the response payload and error
      of the completion; `None` when the check passes. */
  function Verdict(c: Check, o: TransportOutcome): (v: Option<(Option<Json>, Option<Error>)>)
  {
    match c
    case TransportCheck =>
      if o.error.None? then None
      else if IsCancellation(o.error.value) then Some((None, None))
      else Some((None, o.error))
    case StatusCheck =>
      if !IsHttp(o) then Some((None, Some(Network(InvalidResponseObject))))
      else if IsSuccessCode(o.response.value.statusCode) then None
      else Some((None, Some(Network(ServerError(o.response.value.statusCode)))))
    case MimeCheck =>
      var mime := if IsHttp(o) then o.response.value.mimeType else None;
      if mime == Some(JsonMimeType) then None
      else Some((None, Some(Network(IncorrectReturnedDataType(mime.GetOr(""))))))
    case BodyCheck =>
      if o.data.None? then Some((None, None)) else None
  }

  /** The verdict of the first failing check of `checks`, if any fails. */
  function FirstFailing(checks: seq<Check>, o: TransportOutcome): (v: Option<(Option<Json>, Option<Error>)>)
    ensures v.None? <==> forall i :: 0 <= i < |checks| ==> Verdict(checks[i], o).None?
  {
    if |checks| == 0 then None
    else if Verdict(checks[0], o).Some? then Verdict(checks[0], o)
    else FirstFailing(checks[1..], o)
  }

  /** The classifier is exactly "the first failing check of transport, status,
      MIME type and body decides; if none fails the body is decoded". */
  lemma ClassifyRunsChecksInOrder(request: NetworkRequest, o: TransportOutcome, env: Env)
    ensures var v := FirstFailing(CheckOrder, o);
            v.Some? ==> Classify(request, o, env) == NetworkResponse(request, v.value.0, v.value.1)
    ensures var v := FirstFailing(CheckOrder, o);
            v.None? ==> o.data.Some? && Classify(request, o, env) == NetworkResponse(request, env.decodeJson(o.data.value), None)
  {
    var v := FirstFailing(CheckOrder, o);
    assert CheckOrder[1..] == [StatusCheck, MimeCheck, BodyCheck];
    assert CheckOrder[1..][1..] == [MimeCheck, BodyCheck];
    assert CheckOrder[1..][1..][1..] == [BodyCheck];
    if v.None? {
      assert Verdict(CheckOrder[0], o).None?;
      assert Verdict(CheckOrder[1], o).None?;
      assert Verdict(CheckOrder[2], o).None?;
      assert Verdict(CheckOrder[3], o).None?;
    } else if Verdict(TransportCheck, o).Some? {
      assert v == Verdict(TransportCheck, o);
    } else {
      assert v == FirstFailing([StatusCheck, MimeCheck, BodyCheck], o);
      if Verdict(StatusCheck, o).None? {
        assert v == FirstFailing([MimeCheck, BodyCheck], o);
        if Verdict(MimeCheck, o).None? {
          assert v == FirstFailing([BodyCheck], o);
        }
      }
    }
  }

  /** `makeNetworkRequest`: a URL string that does not parse throws
      `invalidURL` carrying that string; otherwise the request holds the
      parsed URL and the given parameters and method, unchanged. */
  function MakeNetworkRequest(urlString: string, parameters: Parameters, httpMethod: string, env: Env)
    : (r: Result<NetworkRequest, Error>)
    ensures r.Ok? <==> env.parseUrl(urlString).Some?
    ensures r.Ok? ==> r.value == NetworkRequest(env.parseUrl(urlString).value, Some(parameters), httpMethod)
    ensures r.Err? ==> r.error == Network(InvalidURL(urlString))
  {
    match env.parseUrl(urlString)
    case None => Err(Network(InvalidURL(urlString)))
    case Some(url) => Ok(NetworkRequest(url, Some(parameters), httpMethod))
  }

  /** The synchronous part of `request`: it throws exactly when the
      `URLRequest` cannot be built, and otherwise starts a data task loading
      that request. */
  function StartRequest(request: NetworkRequest, env: Env): (r: Result<UrlRequest, Error>)
    ensures r.Ok? ==> r.value.httpMethod == request.httpMethod
    ensures request.parameters.None? ==> r == Ok(UrlRequest(request.url, request.httpMethod))
    ensures request.parameters.Some? ==>
              var appended := AppendingParameters(request.url, request.parameters.value, env);
              && (r.Ok? <==> appended.Ok?)
              && (r.Ok? ==> r.value == UrlRequest(appended.value, request.httpMethod))
    ensures r.Err? ==> r.error.Network? && r.error.network.InvalidURL?
  {
    FromNetworkRequest(request, env)
  }
}
