/** The `URLRequest` initializer of `URLRequest+NetworkClient.swift`. */
module UrlRequestExtension {
  import opened Results
  import opened Foundation
  import opened NetworkClient
  import opened Errors
  import opened UrlExtensions

  /** The part of a `URLRequest` the app sets: the URL and the HTTP method. */
  datatype UrlRequest = UrlRequest(url: Url, httpMethod: string)

  /** `URLRequest(networkRequest:)`: the method is copied; the URL is the
      request's URL, with the parameters appended when there are any; an error
      from appending them is rethrown. */
  function FromNetworkRequest(request: NetworkRequest, env: Env): (r: Result<UrlRequest, Error>)
    ensures r.Ok? ==> r.value.httpMethod == request.httpMethod
    ensures request.parameters.None? ==> r == Ok(UrlRequest(request.url, request.httpMethod))
    ensures request.parameters.Some? ==>
      var appended := AppendingParameters(request.url, request.parameters.value, env);
      && (r.Ok? <==> appended.Ok?)
      && (r.Ok? ==> r.value.url == appended.value)
      && (r.Err? ==> r.error == appended.error)
  {
    var url :- if request.parameters.Some?
               then AppendingParameters(request.url, request.parameters.value, env)
               else Ok(request.url);
    Ok(UrlRequest(url, request.httpMethod))
  }

  /** Absent parameters and an empty dictionary build the same request: the
      URL is left untouched in both cases. */
  lemma NoParametersLeaveUrlUnchanged(url: Url, httpMethod: string, env: Env)
    ensures FromNetworkRequest(NetworkRequest(url, Some([]), httpMethod), env)
         == FromNetworkRequest(NetworkRequest(url, None, httpMethod), env)
         == Ok(UrlRequest(url, httpMethod))
  {
  }
}
