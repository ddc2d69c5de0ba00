/** Swift's `Error` existential, restricted to the errors that reach the
    search pipeline: the app's own two error enums and the `NSError`s that
    the URL loading system reports. */
module Errors {
  import opened Results
  import opened NetworkClient
  import opened SearchApi

  datatype Error =
    | Network(network: NetworkError)
    | Search(search: SearchAPIError)
    /** An `NSError` from the URL loading system, known by its domain and code. */
    | Transport(domain: string, code: int)

  /** `NSURLErrorCancelled`, the code of a task cancelled by `cancel()`. */
  const URLErrorCancelled: int := -999

  /** The cancellation test of the HTTP client: it looks at the code of the
      error bridged to `NSError` and ignores the domain. The app's own enums
      bridge to small non-negative codes, so only transport errors qualify. */
  predicate IsCancellation(e: Error) {
    e.Transport? && e.code == URLErrorCancelled
  }

  /** Any error with the cancellation code counts as a cancellation, whatever
      its domain; none of the app's own errors does. */
  lemma CancellationIsDecidedByCode(domain: string, code: int, n: NetworkError, s: SearchAPIError)
    ensures IsCancellation(Transport(domain, code)) <==> code == -999
    ensures !IsCancellation(Network(n)) && !IsCancellation(Search(s))
  {
  }

  /** `localizedDescription` of an error, which the alert shows. The app's
      errors use their `errorDescription`; a transport error's text comes from
      the platform and is not part of this model (`None`). */
  function AlertMessage(e: Error): (m: Option<string>)
    ensures m.Some? <==> !e.Transport?
    ensures e.Network? ==> m == NetworkClient.ErrorDescription(e.network)
    ensures e.Search? ==> m == SearchApi.ErrorDescription(e.search)
  {
    match e
    case Network(n) => NetworkClient.ErrorDescription(n)
    case Search(s) => SearchApi.ErrorDescription(s)
    case Transport(_, _) => None
  }

  /** Two of the app's own errors raise the same alert text only if they are
      the same error, across both enums. */
  lemma AlertMessageInjective(a: Error, b: Error)
    requires !a.Transport? && !b.Transport?
    requires AlertMessage(a) == AlertMessage(b)
    ensures a == b
  {
    if a.Network? && b.Network? {
      NetworkClient.ErrorDescriptionInjective(a.network, b.network);
    } else if a.Search? && b.Search? {
      SearchApi.ErrorDescriptionInjective(a.search, b.search);
    } else if a.Network? {
      CrossFamilyMessagesDiffer(a.network, b.search);
    } else {
      CrossFamilyMessagesDiffer(b.network, a.search);
    }
  }

  /** A network error's description never equals a search error's: the
      messages differ within their first four characters. */
  lemma CrossFamilyMessagesDiffer(n: NetworkError, s: SearchAPIError)
    ensures NetworkClient.ErrorDescription(n) != SearchApi.ErrorDescription(s)
  {
    var dn := NetworkClient.ErrorDescription(n).value;
    var ds := SearchApi.ErrorDescription(s).value;
    if s.InvalidSearchSuggestionResponseData? {
      assert ds[0] == 'I' && ds[2] == 'v' && ds[3] == 'l';
      assert dn[0] != 'I' || dn[2] != 'v' || dn[3] != 'l';
    } else {
      assert ds[0] == 'S' && ds[2] == 'a';
      assert dn[0] != 'S' || dn[2] != 'a';
    }
  }
}
