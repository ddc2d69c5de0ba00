/** The network-layer vocabulary of `NetworkClient.swift`: the `NetworkError`
    cases with their user-facing descriptions, the parameter dictionary and
    the request shape handed from the API layer to the HTTP client. */
module NetworkClient {
  import opened Results
  import opened Foundation
  import Decimal

  /** `NetworkError`. The first case keeps the spelling `unkown` of the app. */
  datatype NetworkError =
    | Unkown
    | InvalidURL(urlString: string)
    | InvalidResponseObject
    | ServerError(statusCode: int)
    | IncorrectReturnedDataType(returnType: string)

  const UnknownMessage: string := "Unknown network error."
  const InvalidURLPrefix: string := "Invalid URL: "
  const InvalidResponseObjectMessage: string := "Invalid response object."
  const ServerErrorPrefix: string := "Server error with code: "
  const IncorrectReturnedDataTypePrefix: string := "Incorrect returned data type: "

  /** `errorDescription`: every case has a description; the cases carrying a
      value append it to a fixed prefix, the status code in decimal. */
  function ErrorDescription(e: NetworkError): (d: Option<string>)
    ensures d.Some?
    ensures e.Unkown? ==> d.value == UnknownMessage
    ensures e.InvalidResponseObject? ==> d.value == InvalidResponseObjectMessage
    ensures e.InvalidURL? ==> d.value == InvalidURLPrefix + e.urlString
    ensures e.ServerError? ==> d.value == ServerErrorPrefix + Decimal.IntToString(e.statusCode)
    ensures e.IncorrectReturnedDataType? ==> d.value == IncorrectReturnedDataTypePrefix + e.returnType
  {
    match e
    case Unkown => Some(UnknownMessage)
    case InvalidURL(urlString) => Some(InvalidURLPrefix + urlString)
    case InvalidResponseObject => Some(InvalidResponseObjectMessage)
    case ServerError(statusCode) => Some(ServerErrorPrefix + Decimal.IntToString(statusCode))
    case IncorrectReturnedDataType(returnType) => Some(IncorrectReturnedDataTypePrefix + returnType)
  }

  /** The status code can be read back from a server error's description. */
  lemma ServerErrorDescriptionCarriesCode(code: int)
    ensures var d := ErrorDescription(ServerError(code)).value;
            |d| > |ServerErrorPrefix| && d[..|ServerErrorPrefix|] == ServerErrorPrefix
            && Decimal.ParseInt(d[|ServerErrorPrefix|..]) == Some(code)
  {
    var d := ErrorDescription(ServerError(code)).value;
    assert d[|ServerErrorPrefix|..] == Decimal.IntToString(code);
    Decimal.IntToStringRoundTrip(code);
  }

  /** Two network errors with the same description are the same error: the
      message always tells the user which case occurred and with what value. */
  lemma ErrorDescriptionInjective(a: NetworkError, b: NetworkError)
    requires ErrorDescription(a) == ErrorDescription(b)
    ensures a == b
  {
    var d := ErrorDescription(a).value;
    // The character at index 2 or 8 tells the five messages apart.
    match a
    case Unkown =>
      assert d[0] == 'U';
    case InvalidURL(s) =>
      assert d[2] == 'v' && d[8] == 'U';
      if b.InvalidURL? {
        assert s == d[|InvalidURLPrefix|..] == b.urlString;
      }
    case InvalidResponseObject =>
      assert d[2] == 'v' && d[8] == 'r';
    case ServerError(c) =>
      assert d[0] == 'S';
      if b.ServerError? {
        assert d[|ServerErrorPrefix|..] == Decimal.IntToString(c) == Decimal.IntToString(b.statusCode);
        Decimal.IntToStringInjective(c, b.statusCode);
      }
    case IncorrectReturnedDataType(t) =>
      assert d[2] == 'c';
      if b.IncorrectReturnedDataType? {
        assert t == d[|IncorrectReturnedDataTypePrefix|..] == b.returnType;
      }
  }

  /** No two pairs of a parameter list share a key. */
  predicate DistinctKeys(p: seq<(string, string)>) {
    forall i, j :: 0 <= i < j < |p| ==> p[i].0 != p[j].0
  }

  /** `NetworkParameters`, a `[String: String]` dictionary, written as its
      pairs in the dictionary's iteration order, which Swift leaves
      unspecified: the order is part of the input, not chosen by the model. */
  type Parameters = p: seq<(string, string)> | DistinctKeys(p) witness []

  /** `HTTPMethod.get`. */
  const Get: string := "GET"

  /** `NetworkRequest` / `HTTPRequest`. */
  datatype NetworkRequest = NetworkRequest(url: Url, parameters: Option<Parameters>, httpMethod: string)
}
