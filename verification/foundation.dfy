/** Abstractions of the platform types and calls the search pipeline relies on
    but whose code is not part of this model: `URL`, `URLQueryItem`,
    `URLComponents`, `Data` and `JSONSerialization`. */
module Foundation {
  import opened Results

  /** A `URLQueryItem` with a non-nil value (every item the app builds has one). */
  datatype QueryItem = QueryItem(name: string, value: string)

  /** A URL seen as everything before its query string plus its query items. */
  datatype Url = Url(base: string, queryItems: seq<QueryItem>)

  /** The values `JSONSerialization` can hand back, as far as the app tells
      them apart: strings, arrays, and everything else. */
  datatype Json = JString(str: string) | JArray(items: seq<Json>) | JOther

  /** A response body. */
  type Data = seq<bv8>

  /** The foreign calls, as uninterpreted and possibly failing functions:
      - `parseUrl`: `URL(string:)`;
      - `decomposes`: whether `URLComponents(url:resolvingAgainstBaseURL:)` succeeds on a URL;
      - `recomposes`: whether `components.url` is non-nil for the components of a URL;
      - `absoluteString`: `URL.absoluteString`;
      - `decodeJson`: `try? JSONSerialization.jsonObject(with:options:)`. */
  datatype Env = Env(
    parseUrl: string -> Option<Url>,
    decomposes: Url -> bool,
    recomposes: Url -> bool,
    absoluteString: Url -> string,
    decodeJson: Data -> Option<Json>)

  /** An environment in which `s` parses to a URL without a query, that URL
      decomposes into components, and it recomposes with any one query item
      added. This is how the platform treats the two constant endpoints of the
      app. */
  ghost predicate PlainlyParses(env: Env, s: string)
  {
    && env.parseUrl(s) == Some(Url(s, []))
    && env.decomposes(Url(s, []))
    && (forall q :: env.recomposes(Url(s, [q])))
  }
}
