/** Requests, responses and header values as the worker reads them. */
module Http {
  import opened Wrappers

  /** What `Headers.get` returns: null when the header is absent, otherwise its string value. */
  type HeaderValue = Option<string>

  /** JavaScript truthiness of a header value: null and the empty string are both falsy. */
  predicate Truthy(h: HeaderValue)
  {
    h.Some? && h.value != ""
  }

  /**
   * A response as the cache stores it. The two validator headers the worker
   * reads are kept as values; of the `Vary` header only whether it lists `*`
   * (the response varies on everything) is kept, since that alone makes the
   * cache refuse it. No other header is part of this model.
   */
  datatype Response = Response(status: int, body: string, etag: HeaderValue, lastModified: HeaderValue, varyAll: bool)

  /** An intercepted request: its URL (also its cache key) and its destination kind. */
  datatype Request = Request(url: string, destination: string)

  /** What the network does with one fetch: it rejects, or it resolves with a response. */
  datatype FetchOutcome = NetworkError | Fetched(response: Response)

  /** What the page gets: a response, or the rejection of the promise given to `respondWith`. */
  datatype Reply = Respond(response: Response) | Rejected

  /** `cache.put` stores a response unless it is partial content (206) or varies on everything. */
  predicate PutAccepts(r: Response)
  {
    r.status != 206 && !r.varyAll
  }

  /** The cache key of a request. */
  function Key(req: Request): string
  {
    req.url
  }

  /** The synthetic response served when offline with nothing cached. */
  function OfflineResponse(): Response
  {
    Response(503, "Offline", None, None, false)
  }

  /** `String.prototype.endsWith`. */
  predicate EndsWith(s: string, suffix: string)
  {
    |suffix| <= |s| && s[|s| - |suffix|..] == suffix
  }
}
