/**
 * Everything the crawl engine asks of the outside world, as pure functions
 * supplied by the caller.  `fetch` is asked once per URL (the crawler never
 * fetches a URL twice), the prioritiser is given the number of earlier calls
 * so that repeated calls may answer differently, and page timestamps are
 * indexed by page number.
 */
module Environment {
  import opened Wrappers

  /** A parsed URL: its serialised form (`href`) and its host name. */
  datatype Url = Url(href: string, hostname: string)

  /** What a single GET produces: a network failure, or a status, a content-type header (if any) and a body. */
  datatype Response =
    | NetworkFailure(message: string)
    | Http(status: nat, contentType: Option<string>, body: string)

  datatype Env = Env(
    /** `new URL(s)`; `None` when it throws. */
    parse: string -> Option<Url>,
    /** `new URL(href, base)`; `None` when it throws. */
    resolve: (string, string) -> Option<Url>,
    /** The response to a GET of the URL. */
    fetch: string -> Response,
    /** The prioritiser's answer to its n-th call for these URLs and this query; `None` when it fails. */
    prioritize: (nat, seq<string>, string) -> Option<seq<string>>,
    /** `Some(message)` when `new RegExp(pattern)` throws. */
    regexError: string -> Option<string>,
    /** Whether a well-formed pattern matches somewhere in the string. */
    matches: (string, string) -> bool,
    /** The ISO timestamp taken when the n-th page result is built. */
    timestamp: nat -> string)

  /**
   * The clock readings a crawl takes: the milliseconds between the start and
   * the end of the loop, the `Date.now()` reading that names the crawl, and
   * the ISO time the result was created at.
   */
  datatype Clock = Clock(elapsedMs: nat, idMs: nat, createdAt: string)
}
