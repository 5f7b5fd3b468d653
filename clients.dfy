/**
 * The record that every example of the repository builds: an HTTP client
 * with a base URL, a header map, an optional logger and a base client.
 * Each Go example declares its own identical `Client` struct; this module
 * gives the one value view they share, so that the five construction
 * styles can be compared field for field.
 */
module Clients {
  import opened Wrappers

  /** The empty `ILogger` interface: an abstract type of non-nil loggers. */
  type Logger(!new)

  /** Stands for `net/http.Client`, a foreign type whose contents are not modelled. */
  class HttpClient {
    constructor () {}
  }

  /**
   * The field values of a `Client`. `hasBaseClient` records whether the
   * `baseClient` pointer is non-nil; `logger == None` is a nil logger.
   */
  datatype ClientState = ClientState(
    baseURL: string,
    header: map<string, string>,
    logger: Option<Logger>,
    hasBaseClient: bool)

  /**
   * The struct literal `New(baseURL)` builds in the examples that default the
   * optional fields: the base URL, an empty header map, a nil logger and a
   * freshly allocated base client.
   */
  function Defaults(baseURL: string): (c: ClientState)
  {
    ClientState(baseURL, map[], None, true)
  }
}
