/**
 * Multiple constructors: one `New` function per combination of the
 * optional fields the caller wants to give.
 */
module MultipleConstructors {
  import opened Wrappers
  import opened Clients
  import FunctionalOptions
  import TraditionalConstructor

  /** `New(baseURL)`: the functional-options `New` with no options, so every optional field at its default. */
  function New(baseURL: string): (c: ClientState)
    ensures c == FunctionalOptions.Build(baseURL, [])
  {
    ClientState(baseURL, map[], None, true)
  }

  /**
   * `NewWithBaseURLAndHeaders(baseURL, header)`: the three-argument
   * constructor with a nil logger, and the functional-options `New` with one
   * `WithHeader` option.
   */
  function NewWithBaseURLAndHeaders(baseURL: string, header: map<string, string>): (c: ClientState)
    ensures c == NewWithBaseURLHeadersAndLogger(baseURL, header, None)
    ensures c == FunctionalOptions.Build(baseURL, [FunctionalOptions.WithHeader(header)])
  {
    FunctionalOptions.BuildHeaderOnly(baseURL, header);
    ClientState(baseURL, header, None, true)
  }

  /** `NewWithBaseURLHeadersAndLogger(baseURL, header, logger)`: the traditional constructor. */
  function NewWithBaseURLHeadersAndLogger(baseURL: string, header: map<string, string>, logger: Option<Logger>): (c: ClientState)
    ensures c == TraditionalConstructor.New(baseURL, header, logger)
  {
    ClientState(baseURL, header, logger, true)
  }

  /** Every constructor of this family sets `baseURL` to its argument and allocates a base client. */
  lemma EveryConstructorSetsBase(baseURL: string, header: map<string, string>, logger: Option<Logger>)
    ensures New(baseURL).baseURL == baseURL && New(baseURL).hasBaseClient
    ensures NewWithBaseURLAndHeaders(baseURL, header).baseURL == baseURL
    ensures NewWithBaseURLAndHeaders(baseURL, header).hasBaseClient
    ensures NewWithBaseURLHeadersAndLogger(baseURL, header, logger).baseURL == baseURL
    ensures NewWithBaseURLHeadersAndLogger(baseURL, header, logger).hasBaseClient
  {
  }
}
