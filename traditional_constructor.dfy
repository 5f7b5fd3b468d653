/**
 * The traditional constructor: `New(baseURL, header, logger)` takes every
 * field as an argument and stores it as passed.
 */
module TraditionalConstructor {
  import opened Wrappers
  import opened Clients
  import FunctionalOptions

  /**
   * `New(baseURL, header, logger)`: the same client as the functional-options
   * `New(baseURL, WithHeader(header), WithLogger(logger))`.
   */
  function New(baseURL: string, header: map<string, string>, logger: Option<Logger>): (c: ClientState)
    ensures c == FunctionalOptions.Build(baseURL,
      [FunctionalOptions.WithHeader(header), FunctionalOptions.WithLogger(logger)])
  {
    FunctionalOptions.BuildHeaderThenLogger(baseURL, header, logger);
    ClientState(baseURL, header, logger, true)
  }
}
