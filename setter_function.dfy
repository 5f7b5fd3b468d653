/**
 * Setter chaining: `New(baseURL)` returns a client with default optional
 * fields, and each setter assigns one field and returns the same receiver,
 * so that calls can be chained.
 */
module SetterFunction {
  import opened Wrappers
  import opened Clients
  import FunctionalOptions
  import TraditionalConstructor

  /** The Go `Client` struct of this example, with its two setters. */
  class Client {
    var baseURL: string
    var header: map<string, string>
    var logger: Option<Logger>
    var baseClient: HttpClient?

    /** The field values of this client. */
    function State(): (s: ClientState)
      reads this
    {
      ClientState(baseURL, header, logger, baseClient != null)
    }

    /** `New(baseURL)`: the base URL, an empty header map, a nil logger and a fresh base client. */
    constructor (baseURL: string)
      ensures State() == FunctionalOptions.Build(baseURL, [])
      ensures baseClient != null && fresh(baseClient)
    {
      this.baseURL := baseURL;
      header := map[];
      logger := None;
      baseClient := new HttpClient();
    }

    /** `SetHeader(header)`: replaces the header map, changes no other field, and returns the receiver. */
    method SetHeader(header: map<string, string>) returns (r: Client)
      modifies this
      ensures r == this
      ensures this.header == header
      ensures baseURL == old(baseURL) && logger == old(logger) && baseClient == old(baseClient)
      ensures State() == FunctionalOptions.Apply(FunctionalOptions.WithHeader(header), old(State()))
    {
      this.header := header;
      r := this;
    }

    /** `SetLogger(logger)`: sets the logger, changes no other field, and returns the receiver. */
    method SetLogger(logger: Option<Logger>) returns (r: Client)
      modifies this
      ensures r == this
      ensures this.logger == logger
      ensures baseURL == old(baseURL) && header == old(header) && baseClient == old(baseClient)
      ensures State() == FunctionalOptions.Apply(FunctionalOptions.WithLogger(logger), old(State()))
    {
      this.logger := logger;
      r := this;
    }
  }

  /**
   * `New(baseURL).SetHeader(header).SetLogger(logger)`: the same field values
   * as the functional-options `New(baseURL, WithHeader(header), WithLogger(logger))`
   * and as the traditional `New(baseURL, header, logger)`.
   */
  method NewChained(baseURL: string, header: map<string, string>, logger: Option<Logger>) returns (c: Client)
    ensures fresh(c) && c.baseClient != null && fresh(c.baseClient)
    ensures c.State() == FunctionalOptions.Build(baseURL,
      [FunctionalOptions.WithHeader(header), FunctionalOptions.WithLogger(logger)])
    ensures c.State() == TraditionalConstructor.New(baseURL, header, logger)
  {
    c := new Client(baseURL);
    c := c.SetHeader(header);
    c := c.SetLogger(logger);
    FunctionalOptions.BuildHeaderThenLogger(baseURL, header, logger);
  }

  /**
   * A chain of setter calls on `c`, one call per element of `calls`, in
   * order. Each call returns the receiver, so the chain ends on `c` itself,
   * and the result is the same as running the matching options. In any
   * chain, the last setter called on a field decides its value, whatever
   * earlier setters wrote, and a field no setter touches keeps its value.
   */
  method ChainLastSetterWins(c: Client, calls: seq<FunctionalOptions.ClientOption>) returns (r: Client)
    modifies c
    ensures r == c
    ensures c.State() == FunctionalOptions.ApplyAll(old(c.State()), calls)
    ensures c.header == FunctionalOptions.LastHeader(calls, old(c.header))
    ensures c.logger == FunctionalOptions.LastLogger(calls, old(c.logger))
    ensures c.baseURL == old(c.baseURL) && c.baseClient == old(c.baseClient)
  {
    ghost var s0 := c.State();
    r := c;
    for i := 0 to |calls|
      invariant r == c
      invariant c.baseClient == old(c.baseClient)
      invariant c.State() == FunctionalOptions.ApplyAll(s0, calls[..i])
    {
      match calls[i] {
        case HeaderOption(h) => r := r.SetHeader(h);
        case LoggerOption(l) => r := r.SetLogger(l);
      }
      FunctionalOptions.ApplyAllSnoc(s0, calls[..i], calls[i]);
      assert calls[..i + 1] == calls[..i] + [calls[i]];
    }
    assert calls[..|calls|] == calls;
    FunctionalOptions.ApplyAllFields(s0, calls);
  }
}
