/**
 * The configuration struct: the caller fills a `Config` and passes a
 * pointer to it; `NewWithConfig` copies its fields into a new client.
 */
module ConfigStruct {
  import opened Wrappers
  import opened Clients
  import TraditionalConstructor

  /** The Go `Config` struct, passed by pointer. */
  class Config {
    var baseURL: string
    var header: map<string, string>
    var logger: Option<Logger>

    /** The composite literal `&Config{baseURL, header, logger}`. */
    constructor (baseURL: string, header: map<string, string>, logger: Option<Logger>)
      ensures this.baseURL == baseURL && this.header == header && this.logger == logger
    {
      this.baseURL := baseURL;
      this.header := header;
      this.logger := logger;
    }
  }

  /**
   * `NewWithConfig(config)`: reads `config` and nothing else (it cannot
   * modify it), and builds the client the traditional constructor builds from
   * the same three values.
   */
  function NewWithConfig(config: Config): (c: ClientState)
    reads config
    ensures c == TraditionalConstructor.New(config.baseURL, config.header, config.logger)
  {
    ClientState(config.baseURL, config.header, config.logger, true)
  }

  /** `NewWithConfig(&Config{u, h, l})` equals the traditional `New(u, h, l)`. */
  method NewWithConfigLiteral(baseURL: string, header: map<string, string>, logger: Option<Logger>) returns (c: ClientState)
    ensures c == TraditionalConstructor.New(baseURL, header, logger)
  {
    var config := new Config(baseURL, header, logger);
    c := NewWithConfig(config);
  }
}
