/**
 * The functional-options pattern: `New(baseURL, opts...)` allocates a client
 * with default optional fields and then runs every option on it, in order.
 *
 * A Go `Option` is a closure over `*Client`. The closures the two factories
 * return are represented here by the datatype `ClientOption`, one
 * constructor per factory, and `Apply` gives the effect of running one on a
 * client's field values. `ApplyAll` and `Build` are the specification of the
 * option loop; the class `Client` and the methods `Invoke` and `New` are the
 * in-place code, proved against them.
 */
module FunctionalOptions {
  import opened Wrappers
  import opened Clients

  /** An option value: the closure returned by `WithHeader` or by `WithLogger`. */
  datatype ClientOption =
    | HeaderOption(header: map<string, string>)
    | LoggerOption(logger: Option<Logger>)

  /** The effect of running option `o` on a client whose fields are `c`. */
  function Apply(o: ClientOption, c: ClientState): (r: ClientState)
    ensures r.baseURL == c.baseURL && r.hasBaseClient == c.hasBaseClient
  {
    match o
    case HeaderOption(h) => c.(header := h)
    case LoggerOption(l) => c.(logger := l)
  }

  /** `WithHeader(header)`: an option that replaces the whole header map and touches nothing else. */
  function WithHeader(header: map<string, string>): (o: ClientOption)
    ensures forall c :: Apply(o, c).header == header
    ensures forall c :: Apply(o, c).(header := c.header) == c
  {
    HeaderOption(header)
  }

  /** `WithLogger(logger)`: an option that sets the logger and touches nothing else. */
  function WithLogger(logger: Option<Logger>): (o: ClientOption)
    ensures forall c :: Apply(o, c).logger == logger
    ensures forall c :: Apply(o, c).(logger := c.logger) == c
  {
    LoggerOption(logger)
  }

  /** Runs the options of `opts` on `c`, first to last. */
  function ApplyAll(c: ClientState, opts: seq<ClientOption>): (r: ClientState)
    ensures r.baseURL == c.baseURL && r.hasBaseClient == c.hasBaseClient
    decreases |opts|
  {
    if opts == [] then c else ApplyAll(Apply(opts[0], c), opts[1..])
  }

  /** The field values `New(baseURL, opts...)` returns. */
  function Build(baseURL: string, opts: seq<ClientOption>): (r: ClientState)
    ensures r.baseURL == baseURL && r.hasBaseClient
    ensures r.header == LastHeader(opts, map[])
    ensures r.logger == LastLogger(opts, None)
    ensures opts == [] ==> r == Defaults(baseURL)
  {
    ApplyAllFields(Defaults(baseURL), opts);
    ApplyAll(Defaults(baseURL), opts)
  }

  /** Reference definition: the map of the last header option in `opts`, or `dflt` if there is none. */
  function LastHeader(opts: seq<ClientOption>, dflt: map<string, string>): (h: map<string, string>)
    decreases |opts|
  {
    if opts == [] then dflt
    else match opts[|opts| - 1]
      case HeaderOption(h) => h
      case LoggerOption(_) => LastHeader(opts[..|opts| - 1], dflt)
  }

  /** Reference definition: the value of the last logger option in `opts`, or `dflt` if there is none. */
  function LastLogger(opts: seq<ClientOption>, dflt: Option<Logger>): (l: Option<Logger>)
    decreases |opts|
  {
    if opts == [] then dflt
    else match opts[|opts| - 1]
      case LoggerOption(l) => l
      case HeaderOption(_) => LastLogger(opts[..|opts| - 1], dflt)
  }

  /** Options run in the order given: appending an option runs it after the others. */
  lemma {:induction false} ApplyAllSnoc(c: ClientState, opts: seq<ClientOption>, o: ClientOption)
    ensures ApplyAll(c, opts + [o]) == Apply(o, ApplyAll(c, opts))
    decreases |opts|
  {
    if opts == [] {
      assert [] + [o] == [o];
      assert [o][1..] == [];
    } else {
      assert (opts + [o])[0] == opts[0];
      assert (opts + [o])[1..] == opts[1..] + [o];
      ApplyAllSnoc(Apply(opts[0], c), opts[1..], o);
    }
  }

  /** Running `a + b` is running `a` and then `b` on the result. */
  lemma {:induction false} ApplyAllConcat(c: ClientState, a: seq<ClientOption>, b: seq<ClientOption>)
    ensures ApplyAll(c, a + b) == ApplyAll(ApplyAll(c, a), b)
    decreases |a|
  {
    if a == [] {
      assert [] + b == b;
    } else {
      assert (a + b)[0] == a[0];
      assert (a + b)[1..] == a[1..] + b;
      ApplyAllConcat(Apply(a[0], c), a[1..], b);
    }
  }

  /** After running `opts`, every field is the last value an option of `opts` wrote to it, or its old value. */
  lemma {:induction false} ApplyAllFields(c: ClientState, opts: seq<ClientOption>)
    ensures ApplyAll(c, opts) ==
      ClientState(c.baseURL, LastHeader(opts, c.header), LastLogger(opts, c.logger), c.hasBaseClient)
    decreases |opts|
  {
    if opts != [] {
      var init, last := opts[..|opts| - 1], opts[|opts| - 1];
      assert opts == init + [last];
      ApplyAllSnoc(c, init, last);
      ApplyAllFields(c, init);
    }
  }

  /** The result of `New(baseURL, opts...)` with one more option is that option run on the result without it. */
  lemma BuildSnoc(baseURL: string, opts: seq<ClientOption>, o: ClientOption)
    ensures Build(baseURL, opts + [o]) == Apply(o, Build(baseURL, opts))
  {
    ApplyAllSnoc(Defaults(baseURL), opts, o);
  }

  /** Options compose: `New(u, a..., b...)` runs `b` on the client `New(u, a...)` returns. */
  lemma BuildConcat(baseURL: string, a: seq<ClientOption>, b: seq<ClientOption>)
    ensures Build(baseURL, a + b) == ApplyAll(Build(baseURL, a), b)
  {
    ApplyAllConcat(Defaults(baseURL), a, b);
  }

  /** The header option at index `i` is the last one in `opts`, so its map is the one `LastHeader` picks. */
  lemma {:induction false} LastHeaderAt(opts: seq<ClientOption>, dflt: map<string, string>, i: nat)
    requires i < |opts| && opts[i].HeaderOption?
    requires forall j :: i < j < |opts| ==> !opts[j].HeaderOption?
    ensures LastHeader(opts, dflt) == opts[i].header
    decreases |opts|
  {
    if i < |opts| - 1 {
      var init := opts[..|opts| - 1];
      assert init[i] == opts[i];
      forall j | i < j < |init| ensures !init[j].HeaderOption? {
        assert init[j] == opts[j];
      }
      LastHeaderAt(init, dflt, i);
    }
  }

  /** With no header option in `opts`, `LastHeader` is the default. */
  lemma {:induction false} LastHeaderNone(opts: seq<ClientOption>, dflt: map<string, string>)
    requires forall j :: 0 <= j < |opts| ==> !opts[j].HeaderOption?
    ensures LastHeader(opts, dflt) == dflt
    decreases |opts|
  {
    if opts != [] {
      var init := opts[..|opts| - 1];
      forall j | 0 <= j < |init| ensures !init[j].HeaderOption? {
        assert init[j] == opts[j];
      }
      LastHeaderNone(init, dflt);
    }
  }

  /** The logger option at index `i` is the last one in `opts`, so its value is the one `LastLogger` picks. */
  lemma {:induction false} LastLoggerAt(opts: seq<ClientOption>, dflt: Option<Logger>, i: nat)
    requires i < |opts| && opts[i].LoggerOption?
    requires forall j :: i < j < |opts| ==> !opts[j].LoggerOption?
    ensures LastLogger(opts, dflt) == opts[i].logger
    decreases |opts|
  {
    if i < |opts| - 1 {
      var init := opts[..|opts| - 1];
      assert init[i] == opts[i];
      forall j | i < j < |init| ensures !init[j].LoggerOption? {
        assert init[j] == opts[j];
      }
      LastLoggerAt(init, dflt, i);
    }
  }

  /** With no logger option in `opts`, `LastLogger` is the default. */
  lemma {:induction false} LastLoggerNone(opts: seq<ClientOption>, dflt: Option<Logger>)
    requires forall j :: 0 <= j < |opts| ==> !opts[j].LoggerOption?
    ensures LastLogger(opts, dflt) == dflt
    decreases |opts|
  {
    if opts != [] {
      var init := opts[..|opts| - 1];
      forall j | 0 <= j < |init| ensures !init[j].LoggerOption? {
        assert init[j] == opts[j];
      }
      LastLoggerNone(init, dflt);
    }
  }

  /** Last write wins on `header`: the whole map of the last header option replaces every earlier one. */
  lemma HeaderLastWriteWins(baseURL: string, opts: seq<ClientOption>, i: nat)
    requires i < |opts| && opts[i].HeaderOption?
    requires forall j :: i < j < |opts| ==> !opts[j].HeaderOption?
    ensures Build(baseURL, opts).header == opts[i].header
  {
    LastHeaderAt(opts, map[], i);
  }

  /** Without any header option, `header` keeps its default, the empty map. */
  lemma HeaderDefault(baseURL: string, opts: seq<ClientOption>)
    requires forall j :: 0 <= j < |opts| ==> !opts[j].HeaderOption?
    ensures Build(baseURL, opts).header == map[]
  {
    LastHeaderNone(opts, map[]);
  }

  /** Last write wins on `logger`: it holds the value of the last logger option. */
  lemma LoggerLastWriteWins(baseURL: string, opts: seq<ClientOption>, i: nat)
    requires i < |opts| && opts[i].LoggerOption?
    requires forall j :: i < j < |opts| ==> !opts[j].LoggerOption?
    ensures Build(baseURL, opts).logger == opts[i].logger
  {
    LastLoggerAt(opts, None, i);
  }

  /** Without any logger option, `logger` stays nil. */
  lemma LoggerDefault(baseURL: string, opts: seq<ClientOption>)
    requires forall j :: 0 <= j < |opts| ==> !opts[j].LoggerOption?
    ensures Build(baseURL, opts).logger == None
  {
    LastLoggerNone(opts, None);
  }

  /** One `WithHeader` and then one `WithLogger` option store both values as passed. */
  lemma BuildHeaderThenLogger(baseURL: string, header: map<string, string>, logger: Option<Logger>)
    ensures Build(baseURL, [WithHeader(header), WithLogger(logger)]) == ClientState(baseURL, header, logger, true)
  {
    var opts := [WithHeader(header), WithLogger(logger)];
    LastHeaderAt(opts, map[], 0);
    LastLoggerAt(opts, None, 1);
  }

  /** A single `WithHeader` option stores its map and leaves the logger nil. */
  lemma BuildHeaderOnly(baseURL: string, header: map<string, string>)
    ensures Build(baseURL, [WithHeader(header)]) == ClientState(baseURL, header, None, true)
  {
    var opts := [WithHeader(header)];
    LastHeaderAt(opts, map[], 0);
    LastLoggerNone(opts, None);
  }

  /** Two adjacent options that set different fields may be swapped anywhere in the list. */
  lemma DisjointOptionsCommute(baseURL: string, a: seq<ClientOption>, o1: ClientOption, o2: ClientOption, b: seq<ClientOption>)
    requires o1.HeaderOption? != o2.HeaderOption?
    ensures Build(baseURL, a + [o1, o2] + b) == Build(baseURL, a + [o2, o1] + b)
  {
    var d := Defaults(baseURL);
    ApplyAllConcat(d, a + [o1, o2], b);
    ApplyAllConcat(d, a + [o2, o1], b);
    ApplyAllConcat(d, a, [o1, o2]);
    ApplyAllConcat(d, a, [o2, o1]);
    assert [o1, o2][1..] == [o2];
    assert [o2, o1][1..] == [o1];
  }

  /** Running the same option twice in a row gives the same client as running it once. */
  lemma RepeatedOptionIdempotent(baseURL: string, a: seq<ClientOption>, o: ClientOption, b: seq<ClientOption>)
    ensures Build(baseURL, a + [o, o] + b) == Build(baseURL, a + [o] + b)
  {
    var d := Defaults(baseURL);
    ApplyAllConcat(d, a + [o, o], b);
    ApplyAllConcat(d, a + [o], b);
    ApplyAllSnoc(d, a, o);
    ApplyAllSnoc(d, a + [o], o);
    assert a + [o, o] == (a + [o]) + [o];
  }

  /** The Go `Client` struct, updated in place through its pointer by the option loop. */
  class Client {
    var baseURL: string
    var header: map<string, string>
    var logger: Option<Logger>
    var baseClient: HttpClient?

    /** The field values of this client. */
    function State(): (s: ClientState)
      reads this
    {
      ClientState(baseURL, header, logger, baseClient != null)
    }

    /** The struct literal of `New`: defaults, with a fresh base client. */
    constructor (baseURL: string)
      ensures State() == Defaults(baseURL)
      ensures baseClient != null && fresh(baseClient)
    {
      this.baseURL := baseURL;
      header := map[];
      logger := None;
      baseClient := new HttpClient();
    }
  }

  /** `opt(client)`: runs the closure of option `o` on `c`, assigning one field. */
  method Invoke(o: ClientOption, c: Client)
    modifies c
    ensures c.State() == Apply(o, old(c.State()))
    ensures c.baseURL == old(c.baseURL) && c.baseClient == old(c.baseClient)
  {
    match o
    case HeaderOption(h) => c.header := h;
    case LoggerOption(l) => c.logger := l;
  }

  /** `New(baseURL, opts...)`: a fresh client on which every option has been run, in order. */
  method New(baseURL: string, opts: seq<ClientOption>) returns (client: Client)
    ensures fresh(client) && client.baseClient != null && fresh(client.baseClient)
    ensures client.State() == Build(baseURL, opts)
  {
    client := new Client(baseURL);
    for i := 0 to |opts|
      invariant client.baseClient != null && fresh(client.baseClient)
      invariant client.State() == ApplyAll(Defaults(baseURL), opts[..i])
    {
      Invoke(opts[i], client);
      ApplyAllSnoc(Defaults(baseURL), opts[..i], opts[i]);
      assert opts[..i + 1] == opts[..i] + [opts[i]];
    }
    assert opts[..|opts|] == opts;
  }
}
