# Five ways to build an HTTP client, modelled in Dafny

The repository builds one record in five styles: a `Client` with a `baseURL`,
a `header` map, an optional `logger` and a `baseClient` (an `*http.Client`).
The styles are a traditional constructor, a set of constructors, a
configuration struct, chained setters, and the functional-options pattern.
This project models each style's code and proves that all five build the same
client from the same values.

- `wrappers.dfy`: `Option`. `None` stands for Go's `nil`.
- `clients.dfy`: the value every style produces. `ClientState` holds the
  field values. `baseClient` is reduced to a presence flag, `hasBaseClient`.
  `Logger` is an abstract type, the empty `ILogger` interface. `HttpClient`
  stands for `net/http.Client`. `Defaults(baseURL)` is the struct literal
  that gives the optional fields their default values.
- `functional_options.dfy`: a Go `Option` is a closure. The closures that
  `WithHeader` and `WithLogger` return become the constructors of the datatype
  `ClientOption`. `Apply` gives the effect of running one option.
  `ApplyAll` and `Build` state what the option loop computes. The lemmas
  cover defaults, base URL preservation, last write wins, order, composition,
  commutation of disjoint options and idempotence. The in-place code is the
  class `Client`, the method `Invoke` (one `opt(client)` call) and the method
  `New` (the loop). `New` is proved against `Build`.
- `setter_function.dfy`: a class whose `SetHeader` and `SetLogger` assign one
  field and return the receiver. Each setter is equal to running the
  matching option.
- `traditional_constructor.dfy`, `multiple_constructors.dfy`,
  `config_struct.dfy`: each constructor is a function that returns field
  values. Its contract equates it with another construction style.

## Model

| member | source | states |
|---|---|---|
| `FunctionalOptions.Apply` | example/functional_options_pattern/main.go:32-42 | running any option leaves `baseURL` and the base client unchanged |
| `FunctionalOptions.WithHeader` | example/functional_options_pattern/main.go:32-36 | the option sets `header` to the given map on every client and leaves every other field unchanged |
| `FunctionalOptions.WithLogger` | example/functional_options_pattern/main.go:38-42 | the option sets `logger` to the given value on every client and leaves every other field unchanged |
| `FunctionalOptions.ApplyAll` | example/functional_options_pattern/main.go:26-28 | no sequence of options changes `baseURL` or the base client |
| `FunctionalOptions.Build` | example/functional_options_pattern/main.go:19-30 | `baseURL` is the argument and a base client is present; `header` is the map of the last header option, or empty if there is none; `logger` is the value of the last logger option, or nil if there is none; with no options the result is the defaults |
| `FunctionalOptions.ApplyAllSnoc` | example/functional_options_pattern/main.go:26-28 | options run in list order: an appended option runs after all the others |
| `FunctionalOptions.ApplyAllConcat` | example/functional_options_pattern/main.go:26-28 | running `a + b` equals running `a` and then `b` (fold composition) |
| `FunctionalOptions.ApplyAllFields` | example/functional_options_pattern/main.go:26-42 | after the loop, each optional field holds the last value an option wrote to it, or its old value; `baseURL` and the base client are unchanged |
| `FunctionalOptions.BuildSnoc` | example/functional_options_pattern/main.go:19-30 | `New(u, opts..., o)` equals `o` run on `New(u, opts...)` |
| `FunctionalOptions.BuildConcat` | example/functional_options_pattern/main.go:19-30 | `New(u, a..., b...)` equals `b` run on `New(u, a...)` |
| `FunctionalOptions.HeaderLastWriteWins` | example/functional_options_pattern/main.go:26-36 | `header` is the whole map of the last `WithHeader`; earlier maps are replaced, not merged |
| `FunctionalOptions.HeaderDefault` | example/functional_options_pattern/main.go:19-36 | with no `WithHeader` option, `header` is the empty map |
| `FunctionalOptions.LoggerLastWriteWins` | example/functional_options_pattern/main.go:26-42 | `logger` is the value of the last `WithLogger` |
| `FunctionalOptions.LoggerDefault` | example/functional_options_pattern/main.go:19-42 | with no `WithLogger` option, `logger` stays nil |
| `FunctionalOptions.BuildHeaderThenLogger` | example/functional_options_pattern/main.go:19-42 | `New(u, WithHeader(h), WithLogger(l))` stores `u`, `h` and `l` as passed and has a base client |
| `FunctionalOptions.BuildHeaderOnly` | example/functional_options_pattern/main.go:19-36 | `New(u, WithHeader(h))` stores `h` and leaves the logger nil |
| `FunctionalOptions.DisjointOptionsCommute` | example/functional_options_pattern/main.go:26-42 | swapping two adjacent options that set different fields gives the same client, at any position in the list |
| `FunctionalOptions.RepeatedOptionIdempotent` | example/functional_options_pattern/main.go:26-42 | running the same option twice in a row gives the same client as running it once, at any position in the list |
| `FunctionalOptions.Client.constructor` | example/functional_options_pattern/main.go:20-24 | the new client holds the defaults and a freshly allocated base client |
| `FunctionalOptions.Invoke` | example/functional_options_pattern/main.go:32-42 | calling an option's closure on a client changes its fields exactly as `Apply` does; the `baseURL` and `baseClient` pointer stay the same |
| `FunctionalOptions.New` | example/functional_options_pattern/main.go:19-30 | returns a fresh client with a fresh base client, whose fields equal `Build(baseURL, opts)`; the loop invariant says the first `i` options have run in order |
| `SetterFunction.Client.constructor` | example/setter_function/main.go:17-23 | `New(u)` holds `baseURL == u`, an empty header map, a nil logger and a fresh base client, the same as the functional-options `New(u)` |
| `SetterFunction.Client.SetHeader` | example/setter_function/main.go:25-28 | sets `header`, returns the same receiver and leaves `baseURL`, `logger` and `baseClient` unchanged, which is the same as running `WithHeader` |
| `SetterFunction.Client.SetLogger` | example/setter_function/main.go:30-33 | sets `logger`, returns the same receiver and leaves `baseURL`, `header` and `baseClient` unchanged, which is the same as running `WithLogger` |
| `SetterFunction.NewChained` | example/setter_function/main.go:36-38 | `New(u).SetHeader(h).SetLogger(l)` returns a fresh client with a fresh base client, and has the field values of the functional-options `New(u, WithHeader(h), WithLogger(l))` and of the traditional `New(u, h, l)` |
| `SetterFunction.ChainLastSetterWins` | example/setter_function/main.go:25-33 | any chain of setter calls returns the receiver and equals running the matching options in order; the last setter called on `header` or `logger` decides its value, whatever earlier setters wrote; a field no setter touches, `baseURL` and `baseClient` keep their values |
| `TraditionalConstructor.New` | example/traditional_constructor/main.go:17-24 | `New(u, h, l)` equals the functional-options `New(u, WithHeader(h), WithLogger(l))`, so it stores `h` and `l` as passed, with no default substituted, and has a base client |
| `MultipleConstructors.New` | example/multiple_constructors/main.go:17-23 | `New(u)` equals the functional-options `New(u)` with no options: an empty header map and a nil logger |
| `MultipleConstructors.NewWithBaseURLAndHeaders` | example/multiple_constructors/main.go:25-31 | equals `NewWithBaseURLHeadersAndLogger(u, h, nil)` and the functional-options `New(u, WithHeader(h))` |
| `MultipleConstructors.NewWithBaseURLHeadersAndLogger` | example/multiple_constructors/main.go:33-40 | equals the traditional `New(u, h, l)`: all three arguments are stored unchanged |
| `MultipleConstructors.EveryConstructorSetsBase` | example/multiple_constructors/main.go:17-40 | every constructor sets `baseURL` to its argument and has a base client |
| `ConfigStruct.Config.constructor` | example/config_struct/main.go:10-14 | a `Config` holds the three values it is built from |
| `ConfigStruct.NewWithConfig` | example/config_struct/main.go:23-30 | reads only `config`, so it cannot modify it, and equals the traditional `New(config.BaseURL, config.Header, config.Logger)` |
| `ConfigStruct.NewWithConfigLiteral` | example/config_struct/main.go:23-30 | `NewWithConfig(&Config{u, h, l})` equals the traditional `New(u, h, l)` |

## Left out

- The `main` functions and their `fmt.Printf` output. These are demonstrations and I/O.
- The contents of `net/http.Client`, which is a foreign library type. `HttpClient` is an empty class. In the value view it is a presence flag.
- The contents of `ILogger`. `Logger` is an abstract type with no references. A nil logger is `None`. A non-nil interface that holds a typed nil pointer is not told apart from other non-nil values.
- FunctionalOptions.ClientOption: a Go `Option` may be any `func(*Client)`. The model covers only the closures that `WithHeader` and `WithLogger` return. An option a caller writes by hand could change `baseURL`. The preservation lemmas do not cover such options.
- Map aliasing. The Go constructors, options and setters store the caller's map without copying it, so a later change to that map by the caller shows through the client. Dafny maps are values, so `header` is modelled by value.
- Nil maps versus empty maps. A nil Go map reads like an empty one, and a map is stored exactly as passed. The model does not tell the two apart.
- Nil receivers and nil options. In Go, calling `SetHeader` or `SetLogger` on a nil `*Client`, or passing a nil `Option` to `New`, panics. In the model the receiver, the client given to `Invoke` and every `ClientOption` are never null, so these panics are not captured.
- ConfigStruct.NewWithConfig: the Go code dereferences `config` and would panic on a nil pointer. The model's `Config` is a non-null reference, so a caller must pass an allocated config.
- Pointer identity of the pure constructors. `TraditionalConstructor`, `MultipleConstructors` and `ConfigStruct` return a fresh `*Client`. The model returns its field values only. Freshness of the result and of its base client is modelled only for the two class-based styles.
- Validation and errors. The code never checks `baseURL`, and no option can fail, so the model has no error paths.
- Determinism needs no lemma. Every construction in the value view is a function of its arguments.
