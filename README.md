# Service bootstrap model

This project models the `service` command of a micro toolkit. The command puts
a protocol proxy in front of a local backend program and serves it as a
service.

It covers two functions of `service/service.go`:

- `run` takes the name, address, endpoint and positional arguments.
  - It extends the caller's service options with a name option when the name is non-empty and an address option when the address is non-empty.
  - It replaces an empty endpoint by the proxy package's default endpoint.
  - It chooses a gRPC, HTTP or mucp proxy from the endpoint's prefix.
  - When positional arguments are given, it registers and starts them as a
    backend process in a process runtime, and defers that process's deletion
    and the runtime's stop until the function returns.
  - It logs a "Serving" line, builds the service, installs a router that binds
    the service name to the proxy, and runs the service.
- `Commands` builds the `service` command. It has the three flags `name`,
  `address` and `endpoint`, each registered plugin's flags are appended after them,
  and its subcommands build up the command's subcommand list, in plugin order.

Files:

- `endpoints.dfy` (module `Endpoints`): endpoint defaulting (`Normalize`) and
  the prefix switch (`Classify`), with lemmas that tie the switch to a
  reference reading of "starts with".
- `trace.dfy` (module `Trace`): the collaborators `run` calls are opaque, so
  each call is recorded as an `Event`. A trace is the ordered list of those
  events. The module also holds:
  - `RuntimeCalls`, the runtime's view of a trace;
  - `Precedes` ("every occurrence of a comes before every occurrence of b") and `Count`;
  - a life-cycle state machine for the supervised backend (`Lifecycle`, `Step`, `Replay`).
- `service.dfy` (module `Service`): `Run`, an imperative method that builds
  that trace step by step the way `run` does. It is proved equal to the
  specification function `Bootstrap`, and the ordering properties are lemmas
  about `Bootstrap`.
- `commands.dfy` (module `Commands`): the `Commands` method with its plugin
  loop, proved against `Gather` (each plugin's part, concatenated in plugin
  order), and lemmas about `Gather`.

In two places the model follows the code where one might expect otherwise:

- The results of `Create` and `Start` are ignored. There is no abort path, and
  the teardown is armed as soon as the positional-argument branch is taken.
- Supervision does not require a non-empty name. `Create` and `Delete` use
  whatever name was given, possibly empty.

## Model

| member | source | states |
|---|---|---|
| Endpoints.Normalize | service/service.go:35-37 | the endpoint used is never empty; it is the given endpoint when that is non-empty and the default endpoint otherwise |
| Endpoints.HasPrefix | service/service.go:42-44 | `strings.HasPrefix`: holds exactly when the prefix is no longer than the string and the string agrees with it at every one of the prefix's positions |
| Endpoints.Classify | service/service.go:41-48 | gRPC is chosen exactly when the "grpc" test passes, HTTP exactly when the "http" test passes, and mucp exactly when neither does |
| Endpoints.HasPrefixIsStartsWith | service/service.go:42-45 | the prefix test used by the switch holds exactly when the string is the prefix followed by some rest |
| Endpoints.SchemePrefixesExclusive | service/service.go:42-45 | no endpoint passes both the "grpc" and the "http" test |
| Endpoints.ClassifyByScheme | service/service.go:41-48 | gRPC is chosen exactly for endpoints starting with "grpc", HTTP exactly for those starting with "http", and mucp exactly for all others |
| Endpoints.SchemeSelectsProxy | service/service.go:42-45 | "grpc" followed by anything selects gRPC; "http" followed by anything selects HTTP |
| Endpoints.ClassifyOrderIrrelevant | service/service.go:41-48 | the chain with the two tests swapped gives the same tag for every endpoint |
| Endpoints.EmptyEndpointSelectsMucp | service/service.go:35-48 | an empty endpoint is replaced by the default `localhost:9090`, which selects mucp |
| Endpoints.ClassifyExamples | service/service.go:41-48 | `grpcs://x:1` gives gRPC, `https://x:1` gives HTTP, `x:1` gives mucp, and upper-case `GRPC://x:1` gives mucp (the tests are case-sensitive) |
| Service.ServiceOptions | service/service.go:27-33 | the caller's options come first and unchanged, at most two options are added after them, and each added one is the name option or the address option |
| Service.SelectedProxy | service/service.go:35-48 | the proxy's endpoint is never empty and is the given endpoint when one is given; with no endpoint the proxy is mucp on the default endpoint |
| Service.ServiceOptionsOrder | service/service.go:27-33 | the caller's options come first and unchanged; a name option follows exactly when the name is non-empty, then an address option exactly when the address is non-empty |
| Service.Bootstrap | service/service.go:20-91 | one run makes eight collaborator calls with positional arguments and four without; the last is the deferred Stop with arguments and the service's Run without |
| Service.Run | service/service.go:20-91 | the defaulting, the prefix switch, the supervision branch with its deferred teardown, and the log, build, router and run steps produce exactly the trace `Bootstrap` specifies |
| Service.RuntimeCallsOfRun | service/service.go:51-73 | the runtime sees exactly `Create(name, args[0], args[1:])`, `Start`, `Delete(name)`, `Stop` in that order when there are positional arguments, and no call at all otherwise |
| Service.SupervisedLifecycle | service/service.go:57-73 | replayed through the backend life cycle, one run leaves it stopped with no protocol violation when a backend was given, and untouched otherwise |
| Service.NoArgsNoRuntimeCalls | service/service.go:51 | without positional arguments no Create, Start, Delete or Stop occurs anywhere in the trace |
| Service.SupervisionOnce | service/service.go:60-73 | with positional arguments, Create (for the name and command line), Start, Delete(name) and Stop each occur exactly once, and the trace ends with Run, Delete(name), Stop |
| Service.SupervisionOrder | service/service.go:60-90 | with positional arguments, Create precedes Start, Create and Start both precede the router install, and Run precedes Delete(name) |
| Service.RouterBeforeRun | service/service.go:76-90 | the "Serving" line for the proxy, name and endpoint is logged once and before Run; the service is built once with the extended options; the router for the name and the proxy is installed once, after that and strictly before the single Run |
| Service.RouterUsesSelectedProxy | service/service.go:35-48 | the router and the log line use the proxy chosen for the defaulted endpoint, and that proxy is configured with that endpoint |
| Commands.Commands | service/service.go:93-130 | one command named `service`; its flags are the three base flags followed by every plugin's flags in plugin order, and its subcommands are every plugin's subcommands in plugin order |
| Commands.BaseFlags | service/service.go:100-116 | the three base flags are `name`, `address` and `endpoint` in that order, their names are distinct, and each is a string flag read from a `MICRO_SERVICE_` environment variable |
| Commands.Gather | service/service.go:119-127 | the gathered list opens with the first plugin's contribution |
| Commands.GatherSnoc | service/service.go:119-127 | taking one more plugin appends exactly that plugin's contribution, which is what one loop iteration does |
| Commands.CommandFlags | service/service.go:100-127 | the flag list starts with `name`, `address`, `endpoint` in that order, and every later flag belongs to some plugin |
| Commands.GatherAt | service/service.go:119-127 | plugin i's contribution sits after all earlier plugins' contributions and before all later ones' |
| Commands.GatherMembers | service/service.go:119-127 | an item is gathered exactly when some plugin contributes it |
| Commands.GatherNothing | service/service.go:119-127 | nothing is gathered exactly when no plugin contributes anything |
| Commands.GatherSkipsEmpty | service/service.go:120-126 | a plugin that contributes nothing leaves the result as if it were not registered; this is all the non-empty guards in the loop achieve |

## Left out

- The proxy implementations (`grpc`, `http`, `mucp` `NewProxy`): a proxy is the pair of its tag and its endpoint. `p.String()` in the log line is represented by that pair.
- `proxy.DefaultEndpoint`: its value is defined in go-micro's `proxy` package, outside `service/service.go`. It is fixed to `localhost:9090`, the value the endpoint flag's usage text documents.
- The process runtime's internals and process spawning. `runtime.NewRuntime()` has no event of its own: the fresh runtime is the `Unregistered` state that `Replay` starts from.
- `micro.NewService` and the blocking `service.Run`: each call is an opaque trace event (`NewService`, `RunService`).
- `mux.New(name, p)`: it has no event of its own. It is folded into the `InitRouter(name, proxy)` event that installs the muxer as the router.
- `runtime.WithOutput(os.Stdout)`: the backend's output sink is not recorded in the `Create` event.
- `log.Name("service")`: the logger's name tag is I/O. Only the single "Serving" line is an event.
- Reading the flags, environment variables and positional arguments from `cli.Context`: `run` takes them as a plain `Config`.
- The `Action` closure of the command, and the options that `Commands` passes to `run` through it: the model builds only the command's name, usage, flags and subcommands. The plugin registry `Plugins()` is a parameter.
- Panics and error returns from `service.Run`: the model has no such path. `Run` always returns, and the deferred calls follow it.
- The backend running concurrently as a separate OS process, and the server's own concurrency.
- internal/template/plugin.go: a code-generation template string with no logic.
