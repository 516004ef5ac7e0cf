# config-apollo, modelled in Dafny

This project models the core of kitex-contrib/config-apollo. That library feeds
Kitex RPC policies (circuit breaker, retry, RPC timeout, server limiter) from the
Apollo configuration centre. The model has three layers.

- **The Apollo client** (`apollo.dfy`, module `Apollo`):
  - `New` fills in the defaults of empty options. It refuses a private namespace
    without an access key. It then connects and parses the four name templates,
    stopping at the first error.
  - `configParam` renders the key, namespace and cluster of a `ConfigParam`, in
    that order, and then runs the caller's hooks.
  - `RegisterConfigCallback` hands the current snapshot's value to the callback at
    once, and panics when the key is missing.
  - `listenConfig` is a loop over the change/error stream. It dispatches the key's
    new value, skips a change without the key, and stops at the first error.
  - `DeregisterConfig` stops the client.
- **The decoder and the ID counter:**
  - `parser.dfy` (module `Parser`): JSON and YAML both take the JSON decoder, and
    any other kind is an error.
  - `uid.dfy` (module `Uid`): the global counter that starts at 0 and hands out
    1, 2, 3, …
- **The four adapters.** Each one owns a change callback, which is a method
  `OnChange(data, parser)` of a watcher class, plus its `init…` and `With…`
  functions:
  - `circuit_breaker.dfy` writes every decoded method's config under the
    `service/method` key. It resets methods that disappeared to the default
    config.
  - `retry.dfy` applies only the entries with exactly one of the two retry
    strategies, and deletes the policies of methods that disappeared.
  - `rpc_timeout.dfy` forwards the whole decoded map.
  - `limiter.dfy` writes the two limits into the shared option. It hands them to
    the stored updater if there is one.

`kitex.dfy` holds the Kitex framework's policy shapes and sinks. Each sink is a
class that keeps only the state its update operations leave behind. `utils.dfy`
holds the retained-name set that the map-shaped adapters diff every payload
against.

Each change callback is specified against a pure function of the old state and
the decoded payload: `AfterChange`, `AfterRetryChange` and `AfterLimiterChange`.
The source's promises are proved as lemmas about that function: which entries
are applied, kept, reset or deleted, and that re-delivering a payload is
idempotent.

Foreign code is a parameter of the model:
- `text/template` is a `TemplateEngine` with `parse` and `execute` functions.
- `agollo.New` is a `connect` function.
- `json.Unmarshal` is a `JsonCodec` record of one decoder per target shape.
- The agollo namespace snapshot is a `map<string, string>`, and the change and
  error stream is a finite `seq<Event>`.
- The client does not run callbacks itself. It returns each invocation as an
  `Invocation(data, parser)`. The `Init…` methods feed the snapshot invocation of
  `RegisterConfigCallback` to the adapter's `OnChange`. The invocations that
  `Client.ListenConfig` returns are not fed to any watcher in this model. In the
  running program each of them becomes one more `OnChange` call on the watcher
  that registered the key.

Four behaviours of `apollo/apollo.go` are worth naming, because a reader might
expect otherwise:
- There is no per-subscriber registry. `DeregisterConfig` ignores its param and
  stops the whole client (`Apollo.Client.DeregisterConfig`, apollo.go:205-208).
- A change without the key is logged and skipped, and nothing is dispatched for
  it (`Apollo.ListenSkipsMissingKey`, apollo.go:240-246).
- A key missing from the first snapshot makes `RegisterConfigCallback` panic
  (`Apollo.Client.RegisterConfigCallback`, apollo.go:211-231).
- The watch loop has no stop signal. It ends only on a transport error
  (`Apollo.ListenStopsAtFailure`, apollo.go:249-252).

## Model

| member | source | states |
|---|---|---|
| Parser.Decode | apollo/parser.go:47-55 | a JSON or YAML kind gives exactly the JSON decoder's result; any other kind gives the error "unsupported config data type " followed by the kind; a success implies a supported kind |
| Parser.YamlDecodesAsJson | apollo/parser.go:48-51 | a YAML payload decodes exactly as the same payload declared JSON |
| Parser.DefaultConfigParse | apollo/parser.go:57-60 | the default parser's decoder for each of the four target shapes is the kind dispatch above over the JSON decoder for that shape |
| Parser.DefaultParserRejectsUnsupported | apollo/parser.go:52-53 | for a kind other than json/yaml, all four decoders of the default parser fail with the same message, whatever the payload |
| Uid.UniqueIDCounter.constructor | apollo/uid.go:5-9 | the counter starts at 0 with nothing issued |
| Uid.UniqueIDCounter.GetUniqueID | apollo/uid.go:12-14 | returns the previous counter plus one and stores it, so the first ID is 1; the ID is at least 1, greater than every earlier ID, and never issued before |
| Uid.IssuedStrictlyIncreasing | apollo/uid.go:12-14 | between calls, every issued ID is at least 1 and the issued IDs strictly increase |
| Apollo.WithDefaults | apollo/apollo.go:74-98 | the options New works with: each empty option replaced by its default; its properties are the four WithDefaults lemmas below |
| Apollo.WithDefaultsResolved | apollo/apollo.go:74-98 | every option New fills in ends non-empty (URL, namespace, app id, cluster, both key formats, logger, parser) |
| Apollo.WithDefaultsFillsEmpty | apollo/apollo.go:74-98 | each empty option gets its own default: 127.0.0.1:8080, {{.Category}}, KitexApplication, default, {{.ServerServiceName}}, {{.ClientServiceName}}.{{.ServerServiceName}}, the Apollo logger, the default parser |
| Apollo.WithDefaultsKeepsSet | apollo/apollo.go:74-98 | each option the caller set is kept unchanged, and so are IsPrivate and AccessKey |
| Apollo.WithDefaultsIdempotent | apollo/apollo.go:74-98 | complete options are left alone, so defaulting twice is defaulting once |
| Apollo.ApplyDefaults | apollo/apollo.go:74-98 | overwriting the empty options one by one in the code's order gives exactly WithDefaults |
| Apollo.FirstError | apollo/apollo.go:117-137 | no error iff every step succeeded; otherwise the error is that of a step all of whose predecessors succeeded |
| Apollo.FirstErrorCons | apollo/apollo.go:117-137 | the first error of a step followed by others is that step's error, or else the first error of the rest |
| Apollo.New | apollo/apollo.go:73-148 | a client is returned iff there is no error; a private namespace with an empty access key fails with "[apollo] need accesskey for private namespace"; otherwise the error is the first of connect, then parsing the cluster, namespace, server-key and client-key templates; a new client holds the defaulted options and their parser and has no listeners |
| Apollo.ApplyHooks | apollo/apollo.go:198-200 | the hooks applied to the param one after another in list order; its properties are ApplyHooksFirst and LastHookDecides |
| Apollo.ApplyHooksFirst | apollo/apollo.go:198-200 | the hooks run in list order: the first hook sees the rendered ConfigParam and the rest see its output |
| Apollo.LastHookDecides | apollo/apollo.go:198-200 | a field set by a hook that no later hook touches keeps that hook's value |
| Apollo.ApplyCustomFunctions | apollo/apollo.go:198-200 | the loop applying the hooks to the param yields ApplyHooks of the list |
| Apollo.BuildParam | apollo/apollo.go:180-201 | the ConfigParam and error configParam returns for given key, namespace and cluster templates; its properties are BuildParamFailsOnRender and BuildParamWithoutHooks |
| Apollo.BuildParamFailsOnRender | apollo/apollo.go:180-197 | configParam fails iff one of the three renders fails, and returns that render's error; the partial param is typed JSON with empty content and cluster; a key failure leaves key and namespace empty, a namespace failure keeps the key and leaves the namespace empty, a cluster failure keeps both the key and the namespace |
| Apollo.BuildParamWithoutHooks | apollo/apollo.go:180-201 | with no hooks, a successful configParam is the rendered key, namespace and cluster, type json, empty content |
| Apollo.Client.constructor | apollo/apollo.go:138-145 | a new client holds the options, templates and parser, has no listeners and is not yet stopped |
| Apollo.Client.SetParser | apollo/apollo.go:150-152 | later invocations are handed the new parser |
| Apollo.Client.ConfigParamFor | apollo/apollo.go:180-202 | the param and error are those of BuildParam, given the key template, the client's namespace and cluster templates, and the hooks |
| Apollo.Client.ServerConfigParam | apollo/apollo.go:163-165 | configParam with the server-key template |
| Apollo.Client.ClientConfigParam | apollo/apollo.go:168-170 | configParam with the client-key template |
| Apollo.Client.DeregisterConfig | apollo/apollo.go:205-208 | stops the client whatever the param is, and never fails |
| Apollo.Client.RegisterConfigCallback | apollo/apollo.go:211-231 | a panic with "kitex config : key not found" iff the key is missing from the namespace snapshot, with no listener started; otherwise one invocation with the key's value and the current parser, and a listener for the param |
| Apollo.Client.OnEvent | apollo/apollo.go:239-253 | one loop turn: stop iff the event is an error; dispatch iff it is a change carrying the key, with the key's new value and the current parser |
| Apollo.Client.ListenConfig | apollo/apollo.go:233-255 | the dispatched payloads are exactly Listen of the key over the event stream, each dispatched with the current parser |
| Apollo.Listen | apollo/apollo.go:237-254 | the payloads the listener dispatches for the key, at most one per event; its properties are the Listen lemmas below |
| Apollo.ListenAppend | apollo/apollo.go:237-254 | listening to two stretches of events is listening to the first, then to the second only if the first had no error |
| Apollo.ListenStopsAtFailure | apollo/apollo.go:249-252 | nothing after a transport error is ever dispatched |
| Apollo.ListenSkipsMissingKey | apollo/apollo.go:240-246 | a change without the key dispatches nothing and does not end the loop |
| Apollo.ListenFromChanges | apollo/apollo.go:239-248 | every dispatched payload is the key's value in some change event |
| Apollo.ListenAllChanges | apollo/apollo.go:237-248 | when every event is a change carrying the key, every event's value is dispatched, in order |
| Utils.ThreadSafeSet.DiffAndEmplace | client/retry.go:84-86 | returns each name retained before and missing from the current set exactly once, and the retained set becomes the current set |
| CircuitBreaker.GenServiceCBKey | client/circurit_breaker.go:70-78 | the breaker key of a method: the service name, one '/', then the method name; its properties are GenServiceCBKeyShape and the injectivity lemmas |
| CircuitBreaker.GenServiceCBKeyShape | client/circurit_breaker.go:70-78 | the key splits back into the service name, one '/', then the method name |
| CircuitBreaker.GenServiceCBKeyInjective | client/circurit_breaker.go:70-78 | for one service, distinct methods get distinct keys |
| CircuitBreaker.GenServiceCBKeyInjectiveAll | client/circurit_breaker.go:70-78 | no two methods of one service share a key, so writing one method's config never overwrites another's |
| CircuitBreaker.GenServiceCBKeyWithRPCInfo | client/circurit_breaker.go:63-68 | the key is empty iff there is no RPCInfo; otherwise it is the callee's service/method key |
| CircuitBreaker.AfterChange | client/circurit_breaker.go:86-106 | the suite's configs after one successful change: the payload's configs written under their keys, then the methods that disappeared reset to the default; its properties are the AfterChange lemmas below |
| CircuitBreaker.AfterChangeApplies | client/circurit_breaker.go:95-99 | a method in the payload ends with its decoded config under its key and is never reset |
| CircuitBreaker.AfterChangeResets | client/circurit_breaker.go:101-105 | a method retained before and missing from the payload ends with the default config |
| CircuitBreaker.AfterChangeKeepsOthers | client/circurit_breaker.go:86-106 | a key of no method in the payload or the retained set keeps its config, or its absence |
| CircuitBreaker.AfterChangeNothingRemoved | client/circurit_breaker.go:86-106 | when the retained set is the payload's method set, the callback resets nothing and only writes the payload's configs |
| CircuitBreaker.AfterChangeRedelivery | client/circurit_breaker.go:86-106 | delivering the same payload again after it was applied changes nothing |
| CircuitBreaker.CallSeesAppliedConfig | client/circurit_breaker.go:63-68 | the key the suite looks up for an RPC to `dest`'s method is the key the callback wrote that method's decoded config to |
| CircuitBreaker.CircuitBreakerWatcher.OnChange | client/circurit_breaker.go:86-106 | on a decode error the suite and retained set are unchanged; otherwise the suite is AfterChange of the old configs, payload and old retained set, and the retained set is the payload's method set |
| CircuitBreaker.CircuitBreakerWatcher.ApplyPayload | client/circurit_breaker.go:95-99 | every decoded config is written under its key, and the method set is the payload's |
| CircuitBreaker.CircuitBreakerWatcher.ResetRemoved | client/circurit_breaker.go:101-105 | every removed method's key gets the default config |
| CircuitBreaker.CircuitBreakerWatcher.CloseCallback | client/circurit_breaker.go:50-57 | the suite is closed first; its error is returned without deregistering; only on success is the param deregistered |
| CircuitBreaker.InitCircuitBreaker | client/circurit_breaker.go:80-111 | panics iff the key is missing; otherwise a fresh suite holds the snapshot's configs under their keys (none if it does not decode), and the retained set holds its methods; the panic's reason is "kitex config : key not found", and no listener is added then |
| CircuitBreaker.WithCircuitBreaker | client/circurit_breaker.go:30-59 | panics with the render error of the circuit_break ConfigParam; otherwise the key decides, as in InitCircuitBreaker, and the watcher holds that ConfigParam after the caller's hooks, the caller's client and default config, and a fresh open suite and retained set holding the snapshot's configs and methods; a rendered param whose key is missing panics with "kitex config : key not found" and adds no listener |
| Retry.Applicable | client/retry.go:70-79 | a policy is handed to the container iff exactly one of its backup and failure strategies is set |
| Retry.Accepted | client/retry.go:69-81 | the payload's entries that the callback hands to the container: those with an applicable policy |
| Retry.AfterRetryChange | client/retry.go:69-86 | every policy after one successful change is either an applicable payload entry or the method's old policy; no other policy appears |
| Retry.AfterRetryChangeApplies | client/retry.go:69-81 | an entry with exactly one strategy set becomes that method's policy |
| Retry.AfterRetryChangeKeepsRejected | client/retry.go:70-80 | an entry with both or neither strategy set leaves that method's old policy, or its absence, in place |
| Retry.AfterRetryChangeDeletes | client/retry.go:84-86 | a method retained before and missing from the payload has no policy afterwards |
| Retry.AfterRetryChangeKeepsOthers | client/retry.go:59-87 | a method in neither the payload nor the retained set keeps its policy, or its absence |
| Retry.AfterRetryChangeRedelivery | client/retry.go:59-87 | delivering the same payload again after it was applied changes nothing |
| Retry.RetryWatcher.OnChange | client/retry.go:59-87 | on a decode error the container and retained set are unchanged; otherwise the policies are AfterRetryChange of the old policies, payload and old retained set, and the retained set is every method of the payload, rejected ones included |
| Retry.RetryWatcher.ApplyPolicies | client/retry.go:68-82 | every method enters the set; only the entries with exactly one strategy are handed to the container |
| Retry.RetryWatcher.DeleteRemoved | client/retry.go:84-86 | the policy of every removed method is deleted |
| Retry.RetryWatcher.CloseCallback | client/retry.go:45-48 | deregistration stops the client and returns no error |
| Retry.InitRetryContainer | client/retry.go:52-92 | panics iff the key is missing; otherwise a fresh container holds the snapshot's applicable policies (none if it does not decode), and the retained set holds all its methods; the panic's reason is "kitex config : key not found", and no listener is added then |
| Retry.WithRetryPolicy | client/retry.go:25-50 | panics with the render error of the retry ConfigParam; otherwise the key decides, as in InitRetryContainer, and the watcher holds that ConfigParam after the caller's hooks, the caller's client, and a fresh container and retained set holding the snapshot's applicable policies and all its methods; a rendered param whose key is missing panics with "kitex config : key not found" and adds no listener |
| RpcTimeout.TimeoutWatcher.OnChange | client/rpc_timetout.go:52-60 | on a decode error the container is not notified; otherwise it is notified once, with exactly the decoded map |
| RpcTimeout.TimeoutWatcher.CloseCallback | client/rpc_timetout.go:40-43 | the param the callback was registered with is deregistered |
| RpcTimeout.InitRPCTimeoutContainer | client/rpc_timetout.go:47-65 | panics iff the key is missing; otherwise the fresh container was notified with the snapshot's map once (not at all if it does not decode); the panic's reason is "kitex config : key not found", and no listener is added then |
| RpcTimeout.WithRPCTimeout | client/rpc_timetout.go:26-45 | panics with the render error of the rpc_timeout ConfigParam, hooks included; otherwise the listener and the watcher both use that ConfigParam, the watcher holds the caller's client, and its fresh container was notified with the snapshot's map once; a rendered param whose key is missing panics with "kitex config : key not found" and adds no listener |
| Limiter.AfterLimiterChange | server/limiter.go:52-59 | a failed decode keeps both limits; a successful one sets MaxConnections to ConnectionLimit and MaxQPS to QPSLimit |
| Limiter.AfterLimiterChangeLastWins | server/limiter.go:51-59 | a later successful decode overrides an earlier one, and a failed one in between changes nothing |
| Limiter.LimitWatcher.UpdateControl | server/limiter.go:46-50 | the updater is handed the current limits, then stored |
| Limiter.LimitWatcher.OnChange | server/limiter.go:51-68 | the limits become AfterLimiterChange of the decode; a stored updater receives the new limits exactly once, and only after a successful decode; its verdict does not roll the option back |
| Limiter.InitLimitOptions | server/limiter.go:43-72 | panics iff the key is missing; otherwise the option holds the snapshot's limits (zero if it does not decode) and no updater is stored yet; the panic's reason is "kitex config : key not found", and no listener is added then |
| Limiter.WithLimiter | server/limiter.go:29-41 | panics with the render error of the server-side ConfigParam, hooks included; otherwise the watcher uses that param, has no updater yet, and its fresh option holds the snapshot's limits (zero if it does not decode); a rendered param whose key is missing panics with "kitex config : key not found" and adds no listener |

## Left out

- The agollo transport (`agollo.New`, `Start`, `Stop`, `WatchNamespace`, long polling) is foreign. It is a `connect` function, a snapshot map and a finite event sequence. `Stop` is the client's `stopped` flag. In Go, every registration calls `Start` again inside `listenConfig`, so a registration after `DeregisterConfig` restarts the agollo client; the flag records only that `Stop` was called.
- Concurrency is left out: the goroutine that runs `listenConfig`, its `select`, the mutex of `ThreadSafeSet` and `atomic.Value`. The listener is a sequential loop over the events, and the atomics are plain reads and writes.
- `text/template` and `json.Unmarshal` are foreign, taken as the `TemplateEngine` and `JsonCodec` parameters. Template parsing happens in `New` and execution in `configParam`.
- Logging (`apollo/logger.go` and every `klog` call) has no effect on state. The logger option is only "Apollo's own logger" or a user logger.
- The wiring of the listener to the watcher (apollo.go:247 calling the adapter's callback for each change) is not modelled as one method. `Client.ListenConfig` returns the invocations, and each `Init…` method applies only the snapshot's one. The `OnChange` contracts hold for any later invocation too.
- `Retry.RetryWatcher.CloseCallback`: `client/retry.go:47` calls `DeregisterConfig()` without its param. The model passes the watcher's param, which `DeregisterConfig` ignores anyway. The container's own `rc.Close` callback belongs to Kitex and is not modelled.
- `Limiter.WithLimiter`: `apollo.LimiterConfigName` is not defined in `apollo/apollo.go`, so the limiter category's name is a parameter.
- The suite wiring in `client/suite.go` and `server/suit.go` only assembles framework options, and is not modelled.
- The Kitex framework objects are not modelled beyond their update operations: the `CBSuite`, the retry and timeout containers, `limit.Option` and `limit.Updater`. `CBSuite.Close`'s error is an input. An updater's verdict is one fixed constant per updater, while Kitex may decide afresh on every call; the limiter callback ignores the verdict, so nothing proved depends on it. `circuitbreak.GetDefaultCBConfig()` is the watcher's `defaultConfig`.
- `Uid.UniqueIDCounter.GetUniqueID` does not model int64 wrap-around of the counter.
- `CBConfig`'s float64 error rate is a `real`. Limiter limits are unbounded `int`s, so `int(lc.ConnectionLimit)` is the identity, as it is on 64-bit platforms.
- Go map iteration order is unspecified. For the map-shaped callbacks, any order is allowed: the loops pick an arbitrary remaining key.
- Timeout and circuit breaker: `client/rpc_timetout.go:53` decodes into a map of `*rpctimeout.RPCTimeout`, so a JSON `null` entry would be forwarded as a nil pointer, and `client/circurit_breaker.go:67` dereferences `ri.To()`, which may be nil. The model's maps hold timeouts, and its `RPCInfo` always has a callee endpoint, so neither nil path is modelled.
- Retry: a JSON `null` entry decodes to a nil `*retry.Policy`, which `client/retry.go:71` would dereference. Payload entries in the model are always policies, so that path is not modelled.
- `data.(string)` assertions: every configuration value is a string.
