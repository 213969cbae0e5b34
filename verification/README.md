# broccoli configuration reload engine, in Dafny

This project models the runtime configuration reload engine of the broccoli service framework. It proves properties of that model.

- **File engine.** It loads the configuration file once at start-up. It then polls the file. A change of content is decoded in the declared format (only JSON is implemented). On success the new configer and the raw bytes are committed together, and the configer is offered to a bounded change queue of depth 10 without blocking. A full queue drops the event.
- **Component container.** It owns one slot per component kind: Redis, logger, tracer, Mongo and MySQL. `Init` builds the enabled ones. `Reload` compares each kind's sub-configuration with the configuration last applied. Only changed kinds are touched: reloaded in place, built fresh, or dropped. The new configuration then becomes the diff reference.
- **Service.** It folds the options and selects the engine. It merges the log overrides into every configuration the container sees. It processes change events. It applies the port and service-name precedence when the server starts. It wraps successful gateway responses in the framework envelope.
- **Request context.** It carries the MySQL client and the engine, with put/extract round-trips.

Everything is pure. The two goroutines (the engine's watch loop and the change processor) become a producer step and a consumer step over a shared bounded queue (`Pipeline`). External pieces are parameters:

- The JSON decoder is `Config.Decoder`, a function from bytes to an optional configuration.
- The component constructors are `Container.Env`, one "construction yields a live component" predicate per kind.
- File reads are `FileEngine.ReadResult` values.
- The outcome of a `select` with two ready arms is an input bit.

Component instances are `Container.Client` values. Each carries an identity issued from a counter and the sub-configuration it is bound to, so "reloaded in place" (same identity) can be told apart from "built fresh" (new identity). The container also logs every call it makes into a component package (`Container.Effect`). That log makes "no release call" and "touches nothing" observable.

Modules, one file each: `Wrappers`, `Text` (bytes, `utils.IsEmptyString`, `strconv.Itoa` and its inverse), `Config`, `Channel`, `FileEngine`, `Container`, `Service`, `Gateway`, `Ctx`, `Pipeline`.

Behaviour of the source worth knowing, which the model reproduces:

- **Selective reload.** A Redis (or MySQL) sub-configuration change on a live client calls the client's own `Reload`. The identity is kept (plugin/plugin.go:90-92). No new instance is built. `Container.SelectiveReload` proves this.
- **Dropped events.** The raw-byte cache is committed before the publish attempt (engine/file/ng.go:130-134). A dropped event is therefore not just delayed: the dropped content is never delivered (`FileEngine.SameContentNeverRepublished`). The container catches up only when the file changes to new content and that send finds room.
- **Cancellation.** The watch loop only looks at the cancellation channel inside the publish `select` (engine/file/ng.go:79-86). A cancellation sender therefore waits until a poll finds changed content that refreshes successfully (`Pipeline.CancelWaitsForChange`).
- **Failed construction.** A failed logger or tracer construction keeps the previous instance rather than leaving the slot absent (plugin/plugin.go:142-149, 210-217).
- **Mongo release.** Dropping a disabled Mongo client does call a release (plugin/plugin.go:281). Redis and MySQL are dropped without one.

## Model

| member | source | states |
|---|---|---|
| Config.JsonerInit | config/config.go:6-9 | a configer exists exactly when decoding the raw bytes succeeds, and `Get` then returns the decoded configuration |
| FileEngine.New | engine/file/ng.go:33-44 | a new engine keeps its entry, has no configer and an empty raw-byte cache |
| FileEngine.FormatOf | engine/file/ng.go:103-128 | an empty declared format or "json" dispatches to JSON, "toml" to its own rejection, and every other name (yaml included) to the unsupported case carrying that name; both directions |
| FileEngine.FormatOfName | engine/file/ng.go:108-128 | dispatch recovers each format from the name it is declared under |
| FileEngine.RefreshConfig | engine/file/ng.go:101-138 | succeeds exactly when the format is JSON and decoding succeeds; on success the configer is the decoded one and the raw cache is exactly the new content; on any failure the engine is unchanged; toml, other formats and decode failures give their distinct errors |
| FileEngine.Init | engine/file/ng.go:46-58 | a read error is returned with the engine unchanged; otherwise the refresh result, read and refresh errors both reaching the caller |
| FileEngine.SubscribeTick | engine/file/ng.go:61-87 | each outcome is characterised in both directions: a read error, empty or identical content change nothing; a failed refresh changes nothing and reports that refresh's error; after a successful refresh (always committed) the configer is appended exactly when the queue has room and cancellation did not win, the loop returns exactly when a cancellation is waiting and either the queue is full or cancellation wins, and the event is dropped exactly when the queue is full and no cancellation waits; the queue never exceeds its capacity |
| FileEngine.SameContentNeverRepublished | engine/file/ng.go:64-86 | once content is in the raw cache, any number of polls of that content, with or without a cancellation waiting, leave the engine and the queue unchanged: a dropped event is never re-offered |
| FileEngine.GetConfigerAfterInit | engine/file/ng.go:92-94 | after a successful load the engine hands out the configer decoded from the file; after a failed load, the one it had before |
| FileEngine.Subscribe | engine/file/ng.go:60-90 | the watch loop over a run of polls agrees with ticking one poll at a time, only appends to the queue, stays within capacity, and reports a cancellation exactly when the polls, ticked in order, end in one |
| Channel.Empty | service/service.go:202 | the change channel starts with nothing queued and the buffer size it is made with |
| Channel.TrySend | engine/file/ng.go:79-86 | the non-blocking send succeeds exactly when the buffer has room, and then appends at the back |
| Channel.SendAllFits | engine/file/ng.go:79-86 | on a channel within its buffer size, a run of non-blocking sends succeeds exactly when all values fit, and they then wait behind the queued ones in order |
| Channel.EmptyBuffersCap | service/service.go:202 | a fresh channel of buffer size n takes exactly n values without blocking, in order |
| Channel.Receive | service/service.go:219 | a receive takes the oldest queued value and leaves the rest in order |
| Container.NewContainer | plugin/plugin.go:46-48 | a new container has every slot nil, no calls made and the zero configuration |
| Container.InitRedis | plugin/plugin.go:83-87 | Redis is constructed only when enabled, the slot is then live exactly when construction succeeds and holds a fresh identity bound to the configuration; disabled means nothing happens; no other slot changes |
| Container.ReloadRedis | plugin/plugin.go:89-101 | enabled and live: same identity reloaded in place with the new configuration; enabled and nil: fresh construction; disabled: slot nil with no call made; no other slot changes |
| Container.InitMysql | plugin/plugin.go:108-112 | MySQL is constructed only when enabled, as for Redis |
| Container.ReloadMysql | plugin/plugin.go:114-126 | the Redis reload table, for MySQL |
| Container.InitLogger | plugin/plugin.go:142-153 | the logger is constructed whatever the configuration; success installs a fresh logger, failure keeps the previous one |
| Container.InitTracer | plugin/plugin.go:210-222 | the tracer is constructed whatever the configuration; success installs a fresh tracer, failure keeps the previous one |
| Container.InitMongo | plugin/plugin.go:254-264 | when enabled the default client is configured and fetched; the slot is live exactly when the fetch succeeds; disabled means nothing happens |
| Container.ReloadMongo | plugin/plugin.go:266-284 | enabled and live: the default client is reconfigured and refetched, keeping its identity or ending nil if the fetch fails; enabled and nil: fresh init; disabled and live: the default client is released and the slot cleared |
| Container.DiffRedis | plugin/plugin.go:63-65 | Redis is reloaded only when its sub-configuration differs from the reference, else the container is untouched |
| Container.DiffLogger | plugin/plugin.go:66-68 | the logger is rebuilt only when the log configuration differs from the reference |
| Container.DiffTracer | plugin/plugin.go:69-71 | the tracer is rebuilt only when the trace configuration differs from the reference |
| Container.DiffMongo | plugin/plugin.go:72-74 | Mongo is reloaded only when its sub-configuration differs from the reference |
| Container.DiffMysql | plugin/plugin.go:75-77 | MySQL is reloaded only when its sub-configuration differs from the reference |
| Container.Init | plugin/plugin.go:50-59 | every client slot is built only when enabled and is live exactly when construction succeeded, logger and tracer are always attempted, the configuration becomes the diff reference, and identities stay unique |
| Container.Reload | plugin/plugin.go:61-80 | unchanged kinds keep their slots; each changed kind follows its reload table; the new configuration becomes the reference; reloading with the reference itself changes nothing; identities stay unique |
| Container.InitFreshContainer | plugin/plugin.go:50-59 | from a new container, a client slot is live exactly when enabled and constructed; disabled slots stay nil |
| Container.ReloadTwiceIsReloadOnce | plugin/plugin.go:61-80 | a second reload with an equal configuration touches no component |
| Container.ReloadAfterInitIsNoop | plugin/plugin.go:50-80 | reloading with the configuration just used by Init changes nothing |
| Container.DisableDropsWithoutRelease | plugin/plugin.go:89-126 | disabling live Redis and MySQL clears them with no call into their packages, while disabling live Mongo records exactly one release |
| Container.SelectiveReload | plugin/plugin.go:61-101 | after Init, changing only the Redis host reloads the same Redis client in place, now bound to the new host, and every other slot keeps its instance |
| Service.ApplyOptions | service/service.go:144-151 | the option loop applies the non-nil options in order |
| Service.FoldOptionsAppend | service/service.go:146-151 | applying two option lists in sequence is applying their concatenation |
| Service.FoldNilOptions | service/service.go:147-150 | nil options are skipped |
| Service.DefaultEntryPath | service/service.go:56-61 | the entry path defaults to /etc/broccoli/broccoli.json on linux and darwin and to C:\broccoli\broccoli.json elsewhere |
| Service.NewServiceAsWritten | service/service.go:144-163 | the service keeps the folded options, but the entry path comes from the unfolded options |
| Service.EntryPathOptionIgnored | service/service.go:158-160 | an option function that sets the entry path is stored in the service's options and still not used as the path to read |
| Service.NewService | service/service.go:144-163 | the entry path is the one named by the service's own (folded) options, or the current default when they name none |
| Service.NewServiceAgreesWithoutOptionFns | service/service.go:144-163 | without option functions the two readings of the entry path agree |
| Service.SelectEngine | service/service.go:103-111 | "etcd" and "file" select their engines and nothing else does; any other type fails with an error naming it |
| Service.SelectEngineName | service/service.go:63-66 | each engine is selected by the name it is registered under |
| Service.MergeOverrides | service/service.go:240-249 | each non-empty log, format or level option replaces its log field, an empty one keeps the configured value, and nothing else in the configuration changes |
| Service.MergeIdempotent | service/service.go:240-249 | merging the overrides twice is merging them once |
| Service.MergeWithoutOverrides | service/service.go:191-199 | with all three overrides empty the merge is the identity |
| Service.OverridesWin | service/service.go:240-249 | with all three overrides set, configurations differing only in those log fields merge to the same configuration |
| Service.ProcessChange | service/service.go:235-260 | a configer event reloads the container exactly once with the merged configuration; any other event, nil included, leaves it untouched; the error is always nil |
| Service.StartupConfigRepublishedIsNoop | service/service.go:190-250 | start-up and change processing merge identically, so the start-up configuration arriving again as a change touches no component |
| Service.ResolveServer | service/service.go:276-289 | a positive option port, cut to 32 bits, overrides the configured port and otherwise the configured port (0 for random) stays; an empty configured service name falls back to the option's; nothing else changes |
| Service.ResolveServerIdempotent | service/service.go:276-289 | resolving twice is resolving once |
| Service.PortWrapsToRandom | service/service.go:277-279 | an option port of 2^32 passes the positivity test yet resolves to port 0 |
| Gateway.WriteHeader | service/service.go:427-431 | writing a header marks the writer done with that status |
| Gateway.EnvelopeHead | service/service.go:445 | the envelope head is plain ASCII |
| Gateway.Write | service/service.go:433-449 | with no failing error recorded and no header written, the output is the envelope head, then the payload, then a closing brace; otherwise the payload passes through unchanged |
| Gateway.UnwrapWrite | service/service.go:445-448 | stripping the envelope gives the payload back |
| Gateway.FreshWriterWraps | service/service.go:569 | a writer as created for each request wraps its writes, and the payload comes back out of the envelope |
| Gateway.EnvelopeCarriesCode | service/service.go:445 | the errcode field of the envelope holds the decimal success code, which reads back as that code |
| Gateway.AfterHeaderPassesThrough | service/service.go:439-443 | after a header was written, writes pass through unchanged |
| Gateway.FailingErrorPassesThrough | service/service.go:435-437 | a recorded non-success error code makes writes pass through, a recorded success code does not |
| Text.Itoa | service/service.go:445 | the decimal rendering is non-empty, made of digits and a leading minus exactly for negatives |
| Text.ParseItoa | service/service.go:445 | parsing the decimal rendering gives the number back |
| Text.ItoaInjective | service/service.go:445 | distinct codes render to distinct decimal texts |
| Ctx.MysqlToContext | context/ctxmysql.go:35-40 | returns a new child of the given context that binds the MySQL box; every other key reads as before |
| Ctx.ExtractMysql | context/ctxmysql.go:20-31 | succeeds exactly when a MySQL box holding a client is bound, with that client; an unbound key gives the "not set" error and a nil client the "cli was not set" error |
| Ctx.EngineToContext | context/ctxengine.go:31-36 | returns a new child of the given context binding the engine box; every other key reads as before |
| Ctx.ExtractEngine | context/ctxengine.go:21-29 | succeeds exactly when an engine box is bound, with its content (nil included); otherwise the "not set" error |
| Ctx.MysqlRoundTrip | context/ctxmysql.go:20-40 | extracting after putting a client yields that client |
| Ctx.NilMysqlNotExtracted | context/ctxmysql.go:25-27 | a stored nil client fails extraction with the "cli was not set" error |
| Ctx.EngineRoundTrip | context/ctxengine.go:21-36 | extracting after putting an engine yields it, nil included, without error |
| Ctx.NothingStored | context/ctxengine.go:22-25 | a context with neither put applied fails both extractions |
| Ctx.PutsIndependent | context/ctxmysql.go:35-40 | putting an engine does not disturb the MySQL binding and vice versa; the latest put wins |
| Pipeline.Start | service/service.go:100-202 | an unknown engine type fails naming it; a failed engine load aborts start-up; a file engine whose load succeeds starts; on success the service keeps the given options, the container was initialised from the merged loaded configuration and the queue is empty with capacity 10 |
| Pipeline.StartThenRepublishIsNoop | service/service.go:190-250 | after start-up, the start-up configer arriving as a change is consumed and touches no component: start-up and change processing merge with the same options |
| Pipeline.ProducerStep | service/service.go:204-212 | a running producer advances the engine and the queue exactly as one watch-loop iteration does, except that an observed cancellation leaves the queue as it was, finishes the producer and closes the queue; a finished producer does nothing; container and options are untouched |
| Pipeline.ConsumerStep | service/service.go:215-227 | takes the oldest event and applies it through change processing, waits on an open empty queue, and finishes on a closed drained one; the buffer size, the engine, the options and the producer's state are kept, and the consumer is not marked finished while events remain |
| Pipeline.ConsumerStepAsWritten | service/service.go:215-227 | the loop as written: on a closed drained queue every receive yields a nil event and the loop continues |
| Pipeline.ClosedQueueSpins | service/service.go:204-227 | once the producer has returned and the queue is drained, any number of consumer steps as written each process a nil event and change nothing |
| Pipeline.DrainInOrder | service/service.go:217-222 | queued events are applied exactly once each and in queue order |
| Pipeline.ClosedQueueFinishes | service/service.go:215-227 | the checked consumer finishes right after draining a closed queue |
| Pipeline.IdenticalContentIsNoop | engine/file/ng.go:70-72 | polling empty or identical content changes nothing in the whole system |
| Pipeline.RejectedContentIsRetained | engine/file/ng.go:64-76 | a read error or content that fails to refresh leaves the whole system, container included, as it was |
| Pipeline.CancelledIsTerminal | service/service.go:204-212 | an observed cancellation closes the queue once and every later producer step does nothing |
| Pipeline.ThreeChangesDepthTwo | engine/file/ng.go:79-86 | with a depth-2 queue and no consumer, three changes are committed, the first two delivered in order, the third dropped |
| Pipeline.CancelWaitsForChange | engine/file/ng.go:64-86 | the loop as written: while polls fail to read, find unchanged content or fail to refresh, a waiting cancellation is never served and nothing changes, however many polls go by |
| Pipeline.ProducerStepChecked | engine/file/ng.go:61-87 | looking at the cancellation first: a waiting cancellation finishes the producer and closes the queue whatever the file holds; without one, the step is the as-written one |
| Pipeline.CheckedCancelStops | engine/file/ng.go:61-87 | with the check, a cancellation sent during any poll of a run stops the producer and closes the queue |
| Pipeline.EndToEnd | service/service.go:179-250 | start-up with Redis at h1, a change to h2 reloads the same client bound to h2 after one poll and one consumer step, and later malformed content reaches nobody |

## Left out

- Goroutines, `time.Sleep` polling and the `watcherErrorC` wiring are flattened into producer and consumer steps. Interleavings are whatever sequence of steps a lemma chooses. The consumer's `watcherErrorC` arm only logs. The file engine never makes `Subscribe` return an error, so that arm is not modelled.
- Logging is not modelled: log lines have no effect on state.
- The user hooks are not modelled, because they call code outside the framework. `LoadEngineFn` is called synchronously at the end of `loadEngine` (service/service.go:229-231). `ProcessChangeFn` (service/service.go:254-258) and `InitServiceCompleteFn` (service/service.go:126-130) run asynchronously.
- A cancellation sent after the producer finished is not modelled. The producer closes `watcherCancelC` when it returns (service/service.go:206), so a second send panics in Go.
- The etcd engine is not part of this model. `Pipeline.Start` stops with `EtcdEngine` when it is selected.
- Engine construction failure is not modelled. The source logs a constructor error at service/service.go:104-106 and goes on without returning it. `file.New` never fails.
- The bootstrap entry is read and JSON-decoded by `initConfEntry`, which panics on failure. That read is not modelled; `Pipeline.Start` receives the decoded entry.
- Only the precedence part of `initServer` is modelled. The go-micro service and client, the HTTP gateway, swagger serving, `RunServer` and `grpcGatewayHTTPError` are network and framework plumbing and are out of scope.
- The container's setters and getters for service id, HTTP handler, go-micro client and go-micro service are out of scope: they only store and return references. The component getters (`GetRedisCli`, `GetMyslCli`, `GetMysql`, `GetLogger`, `GetTracer`, `GetMongo`) are the `Registry` fields.
- Readers running concurrently with `Reload` are out of scope, and so are torn views across kinds.
- `utils.IsEmptyString` is not part of this model. It is taken to mean "has no characters", so a whitespace-only override or format counts as non-empty here.
- The numeric value of `ECodeSuccessed` is not part of this model. `Gateway.Write` takes the success code as a parameter. The returned byte count and error of the underlying writer are not modelled.
- `Trace.Rate` is a `real`, compared only. Go's float64 NaN inequality has no counterpart; decoded JSON has no NaN.
- `AppConf.UpdateTime` is never decoded (`json:"-"`) and is left out. `interface{}` values are kept as opaque text.
- The Mongo package is not part of this model. After `ReloadDefault`, the refetched default client is taken to keep its identity. A failed `DefaultClient` is taken to return nil, per the Go convention.
- Go's typed-nil-in-interface distinction is not modelled: a constructor either yields a live component or nil.
- Container.Reload: a freshly built component's identity is only stated to be at least the counter value before the reload, not its exact value. The source promises no identity.

## Findings

| source | as written | input that shows it | evidently intended | confidence | as-written member | corrected member |
|---|---|---|---|---|---|---|
| service/service.go:215-227 | the change processor selects on `change := <-changesC` in an endless loop; after the watch goroutine returns it closes `changesC`, so every receive yields nil at once and is processed as an unsupported event, forever | the watch loop observes a cancellation (sent at service/service.go:94 or 121), returns, and closes the channel; the processor then spins logging "unsupported event change" | stop processing once the channel is closed and drained (`change, ok := <-changesC; if !ok { return }`) | medium; not executed | Pipeline.ConsumerStepAsWritten, Pipeline.ClosedQueueSpins | Pipeline.ConsumerStep, Pipeline.ClosedQueueFinishes |
| service/service.go:144-163 | `NewService` folds the option functions into `o` but reads the entry path from the unfolded `options` | `options.ConfEntryPath` empty and one option function setting it to /srv/app/broccoli.json: the service's options hold that path, yet /etc/broccoli/broccoli.json is read | take the entry path from the folded options `o` | low; not executed | Service.NewServiceAsWritten, Service.EntryPathOptionIgnored | Service.NewService |
| engine/file/ng.go:61-87 | the watch loop reads `cancelC` only inside the publish `select`, which a poll reaches only after reading changed content that refreshes successfully; the senders at service/service.go:94 and 121 use the unbuffered `watcherCancelC` and block until then | `RunServer` fails while the configuration file stays the same: the send at service/service.go:94 blocks, so `Run` does not return its error until someone edits the file | the loop notices a pending cancellation on every iteration, whatever the file holds, so the failing start-up returns promptly | medium; not executed | Pipeline.CancelWaitsForChange | Pipeline.ProducerStepChecked, Pipeline.CheckedCancelStops |
