# Scheduler client of the Seldon Core operator, modelled in Dafny

The operator's scheduler client keeps the Pipeline and Server records of the
desired-state store (the Kubernetes API) in step with what the scheduler
reports. This project models the two files that do this:

- **Pipelines** (`PipelineSync`, `pipeline.dfy`):
  - the load and unload commands and their `(error, retryable)` results;
  - the pipeline status subscription. For each event it skips malformed
    events, removes the pipeline finalizer from a pipeline pending deletion
    once the reported state allows it, and copies a generation-fenced status
    into the `Ready` and `ModelsReady` conditions.
- **Servers** (`ServerSync`, `server.dfy`):
  - the notify request that announces servers and their expected replica
    counts;
  - the server status subscription. It copies replica counts from each event
    and classifies control-plane connectivity as `NoReplicasConnected`,
    `AllReplicasConnected` or `SomeReplicasConnected`.

Supporting modules:

- `Kube` (`kube.dfy`): object identity and metadata, conditions kept as an
  upsert keyed by condition type, and finalizer-token removal.
- `SchedulerApi` (`scheduler_api.dfy`): the scheduler's messages, subscription
  streams (a finite sequence of events followed by end-of-stream or a receive
  error) and command outcomes.
- `DesiredState` (`store.dfy`): the store.
  - `Get` reads a record.
  - `Update` writes only the finalizers. A record pending deletion that is
    left with no finalizers is removed.
  - `Status().Update` writes only the status.
  - Conflicts come from concurrent writers, which are not modelled. Instead,
    the store's answers to successive writes are part of its state
    (`replies`). Once those answers run out, every write is accepted.
  - The `Store` class performs the writes. Pure functions over `Snapshot`
    specify them.
- `Decimal` (`decimal.dfy`): the `%d` rendering used in the server's count
  message, together with a parser that reads it back.

Each retry-on-conflict closure is a loop of at most `DefaultRetrySteps` (5)
attempts. Only a conflict leads to another attempt; any other answer stops the
loop. Each loop method is proved equal to a recursive function of the store,
and the properties are lemmas about those functions.

Constants whose definitions are outside the two files are taken to be:

- the pipeline finalizer is `"seldon.pipeline.finalizer"`;
- the default retry has 5 steps;
- the pipeline states carry the enumeration's own names (`PipelineReady`,
  `PipelineTerminating`, …);
- each connectivity reason is the name of its constant.

Behaviour of the code that the model keeps:

- A server event without desired-state metadata is not discarded. The server
  is looked up in the subscription's namespace, and no generation check is
  made (`server.go:109-114`, `129-133`).
- The count message appears only for `SomeReplicasConnected`. The other two
  classifications carry their own messages (`server.go:142-152`).
- With zero status replicas, the reason is `NoReplicasConnected` only when
  `available >= 0`. Otherwise it is `SomeReplicasConnected`. The condition
  still holds in both cases (`server.go:140-165`).
- Server events have no event kinds, and notify entries carry no min/max
  replicas (`server.go:43-67`, `98-173`).

## Model

| member | source | states |
|---|---|---|
| Kube.SetCondition | operator/scheduler/pipeline.go:218-242 | setting a condition creates or replaces the condition of that type and keeps every other condition |
| Kube.RemoveToken | operator/scheduler/pipeline.go:168-171 | the finalizer is no longer present, and every other finalizer is kept as often as it occurred |
| SchedulerApi.EndError | operator/scheduler/pipeline.go:94-102 | end-of-stream gives no error; any other receive error is returned as it is |
| DesiredState.Store.GetPipeline | operator/scheduler/pipeline.go:127-144 | the lookup succeeds exactly when the store holds the key, and then returns the stored record |
| DesiredState.Store.GetServer | operator/scheduler/server.go:115-120 | the lookup succeeds exactly when the store holds the key, and then returns the stored record |
| DesiredState.Store.UpdatePipeline | operator/scheduler/pipeline.go:172-175 | the new store state and the returned error equal the metadata write `PipelineWrite` of the old state |
| DesiredState.Store.UpdatePipelineStatus | operator/scheduler/pipeline.go:254-261 | the new store state and error equal the status-only write `PipelineStatusWrite` of the old state |
| DesiredState.Store.UpdateServerStatus | operator/scheduler/server.go:177-184 | the new store state and error equal the status-only write `ServerStatusWrite` of the old state |
| Decimal.ParseFormatInt | operator/scheduler/server.go:143 | reading back the decimal rendering of any integer gives that integer |
| Decimal.FormatIntInjective | operator/scheduler/server.go:143 | different integers are rendered differently |
| PipelineSync.LoadPipeline | operator/scheduler/pipeline.go:29-47 | a connection failure gives (err, true); otherwise the call's error and its retryable classification are returned |
| PipelineSync.UnloadRequested | operator/scheduler/pipeline.go:69-74 | Ready becomes false with reason `PipelineTerminating` and message "Pipeline unload requested"; metadata and other conditions are kept |
| PipelineSync.UnloadPipeline | operator/scheduler/pipeline.go:49-77 | connection failure gives (err, true) and an RPC failure gives (err, retryable); neither writes anything. Success writes the terminating status and returns (nil, false) whatever the write answers |
| PipelineSync.CanRemovePipelineFinalizer | operator/scheduler/pipeline.go:263-271 | true exactly for the states other than `PipelineTerminate` and `PipelineTerminating` |
| PipelineSync.ApplyVersionState | operator/scheduler/pipeline.go:210-242 | Ready holds iff the state is `PipelineReady`, with the reported reason and the state's name as message. ModelsReady follows the flag with the two fixed reasons. Other conditions are kept |
| PipelineSync.FencedStatus | operator/scheduler/pipeline.go:200-242 | no write for another generation; otherwise the re-fetched record with the derived conditions and unchanged metadata |
| PipelineSync.WithoutFinalizer | operator/scheduler/pipeline.go:166-171 | the re-fetched record with the finalizer gone, every other finalizer kept, and status and other metadata unchanged |
| PipelineSync.RemoveFinalizerWithRetry | operator/scheduler/pipeline.go:153-178 | the retry loop leaves the store as `FinalizerRemoval` says: re-fetch, require pending deletion, strip, write, retry only on conflict |
| PipelineSync.UpdateStatusWithRetry | operator/scheduler/pipeline.go:186-245 | the retry loop leaves the store as `StatusUpdate` says: re-fetch, apply generation fencing, derive, write the status, retry only on conflict |
| PipelineSync.HandlePipelineEvent | operator/scheduler/pipeline.go:104-248 | one event leaves the store as `PipelineEventStep` says |
| PipelineSync.SubscribePipelineEvents | operator/scheduler/pipeline.go:80-252 | a failed subscription returns its error and writes nothing. An opened one applies every event in order and returns the stream's end error (none at end-of-stream) |
| PipelineSync.PutEvolves | operator/scheduler/pipeline.go:146-245 | replacing or removing only the record under one key by an evolution keeps the store well keyed and leaves every other record alone |
| PipelineSync.FinalizerWriteFrame | operator/scheduler/pipeline.go:166-175 | one finalizer write keeps the record's status and the rest of its metadata, strips the finalizer whenever it changes the record, and changes nothing on a conflict |
| PipelineSync.FinalizerRemovalFrame | operator/scheduler/pipeline.go:153-178 | finalizer removal changes only the record under its key and only when it is pending deletion. That record loses the finalizer or is removed, its status stays the same, and at most 5 writes are made |
| PipelineSync.StatusWriteFrame | operator/scheduler/pipeline.go:200-244 | one fenced status write keeps the metadata and leaves either the old status or the derived one |
| PipelineSync.StatusUpdateFrame | operator/scheduler/pipeline.go:186-245 | the status update never adds or removes a record and never changes metadata. The status stays as it was, or becomes the derived one and then only for the current generation |
| PipelineSync.StaleStatusWritesNothing | operator/scheduler/pipeline.go:200-208 | a report for another generation than the re-fetched one writes nothing |
| PipelineSync.SkippedPipelineEvents | operator/scheduler/pipeline.go:104-144 | events without exactly one version, without desired-state metadata, or for a pipeline the store lacks leave the store as it was |
| PipelineSync.GatedFinalizerRemovalFrame | operator/scheduler/pipeline.go:146-183 | the finalizer step changes a record only when the fetched pipeline is pending deletion and the reported state permits removal |
| PipelineSync.ReconcileFrame | operator/scheduler/pipeline.go:146-245 | reconciling one pipeline touches only that record. Its status changes only to the derived one for the current generation. Its finalizers change only when deletion is pending and permitted, and then the finalizer is gone. At most 10 writes are made |
| PipelineSync.PipelineEventFrame | operator/scheduler/pipeline.go:104-248 | one event changes only the pipeline it names, only by fenced status writes and gated finalizer removal, and never touches a server |
| PipelineSync.AcceptedFinalizerRemoval | operator/scheduler/pipeline.go:146-178 | with every write accepted, a pipeline pending deletion whose state permits it ends up without the finalizer, or is removed |
| PipelineSync.AcceptedStatusUpdate | operator/scheduler/pipeline.go:186-245 | with every write accepted, a report for the current generation is written in one attempt and nothing else changes |
| PipelineSync.AcceptedReconcile | operator/scheduler/pipeline.go:146-245 | with every write accepted, both steps take effect: the finalizer goes when permitted, and the derived conditions are stored for the current generation |
| PipelineSync.AcceptedPipelineEvent | operator/scheduler/pipeline.go:104-248 | the same for a whole well-formed event |
| PipelineSync.StalePipelineEventKeepsStatus | operator/scheduler/pipeline.go:200-208 | an event for another generation keeps every pipeline status |
| PipelineSync.PipelineStreamEvolves | operator/scheduler/pipeline.go:94-250 | over a whole stream, no pipeline appears, only finalizers change in metadata, pipelines not pending deletion keep theirs, and servers are untouched |
| PipelineSync.UnnamedPipelineUntouched | operator/scheduler/pipeline.go:94-250 | over a whole stream, a pipeline no event names is left exactly as it was |
| ServerSync.ExpectedReplicas | operator/scheduler/server.go:45-52 | 0 for a server pending deletion, else the spec's replicas when set, else 1 |
| ServerSync.ServerNotify | operator/scheduler/server.go:27-79 | an empty list does nothing. Without a client, the first server's namespace is connected to, and a connection failure is returned with no request sent. Otherwise the request announces every server in order, with name, namespace, generation and expected replicas, and carries `isFirstSync` |
| ServerSync.CountMessageRoundTrip | operator/scheduler/server.go:143 | both counts can be read back from the "a/e replicas available" message |
| ServerSync.ConnectionCondition | operator/scheduler/server.go:137-165 | zero status replicas means the condition holds, with `NoReplicasConnected` when available >= 0. All connected gives `AllReplicasConnected`. Otherwise `SomeReplicasConnected` with the count message, holding iff min replicas is set and reached |
| ServerSync.MinReplicasSuffice | operator/scheduler/server.go:137-158 | min 2 of 5 replicas with 3 available: the condition holds, with the count message "3/5 replicas available" |
| ServerSync.ApplyServerEvent | operator/scheduler/server.go:135-165 | loaded and connected counts are copied from the event and the connectivity condition is set. Metadata, spec, status replicas and other conditions are kept |
| ServerSync.FencedServerStatus | operator/scheduler/server.go:129-136 | no write exactly when the event carries a generation other than the re-fetched server's |
| ServerSync.ServerEventKey | operator/scheduler/server.go:109-116 | the event's server name, in the event's namespace or, without metadata, the subscription's |
| ServerSync.UpdateServerStatusWithRetry | operator/scheduler/server.go:123-168 | the retry loop leaves the store as `ServerStatusRetry` says |
| ServerSync.HandleServerEvent | operator/scheduler/server.go:108-171 | one event leaves the store as `ServerEventStep` says |
| ServerSync.SubscribeServerEvents | operator/scheduler/server.go:82-175 | a failed subscription returns its error and writes nothing. An opened one applies every event in order and returns the stream's end error |
| ServerSync.ServerWriteFrame | operator/scheduler/server.go:177-184 | one status write keeps metadata and spec, leaves the old status or the event applied, and changes nothing on a conflict |
| ServerSync.ServerStatusRetryFrame | operator/scheduler/server.go:123-168 | the status update touches only the server under its key, keeps its metadata and spec, never touches pipelines, and makes at most 5 writes |
| ServerSync.ServerStatusRetryResult | operator/scheduler/server.go:123-168 | afterwards the server's status is unchanged, or is the event applied, and then only for its current generation |
| ServerSync.MissingServerSkipped | operator/scheduler/server.go:115-120 | an event for a server the store lacks is skipped with no write |
| ServerSync.StaleServerEventIgnored | operator/scheduler/server.go:129-133 | an event carrying another generation than the stored server's writes nothing |
| ServerSync.AcceptedServerEvent | operator/scheduler/server.go:109-168 | with the write accepted, a current-generation event (or one without metadata) is applied in one write and nothing else changes |
| ServerSync.ServerEventFrame | operator/scheduler/server.go:108-171 | one event changes at most the status of the server it is for |
| ServerSync.ServerStreamEvolves | operator/scheduler/server.go:98-173 | over a whole stream, pipelines are untouched and every server keeps its metadata and spec |
| ServerSync.UnnamedServerUntouched | operator/scheduler/server.go:98-173 | over a whole stream, a server that no event is for is left exactly as it was |
| SchedulerApi.StatusName | operator/scheduler/pipeline.go:222 | the enumeration's own name of each pipeline state, as its `String()` gives it; used as the Ready message |
| DesiredState.PipelineWrite | operator/scheduler/pipeline.go:172 | `Update` of a pipeline: NotFound without consuming an answer when the key is missing; otherwise the next answer decides. An accepted write sets only the finalizers, and removes a record pending deletion that is left with none |
| DesiredState.PipelineStatusWrite | operator/scheduler/pipeline.go:254-261 | `Status().Update` of a pipeline: NotFound for a missing key; otherwise the next answer decides, and an accepted write replaces only the status |
| DesiredState.ServerStatusWrite | operator/scheduler/server.go:177-184 | `Status().Update` of a server: NotFound for a missing key; otherwise the next answer decides, and an accepted write replaces only the status |
| Decimal.FormatInt | operator/scheduler/server.go:143 | the `%d` rendering: non-empty, starting with a minus sign exactly for negative numbers, and free of `/` |
| PipelineSync.FinalizerRemoval | operator/scheduler/pipeline.go:153-178 | with attempts left: re-fetch, stop when the record is gone or no longer pending deletion, write it without the finalizer, and try again only after a conflict |
| PipelineSync.StatusUpdate | operator/scheduler/pipeline.go:186-245 | with attempts left: re-fetch, stop when the record is gone or of another generation, write the derived status, and try again only after a conflict |
| PipelineSync.GatedFinalizerRemoval | operator/scheduler/pipeline.go:146-183 | the finalizer step runs only when the fetched pipeline is pending deletion and the reported state permits removal, with the default retry budget |
| PipelineSync.ReconcilePipeline | operator/scheduler/pipeline.go:146-245 | the gated finalizer step followed by the status step, each with its own retry budget |
| PipelineSync.PipelineEventStep | operator/scheduler/pipeline.go:104-248 | an event with other than one version, without desired-state metadata, or for a pipeline the store lacks is skipped; otherwise the named pipeline is reconciled |
| PipelineSync.PipelineEvents | operator/scheduler/pipeline.go:94-250 | the events of a stream applied one after another, in arrival order |
| ServerSync.NotifyEntry | operator/scheduler/server.go:55-62 | the entry announcing a server carries its name, namespace, generation and expected replicas |
| ServerSync.CountMessage | operator/scheduler/server.go:143 | "available/expected replicas available", with both counts in `%d` form |
| ServerSync.ServerStatusRetry | operator/scheduler/server.go:123-168 | with attempts left: re-fetch, stop when the server is gone or the event is of another generation, write the event applied to its status, and try again only after a conflict |
| ServerSync.ServerEventStep | operator/scheduler/server.go:108-171 | an event for a server the store lacks is skipped; otherwise the retried status update runs |
| ServerSync.ServerEvents | operator/scheduler/server.go:98-173 | the events of a stream applied one after another, in arrival order |

## Left out

- gRPC transport, the `grpc_retry` attempt and backoff options, and context
  cancellation. A stream is a finite sequence of events followed by its end.
- `getConnection`, `checkErrorRetryable` and `AsSchedulerPipeline`: their
  bodies are not part of this model. Their outcomes are parameters
  (`ConnOutcome`, `RpcOutcome`, and the `rpcErr` of `ServerNotify`).
- `handleRegisteredServers`, the background re-sync started by the server
  subscription: it is concurrent, and its body is not part of this model.
- Logging and the event recorder's warning on a failed status write.
- The store's `Get` fails only for a missing record. Other read errors are
  not modelled.
- Concurrent writers are reduced to the store's list of answers. Between two
  attempts of a retry, the records stay as they were.
- Backoff timing of the conflict retry: only its attempt count is modelled.
- `CreateAndSetCondition` and `utils.RemoveStr`: their bodies are not part of
  this model. Conditions are kept as an upsert of status, reason and message
  keyed by type, with no timestamps. Token removal takes out every occurrence.
- PipelineSync.UnloadPipeline: the Go code changes the caller's object in
  place. The model returns the changed value in `updated` and writes that.
- A pipeline version without a state record: the Go loop dereferences
  `pv.State` at `pipeline.go:150` (deletion branch) and at `pipeline.go:211`,
  `221` and `238` (generation match) without a nil check and so panics there.
  The model assumes every version carries its state.
- Integer widths: counts and generations are unbounded integers. The code only
  compares and copies them, and formats them with `%d`.
- The other files of the repository (generated protobuf builders, server
  startup, service reconciliation tests, the integration-test client, the
  route-cache benchmark): they are outside the scheduler client.
