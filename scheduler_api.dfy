/** The scheduler side of the conversation: status events received on the two
    subscription streams, the server-notify request, and the outcomes of the
    calls whose transport is not modelled. */
module SchedulerApi {
  import opened Kube

  /** The scheduler's pipeline version states. */
  datatype PipelineStatus =
    | PipelineStatusUnknown
    | PipelineCreate
    | PipelineCreating
    | PipelineReady
    | PipelineFailed
    | PipelineTerminate
    | PipelineTerminating
    | PipelineTerminated

  /** The enumeration's own name for a state (its `String()`). */
  function StatusName(s: PipelineStatus): string
  {
    match s
    case PipelineStatusUnknown => "PipelineStatusUnknown"
    case PipelineCreate => "PipelineCreate"
    case PipelineCreating => "PipelineCreating"
    case PipelineReady => "PipelineReady"
    case PipelineFailed => "PipelineFailed"
    case PipelineTerminate => "PipelineTerminate"
    case PipelineTerminating => "PipelineTerminating"
    case PipelineTerminated => "PipelineTerminated"
  }

  /** Desired-state metadata the scheduler echoes back with a status report. */
  datatype KubernetesMeta = KubernetesMeta(namespace: string, generation: int)

  datatype PipelineVersionState = PipelineVersionState(status: PipelineStatus, reason: string, modelsReady: bool)

  /** One version record of a pipeline event; `kubernetesMeta` is absent when
      the pipeline definition carries no desired-state metadata. */
  datatype PipelineWithState = PipelineWithState(kubernetesMeta: Option<KubernetesMeta>, state: PipelineVersionState)

  datatype PipelineStatusEvent = PipelineStatusEvent(pipelineName: string, versions: seq<PipelineWithState>)

  datatype ServerStatusEvent = ServerStatusEvent(
    serverName: string,
    kubernetesMeta: Option<KubernetesMeta>,
    expectedReplicas: int,
    availableReplicas: int,
    numLoadedModelReplicas: int)

  datatype ServerNotifyEntry = ServerNotifyEntry(name: string, expectedReplicas: int, kubernetesMeta: KubernetesMeta)

  datatype ServerNotifyRequest = ServerNotifyRequest(servers: seq<ServerNotifyEntry>, isFirstSync: bool)

  /** How a stream stops after its last event: end-of-stream, or another receive error. */
  datatype StreamEnd = EndOfStream | RecvFailed(err: Error)

  /** A subscription either fails to open, or delivers its events and then ends. */
  datatype Subscription<E> = SubscribeFailed(err: Error) | Opened(events: seq<E>, end: StreamEnd)

  /** What the subscription loop returns once the stream stops. */
  function EndError(end: StreamEnd): (r: Option<Error>)
    ensures r.None? <==> end.EndOfStream?
    ensures end.RecvFailed? ==> r == Some(end.err)
  {
    match end
    case EndOfStream => None
    case RecvFailed(e) => Some(e)
  }

  /** The result of acquiring the namespace's scheduler connection. */
  datatype ConnOutcome = Connected | ConnectFailed(err: Error)

  /** The result of a command call, with the caller-side classification of its
      error as retryable or not. */
  datatype RpcOutcome = RpcOutcome(err: Option<Error>, retryable: bool)

  /** The (error, retryable) pair a command returns. */
  datatype CommandResult = CommandResult(err: Option<Error>, retryable: bool)
}
