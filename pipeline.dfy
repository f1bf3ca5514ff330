/** The pipeline half of the scheduler client: the load and unload commands,
    and the pipeline status subscription that removes the pipeline finalizer
    once the scheduler reports that a deleted pipeline is no longer
    terminating, and copies generation-fenced status into the Ready and
    ModelsReady conditions. */
module PipelineSync {
  import opened Kube
  import opened SchedulerApi
  import opened DesiredState

  const PipelineFinalizerName: string := "seldon.pipeline.finalizer"
  const UnloadRequestedMessage: string := "Pipeline unload requested"
  const ModelsAvailableReason: string := "Models all available"
  const ModelsUnavailableReason: string := "Some models are not available"

  /** The two states in which the scheduler is still tearing a pipeline down. */
  const StillTerminating: set<PipelineStatus> := {PipelineTerminate, PipelineTerminating}

  // ---------------------------------------------------------------------------
  // Commands

  /** A load whose connection cannot be obtained is retryable; otherwise the
      call's error and its classification are returned as they are. */
  function LoadPipeline(conn: ConnOutcome, rpc: RpcOutcome): (r: CommandResult)
    ensures conn.ConnectFailed? ==> r == CommandResult(Some(conn.err), true)
    ensures conn.Connected? ==> r.err == rpc.err && r.retryable == rpc.retryable
  {
    match conn
    case ConnectFailed(e) => CommandResult(Some(e), true)
    case Connected => CommandResult(rpc.err, rpc.retryable)
  }

  /** The pipeline as an accepted unload leaves it: not ready, terminating. */
  function UnloadRequested(p: Pipeline): (r: Pipeline)
    ensures r.meta == p.meta
    ensures r.status.Keys == p.status.Keys + {PipelineReadyCondition}
    ensures r.status[PipelineReadyCondition] == Condition(false, "PipelineTerminating", UnloadRequestedMessage)
    ensures forall t :: t in p.status && t != PipelineReadyCondition ==> r.status[t] == p.status[t]
  {
    var ready := Condition(false, StatusName(PipelineTerminating), UnloadRequestedMessage);
    p.(status := SetCondition(p.status, PipelineReadyCondition, ready))
  }

  /** Unloads `pipeline`. The updated pipeline is returned because the caller's
      object is the one whose status is changed. The status write after an
      accepted unload is best effort: its failure does not change the result. */
  method UnloadPipeline(store: Store, pipeline: Pipeline, conn: ConnOutcome, rpc: RpcOutcome)
    returns (result: CommandResult, updated: Pipeline)
    modifies store
    ensures conn.ConnectFailed? ==>
      result == CommandResult(Some(conn.err), true) && updated == pipeline && store.State() == old(store.State())
    ensures conn.Connected? && rpc.err.Some? ==>
      result == CommandResult(rpc.err, rpc.retryable) && updated == pipeline && store.State() == old(store.State())
    ensures conn.Connected? && rpc.err.None? ==>
      && result == CommandResult(None, false)
      && updated == UnloadRequested(pipeline)
      && store.State() == PipelineStatusWrite(old(store.State()), updated).after
  {
    if conn.ConnectFailed? {
      return CommandResult(Some(conn.err), true), pipeline;
    }
    if rpc.err.Some? {
      return CommandResult(rpc.err, rpc.retryable), pipeline;
    }
    updated := UnloadRequested(pipeline);
    var _ := store.UpdatePipelineStatus(updated);
    result := CommandResult(None, false);
  }

  // ---------------------------------------------------------------------------
  // Decisions taken for one event

  /** Whether a pipeline pending deletion may lose its finalizer, given the
      state the scheduler reports: every state except the two still-terminating
      ones permits it. */
  function CanRemovePipelineFinalizer(s: PipelineStatus): (r: bool)
    ensures r <==> s !in StillTerminating
  {
    match s
    case PipelineTerminating => false
    case PipelineTerminate => false
    case _ => true
  }

  /** The status conditions after a report of `state`: Ready holds exactly when
      the pipeline is reported ready, with the reported reason and the state's
      name; ModelsReady follows the reported flag. */
  function ApplyVersionState(cs: Conditions, state: PipelineVersionState): (r: Conditions)
    ensures r.Keys == cs.Keys + {PipelineReadyCondition, ModelsReadyCondition}
    ensures r[PipelineReadyCondition].status <==> state.status == PipelineReady
    ensures r[PipelineReadyCondition].reason == state.reason
    ensures r[PipelineReadyCondition].message == StatusName(state.status)
    ensures r[ModelsReadyCondition].status == state.modelsReady
    ensures r[ModelsReadyCondition].reason ==
      (if state.modelsReady then ModelsAvailableReason else ModelsUnavailableReason)
    ensures r[ModelsReadyCondition].message == ""
    ensures forall t :: t in cs && t != PipelineReadyCondition && t != ModelsReadyCondition ==> r[t] == cs[t]
  {
    var withReady :=
      match state.status
      case PipelineReady =>
        SetCondition(cs, PipelineReadyCondition, Condition(true, state.reason, StatusName(state.status)))
      case _ =>
        SetCondition(cs, PipelineReadyCondition, Condition(false, state.reason, StatusName(state.status)));
    if state.modelsReady then
      SetCondition(withReady, ModelsReadyCondition, Condition(true, ModelsAvailableReason, ""))
    else
      SetCondition(withReady, ModelsReadyCondition, Condition(false, ModelsUnavailableReason, ""))
  }

  /** The record one run of the status closure writes back for the re-fetched
      `current`: none when the event was produced for another generation. */
  function FencedStatus(current: Pipeline, meta: KubernetesMeta, state: PipelineVersionState): (r: Option<Pipeline>)
    ensures r.None? <==> meta.generation != current.meta.generation
    ensures r.Some? ==> r.value.meta == current.meta
    ensures r.Some? ==> r.value.status == ApplyVersionState(current.status, state)
  {
    if meta.generation != current.meta.generation then None
    else Some(current.(status := ApplyVersionState(current.status, state)))
  }

  /** The record the finalizer closure writes back for the re-fetched `latest`. */
  function WithoutFinalizer(latest: Pipeline): (r: Pipeline)
    ensures r.status == latest.status
    ensures r.meta == latest.meta.(finalizers := r.meta.finalizers)
    ensures PipelineFinalizerName !in r.meta.finalizers
    ensures forall x :: x != PipelineFinalizerName ==>
      multiset(r.meta.finalizers)[x] == multiset(latest.meta.finalizers)[x]
  {
    latest.(meta := latest.meta.(finalizers := RemoveToken(latest.meta.finalizers, PipelineFinalizerName)))
  }

  // ---------------------------------------------------------------------------
  // The two conflict-retried steps, as functions of the store

  /** Finalizer removal with `attempts` tries left: re-fetch, confirm the
      pipeline is still pending deletion, strip the finalizer and write;
      only a conflict leads to another try. */
  function FinalizerRemoval(st: Snapshot, key: ObjectKey, attempts: nat): Snapshot
    decreases attempts
  {
    if attempts == 0 || key !in st.pipelines then st
    else
      var latest := st.pipelines[key];
      if !latest.meta.deleting then st
      else
        var w := PipelineWrite(st, WithoutFinalizer(latest));
        if w.err == Some(Conflict) then FinalizerRemoval(w.after, key, attempts - 1) else w.after
  }

  /** Status update with `attempts` tries left: re-fetch, fence on the
      generation, derive the conditions and write the status; only a conflict
      leads to another try. */
  function StatusUpdate(st: Snapshot, key: ObjectKey, meta: KubernetesMeta, state: PipelineVersionState, attempts: nat): Snapshot
    decreases attempts
  {
    if attempts == 0 || key !in st.pipelines then st
    else
      match FencedStatus(st.pipelines[key], meta, state)
      case None => st
      case Some(updated) =>
        var w := PipelineStatusWrite(st, updated);
        if w.err == Some(Conflict) then StatusUpdate(w.after, key, meta, state, attempts - 1) else w.after
  }

  /** The finalizer step: taken only when the fetched pipeline is pending
      deletion and the reported state permits removal. */
  function GatedFinalizerRemoval(st: Snapshot, key: ObjectKey, state: PipelineVersionState): Snapshot
  {
    if key in st.pipelines && st.pipelines[key].meta.deleting && CanRemovePipelineFinalizer(state.status)
    then FinalizerRemoval(st, key, DefaultRetrySteps)
    else st
  }

  /** The finalizer step followed by the status step. */
  function ReconcilePipeline(st: Snapshot, key: ObjectKey, meta: KubernetesMeta, state: PipelineVersionState): Snapshot
  {
    StatusUpdate(GatedFinalizerRemoval(st, key, state), key, meta, state, DefaultRetrySteps)
  }

  /** The store after one pipeline event. */
  function PipelineEventStep(st: Snapshot, ev: PipelineStatusEvent): Snapshot
  {
    if |ev.versions| != 1 then st
    else
      var pv := ev.versions[0];
      match pv.kubernetesMeta
      case None => st
      case Some(meta) =>
        var key := ObjectKey(meta.namespace, ev.pipelineName);
        if key !in st.pipelines then st
        else ReconcilePipeline(st, key, meta, pv.state)
  }

  /** The store after a sequence of pipeline events, in arrival order. */
  function PipelineEvents(st: Snapshot, evs: seq<PipelineStatusEvent>): Snapshot
    decreases |evs|
  {
    if evs == [] then st
    else PipelineEventStep(PipelineEvents(st, evs[..|evs| - 1]), evs[|evs| - 1])
  }

  // ---------------------------------------------------------------------------
  // The subscription loop

  method RemoveFinalizerWithRetry(store: Store, key: ObjectKey)
    modifies store
    ensures store.State() == FinalizerRemoval(old(store.State()), key, DefaultRetrySteps)
  {
    var attempts := DefaultRetrySteps;
    while attempts > 0
      invariant FinalizerRemoval(store.State(), key, attempts) == FinalizerRemoval(old(store.State()), key, DefaultRetrySteps)
      decreases attempts
    {
      var latest := store.GetPipeline(key);
      if latest.None? {
        return;
      }
      if !latest.value.meta.deleting {
        return;
      }
      var err := store.UpdatePipeline(WithoutFinalizer(latest.value));
      if err != Some(Conflict) {
        return;
      }
      attempts := attempts - 1;
    }
  }

  method UpdateStatusWithRetry(store: Store, key: ObjectKey, meta: KubernetesMeta, state: PipelineVersionState)
    modifies store
    ensures store.State() == StatusUpdate(old(store.State()), key, meta, state, DefaultRetrySteps)
  {
    var attempts := DefaultRetrySteps;
    while attempts > 0
      invariant StatusUpdate(store.State(), key, meta, state, attempts) == StatusUpdate(old(store.State()), key, meta, state, DefaultRetrySteps)
      decreases attempts
    {
      var current := store.GetPipeline(key);
      if current.None? {
        return;
      }
      var updated := FencedStatus(current.value, meta, state);
      if updated.None? {
        return;
      }
      var err := store.UpdatePipelineStatus(updated.value);
      if err != Some(Conflict) {
        return;
      }
      attempts := attempts - 1;
    }
  }

  /** One iteration of the subscription loop. */
  method HandlePipelineEvent(store: Store, ev: PipelineStatusEvent)
    modifies store
    ensures store.State() == PipelineEventStep(old(store.State()), ev)
  {
    if |ev.versions| != 1 {
      return;
    }
    var pv := ev.versions[0];
    if pv.kubernetesMeta.None? {
      return;
    }
    var meta := pv.kubernetesMeta.value;
    var key := ObjectKey(meta.namespace, ev.pipelineName);
    var pipeline := store.GetPipeline(key);
    if pipeline.None? {
      return;
    }
    if pipeline.value.meta.deleting && CanRemovePipelineFinalizer(pv.state.status) {
      RemoveFinalizerWithRetry(store, key);
    }
    UpdateStatusWithRetry(store, key, meta, pv.state);
  }

  /** Consumes the pipeline status stream; end-of-stream is a clean exit and
      any other receive error is returned. */
  method SubscribePipelineEvents(store: Store, sub: Subscription<PipelineStatusEvent>) returns (err: Option<Error>)
    modifies store
    ensures sub.SubscribeFailed? ==> err == Some(sub.err) && store.State() == old(store.State())
    ensures sub.Opened? ==> err == EndError(sub.end)
    ensures sub.Opened? ==> store.State() == PipelineEvents(old(store.State()), sub.events)
  {
    if sub.SubscribeFailed? {
      return Some(sub.err);
    }
    var i := 0;
    while i < |sub.events|
      invariant 0 <= i <= |sub.events|
      invariant store.State() == PipelineEvents(old(store.State()), sub.events[..i])
    {
      HandlePipelineEvent(store, sub.events[i]);
      assert sub.events[..i + 1][..i] == sub.events[..i];
      i := i + 1;
    }
    assert sub.events[..i] == sub.events;
    err := EndError(sub.end);
  }

  // ---------------------------------------------------------------------------
  // Properties

  /** The event is well formed and names the pipeline stored under `k`. */
  ghost predicate Targets(ev: PipelineStatusEvent, k: ObjectKey)
  {
    && |ev.versions| == 1
    && ev.versions[0].kubernetesMeta.Some?
    && k == ObjectKey(ev.versions[0].kubernetesMeta.value.namespace, ev.pipelineName)
  }

  /** `b` arises from `a` by status writes and by finalizer changes to records
      pending deletion, some of which may have been removed: no record appears,
      no metadata other than finalizers changes, and a record not pending
      deletion keeps all of its metadata. */
  ghost predicate PipelinesEvolve(a: map<ObjectKey, Pipeline>, b: map<ObjectKey, Pipeline>)
  {
    && b.Keys <= a.Keys
    && (forall k | k in b :: b[k].meta == a[k].meta.(finalizers := b[k].meta.finalizers))
    && (forall k | k in a && !a[k].meta.deleting :: k in b && b[k].meta == a[k].meta)
  }

  lemma PipelinesEvolveTrans(a: map<ObjectKey, Pipeline>, b: map<ObjectKey, Pipeline>, c: map<ObjectKey, Pipeline>)
    requires PipelinesEvolve(a, b) && PipelinesEvolve(b, c)
    ensures PipelinesEvolve(a, c)
  {
    forall k | k in c
      ensures c[k].meta == a[k].meta.(finalizers := c[k].meta.finalizers)
    {
      assert c[k].meta == b[k].meta.(finalizers := c[k].meta.finalizers);
    }
  }

  /** The record under one key before and after the client's writes: no
      record appears, only finalizers may change in the metadata, and a record
      not pending deletion keeps all of its metadata and is not removed. */
  ghost predicate RecordEvolves(before: Option<Pipeline>, after: Option<Pipeline>)
  {
    && (after.Some? ==> before.Some? && after.value.meta == before.value.meta.(finalizers := after.value.meta.finalizers))
    && (before.Some? && !before.value.meta.deleting ==> after.Some? && after.value.meta == before.value.meta)
  }

  /** The record under `key`, if any, is stored under its own name. */
  ghost predicate KeyedAt(st: Snapshot, key: ObjectKey)
  {
    key in st.pipelines ==> KeyOf(st.pipelines[key].meta) == key
  }

  /** A store that differs from a well-keyed store only by an evolution of the
      record under `key` is well keyed, evolves from it, and agrees with it on
      every other record. */
  lemma PutEvolves(st: Snapshot, r: Snapshot, key: ObjectKey)
    requires WellKeyed(st)
    requires r.servers == st.servers
    requires r.pipelines == PutPipeline(st.pipelines, key, LookupPipeline(r, key))
    requires RecordEvolves(LookupPipeline(st, key), LookupPipeline(r, key))
    ensures WellKeyed(r)
    ensures PipelinesEvolve(st.pipelines, r.pipelines)
    ensures forall k | k in st.pipelines && k != key :: k in r.pipelines && r.pipelines[k] == st.pipelines[k]
  {
  }

  /** One finalizer write for a pipeline pending deletion: a conflict leaves
      the records alone, and otherwise the record is kept, stripped of the
      finalizer, or removed. */
  lemma FinalizerWriteFrame(st: Snapshot, key: ObjectKey)
    requires KeyedAt(st, key) && key in st.pipelines && st.pipelines[key].meta.deleting
    ensures var w := PipelineWrite(st, WithoutFinalizer(st.pipelines[key]));
      var before := LookupPipeline(st, key);
      var after := LookupPipeline(w.after, key);
      && w.after.servers == st.servers
      && w.after.pipelines == PutPipeline(st.pipelines, key, after)
      && RecordEvolves(before, after)
      && (after.Some? ==> after.value.status == before.value.status)
      && (after != before ==> after.Some? ==> PipelineFinalizerName !in after.value.meta.finalizers)
      && (w.err == Some(Conflict) ==> w.after == st.(replies := LaterReplies(st.replies)))
      && Consumed(st.replies, w.after.replies, 1)
  {
    PutPipelineSame(st.pipelines, key);
    assert KeyOf(WithoutFinalizer(st.pipelines[key]).meta) == key;
  }

  /** Finalizer removal touches only the pipeline under `key`, keeps its
      status and everything in its metadata but the finalizers, changes it
      only when it is pending deletion and then leaves the finalizer out, and
      makes at most `attempts` writes. */
  lemma {:induction false} FinalizerRemovalFrame(st: Snapshot, key: ObjectKey, attempts: nat)
    requires KeyedAt(st, key)
    ensures var r := FinalizerRemoval(st, key, attempts);
      var before := LookupPipeline(st, key);
      var after := LookupPipeline(r, key);
      && r.servers == st.servers
      && r.pipelines == PutPipeline(st.pipelines, key, after)
      && RecordEvolves(before, after)
      && (after.Some? ==> after.value.status == before.value.status)
      && (after != before ==>
            && before.Some? && before.value.meta.deleting
            && (after.Some? ==> PipelineFinalizerName !in after.value.meta.finalizers))
      && Consumed(st.replies, r.replies, attempts)
    decreases attempts
  {
    PutPipelineSame(st.pipelines, key);
    if attempts == 0 || key !in st.pipelines {
      return;
    }
    var latest := st.pipelines[key];
    if !latest.meta.deleting {
      return;
    }
    var w := PipelineWrite(st, WithoutFinalizer(latest));
    FinalizerWriteFrame(st, key);
    if w.err == Some(Conflict) {
      FinalizerRemovalFrame(w.after, key, attempts - 1);
      ConsumedTrans(st.replies, w.after.replies, FinalizerRemoval(w.after, key, attempts - 1).replies, 1, attempts - 1);
    }
  }

  /** One status write of the fenced record for the current generation: a
      conflict leaves the records alone, and otherwise the record keeps its
      metadata and holds either its old status or the derived one. */
  lemma StatusWriteFrame(st: Snapshot, key: ObjectKey, meta: KubernetesMeta, state: PipelineVersionState)
    requires KeyedAt(st, key) && key in st.pipelines && meta.generation == st.pipelines[key].meta.generation
    ensures var w := PipelineStatusWrite(st, FencedStatus(st.pipelines[key], meta, state).value);
      var before := st.pipelines[key];
      && w.after.servers == st.servers
      && key in w.after.pipelines
      && w.after.pipelines == st.pipelines[key := w.after.pipelines[key]]
      && w.after.pipelines[key].meta == before.meta
      && (|| w.after.pipelines[key].status == before.status
          || w.after.pipelines[key].status == ApplyVersionState(before.status, state))
      && (w.err == Some(Conflict) ==> w.after == st.(replies := LaterReplies(st.replies)))
      && Consumed(st.replies, w.after.replies, 1)
  {
    assert st.pipelines[key := st.pipelines[key]] == st.pipelines;
  }

  /** The status update touches only the status of the pipeline under `key`,
      which afterwards is either unchanged or derived from the reported state
      for the current generation, and makes at most `attempts` writes. */
  lemma {:induction false} StatusUpdateFrame(st: Snapshot, key: ObjectKey, meta: KubernetesMeta, state: PipelineVersionState, attempts: nat)
    requires KeyedAt(st, key)
    ensures var r := StatusUpdate(st, key, meta, state, attempts);
      var before := LookupPipeline(st, key);
      var after := LookupPipeline(r, key);
      && r.servers == st.servers
      && r.pipelines == PutPipeline(st.pipelines, key, after)
      && after.Some? == before.Some?
      && (after.Some? ==>
            && after.value.meta == before.value.meta
            && (|| after.value.status == before.value.status
                || (&& meta.generation == before.value.meta.generation
                    && after.value.status == ApplyVersionState(before.value.status, state))))
      && Consumed(st.replies, r.replies, attempts)
    decreases attempts
  {
    PutPipelineSame(st.pipelines, key);
    if attempts == 0 || key !in st.pipelines {
      return;
    }
    var current := st.pipelines[key];
    match FencedStatus(current, meta, state)
    case None =>
    case Some(updated) =>
      var w := PipelineStatusWrite(st, updated);
      StatusWriteFrame(st, key, meta, state);
      if w.err == Some(Conflict) {
        StatusUpdateFrame(w.after, key, meta, state, attempts - 1);
        ConsumedTrans(st.replies, w.after.replies, StatusUpdate(w.after, key, meta, state, attempts - 1).replies, 1, attempts - 1);
      }
  }

  /** Generation fencing: a status report for another generation than the
      re-fetched pipeline's writes nothing. */
  lemma StaleStatusWritesNothing(st: Snapshot, key: ObjectKey, meta: KubernetesMeta, state: PipelineVersionState)
    requires key in st.pipelines && meta.generation != st.pipelines[key].meta.generation
    ensures StatusUpdate(st, key, meta, state, DefaultRetrySteps) == st
  {
  }

  /** A malformed event (not exactly one version, or a version without
      desired-state metadata) and an event for a pipeline the store does not
      hold are skipped without any write. */
  lemma SkippedPipelineEvents(st: Snapshot, ev: PipelineStatusEvent)
    requires
      || |ev.versions| != 1
      || ev.versions[0].kubernetesMeta.None?
      || ObjectKey(ev.versions[0].kubernetesMeta.value.namespace, ev.pipelineName) !in st.pipelines
    ensures PipelineEventStep(st, ev) == st
  {
  }

  /** The finalizer step changes the pipeline under `key` only when it is
      pending deletion and the reported state permits removal. */
  lemma GatedFinalizerRemovalFrame(st: Snapshot, key: ObjectKey, state: PipelineVersionState)
    requires KeyedAt(st, key)
    ensures var r := GatedFinalizerRemoval(st, key, state);
      var before := LookupPipeline(st, key);
      var after := LookupPipeline(r, key);
      && r.servers == st.servers
      && r.pipelines == PutPipeline(st.pipelines, key, after)
      && RecordEvolves(before, after)
      && (after.Some? ==> after.value.status == before.value.status)
      && (after != before ==>
            && before.Some? && before.value.meta.deleting
            && CanRemovePipelineFinalizer(state.status)
            && (after.Some? ==> PipelineFinalizerName !in after.value.meta.finalizers))
      && Consumed(st.replies, r.replies, DefaultRetrySteps)
  {
    PutPipelineSame(st.pipelines, key);
    FinalizerRemovalFrame(st, key, DefaultRetrySteps);
  }

  /** What reconciling the pipeline under `key` can do to the store: only that
      record changes, its status only by the derivation for the current
      generation, its finalizers only when it is pending deletion and the
      reported state permits removal, and then the finalizer is gone; no server
      is touched and at most twice the retry budget of writes is made. */
  lemma ReconcileFrame(st: Snapshot, key: ObjectKey, meta: KubernetesMeta, state: PipelineVersionState)
    requires KeyedAt(st, key)
    ensures var r := ReconcilePipeline(st, key, meta, state);
      var before := LookupPipeline(st, key);
      var after := LookupPipeline(r, key);
      && r.servers == st.servers
      && r.pipelines == PutPipeline(st.pipelines, key, after)
      && RecordEvolves(before, after)
      && (after.Some? ==>
            || after.value.status == before.value.status
            || (&& meta.generation == before.value.meta.generation
                && after.value.status == ApplyVersionState(before.value.status, state)))
      && (before.Some? && (after.None? || after.value.meta.finalizers != before.value.meta.finalizers) ==>
            && before.value.meta.deleting
            && CanRemovePipelineFinalizer(state.status)
            && (after.Some? ==> PipelineFinalizerName !in after.value.meta.finalizers))
      && Consumed(st.replies, r.replies, 2 * DefaultRetrySteps)
  {
    var cleared := GatedFinalizerRemoval(st, key, state);
    GatedFinalizerRemovalFrame(st, key, state);
    var mid := LookupPipeline(cleared, key);
    assert KeyedAt(cleared, key) by {
      if mid.Some? {
        assert KeyOf(mid.value.meta) == KeyOf(st.pipelines[key].meta);
      }
    }
    var r := StatusUpdate(cleared, key, meta, state, DefaultRetrySteps);
    StatusUpdateFrame(cleared, key, meta, state, DefaultRetrySteps);
    PutPipelineTwice(st.pipelines, key, mid, LookupPipeline(r, key));
    ConsumedTrans(st.replies, cleared.replies, r.replies, DefaultRetrySteps, DefaultRetrySteps);
  }

  /** What one event can do to the store: records no event names are left
      alone, statuses change only by the derivation for the current
      generation, finalizers change only for a pipeline pending deletion whose
      reported state permits removal, no server is touched, and at most twice
      the retry budget of writes is made. */
  lemma PipelineEventFrame(st: Snapshot, ev: PipelineStatusEvent)
    requires WellKeyed(st)
    ensures var r := PipelineEventStep(st, ev);
      && WellKeyed(r)
      && r.servers == st.servers
      && PipelinesEvolve(st.pipelines, r.pipelines)
      && (forall k | k in st.pipelines && !Targets(ev, k) :: k in r.pipelines && r.pipelines[k] == st.pipelines[k])
      && (forall k | k in r.pipelines ::
            || r.pipelines[k].status == st.pipelines[k].status
            || (&& Targets(ev, k)
                && ev.versions[0].kubernetesMeta.value.generation == st.pipelines[k].meta.generation
                && r.pipelines[k].status == ApplyVersionState(st.pipelines[k].status, ev.versions[0].state)))
      && (forall k | k in st.pipelines && (k !in r.pipelines || r.pipelines[k].meta.finalizers != st.pipelines[k].meta.finalizers) ::
            && Targets(ev, k)
            && st.pipelines[k].meta.deleting
            && CanRemovePipelineFinalizer(ev.versions[0].state.status)
            && (k in r.pipelines ==> PipelineFinalizerName !in r.pipelines[k].meta.finalizers))
      && Consumed(st.replies, r.replies, 2 * DefaultRetrySteps)
  {
    if |ev.versions| != 1 || ev.versions[0].kubernetesMeta.None? {
      return;
    }
    var pv := ev.versions[0];
    var meta := pv.kubernetesMeta.value;
    var key := ObjectKey(meta.namespace, ev.pipelineName);
    if key !in st.pipelines {
      return;
    }
    ReconcileFrame(st, key, meta, pv.state);
    PutEvolves(st, ReconcilePipeline(st, key, meta, pv.state), key);
    assert forall k :: Targets(ev, k) <==> k == key;
  }

  /** When the store accepts every write, a pipeline pending deletion whose
      reported state permits it loses the finalizer, or is removed. */
  lemma AcceptedFinalizerRemoval(st: Snapshot, key: ObjectKey, state: PipelineVersionState)
    requires KeyedAt(st, key) && AllAccepted(st.replies) && key in st.pipelines
    requires st.pipelines[key].meta.deleting && CanRemovePipelineFinalizer(state.status)
    ensures var r := GatedFinalizerRemoval(st, key, state);
      key !in r.pipelines || PipelineFinalizerName !in r.pipelines[key].meta.finalizers
  {
    assert NextReply(st.replies) == Accepted;
    assert KeyOf(WithoutFinalizer(st.pipelines[key]).meta) == key;
  }

  /** When the store accepts every write, a report for the current generation
      is written in one attempt: the stored status becomes the derived
      conditions and nothing else changes. */
  lemma AcceptedStatusUpdate(st: Snapshot, key: ObjectKey, meta: KubernetesMeta, state: PipelineVersionState)
    requires KeyedAt(st, key) && AllAccepted(st.replies) && key in st.pipelines
    requires meta.generation == st.pipelines[key].meta.generation
    ensures StatusUpdate(st, key, meta, state, DefaultRetrySteps) ==
      st.(pipelines := st.pipelines[key := st.pipelines[key].(status := ApplyVersionState(st.pipelines[key].status, state))],
          replies := LaterReplies(st.replies))
  {
    assert NextReply(st.replies) == Accepted;
  }

  /** When the store accepts every write: a pipeline pending deletion whose
      reported state permits it loses the finalizer (or is removed), and a
      report for the current generation sets Ready and ModelsReady. */
  lemma AcceptedReconcile(st: Snapshot, key: ObjectKey, meta: KubernetesMeta, state: PipelineVersionState)
    requires KeyedAt(st, key) && AllAccepted(st.replies) && key in st.pipelines
    ensures var r := ReconcilePipeline(st, key, meta, state);
      && (st.pipelines[key].meta.deleting && CanRemovePipelineFinalizer(state.status) ==>
            key !in r.pipelines || PipelineFinalizerName !in r.pipelines[key].meta.finalizers)
      && (key in r.pipelines && meta.generation == st.pipelines[key].meta.generation ==>
            r.pipelines[key].status == ApplyVersionState(st.pipelines[key].status, state))
  {
    var p := st.pipelines[key];
    var cleared := GatedFinalizerRemoval(st, key, state);
    GatedFinalizerRemovalFrame(st, key, state);
    if p.meta.deleting && CanRemovePipelineFinalizer(state.status) {
      AcceptedFinalizerRemoval(st, key, state);
    }
    var mid := LookupPipeline(cleared, key);
    assert KeyedAt(cleared, key) by {
      if mid.Some? {
        assert KeyOf(mid.value.meta) == KeyOf(p.meta);
      }
    }
    StatusUpdateFrame(cleared, key, meta, state, DefaultRetrySteps);
    if mid.Some? && meta.generation == p.meta.generation {
      assert AllAccepted(cleared.replies) by {
        assert cleared.replies == st.replies[|st.replies| - |cleared.replies|..];
      }
      AcceptedStatusUpdate(cleared, key, meta, state);
    }
  }

  /** The same for a whole event. */
  lemma AcceptedPipelineEvent(st: Snapshot, ev: PipelineStatusEvent, key: ObjectKey)
    requires WellKeyed(st) && AllAccepted(st.replies)
    requires Targets(ev, key) && key in st.pipelines
    ensures var r := PipelineEventStep(st, ev);
      && (st.pipelines[key].meta.deleting && CanRemovePipelineFinalizer(ev.versions[0].state.status) ==>
            key !in r.pipelines || PipelineFinalizerName !in r.pipelines[key].meta.finalizers)
      && (key in r.pipelines && ev.versions[0].kubernetesMeta.value.generation == st.pipelines[key].meta.generation ==>
            r.pipelines[key].status == ApplyVersionState(st.pipelines[key].status, ev.versions[0].state))
  {
    AcceptedReconcile(st, key, ev.versions[0].kubernetesMeta.value, ev.versions[0].state);
  }

  /** Generation fencing for a whole event: a report for another generation
      than the stored pipeline's leaves every pipeline status as it was. */
  lemma StalePipelineEventKeepsStatus(st: Snapshot, ev: PipelineStatusEvent, key: ObjectKey)
    requires WellKeyed(st)
    requires Targets(ev, key) && key in st.pipelines
    requires ev.versions[0].kubernetesMeta.value.generation != st.pipelines[key].meta.generation
    ensures var r := PipelineEventStep(st, ev);
      forall k | k in r.pipelines :: k in st.pipelines && r.pipelines[k].status == st.pipelines[k].status
  {
    PipelineEventFrame(st, ev);
  }

  /** Over a whole stream, no pipeline appears, no metadata but finalizers
      changes, a pipeline not pending deletion keeps its finalizers, and no
      server is touched. */
  lemma {:induction false} PipelineStreamEvolves(st: Snapshot, evs: seq<PipelineStatusEvent>)
    requires WellKeyed(st)
    ensures var r := PipelineEvents(st, evs);
      WellKeyed(r) && r.servers == st.servers && PipelinesEvolve(st.pipelines, r.pipelines)
    decreases |evs|
  {
    if evs != [] {
      var mid := PipelineEvents(st, evs[..|evs| - 1]);
      PipelineStreamEvolves(st, evs[..|evs| - 1]);
      PipelineEventFrame(mid, evs[|evs| - 1]);
      PipelinesEvolveTrans(st.pipelines, mid.pipelines, PipelineEvents(st, evs).pipelines);
    }
  }

  /** Over a whole stream, a pipeline that no event names is left exactly as
      it was. */
  lemma {:induction false} UnnamedPipelineUntouched(st: Snapshot, evs: seq<PipelineStatusEvent>, k: ObjectKey)
    requires WellKeyed(st) && k in st.pipelines
    requires forall i | 0 <= i < |evs| :: !Targets(evs[i], k)
    ensures k in PipelineEvents(st, evs).pipelines && PipelineEvents(st, evs).pipelines[k] == st.pipelines[k]
    decreases |evs|
  {
    if evs != [] {
      var init := evs[..|evs| - 1];
      UnnamedPipelineUntouched(st, init, k);
      PipelineStreamEvolves(st, init);
      PipelineEventFrame(PipelineEvents(st, init), evs[|evs| - 1]);
    }
  }
}
