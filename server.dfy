/** The server half of the scheduler client: the notify request announcing the
    desired servers to the scheduler, and the server status subscription that
    copies replica counts into the stored status and classifies how many
    replicas are connected to the control plane. */
module ServerSync {
  import opened Kube
  import opened SchedulerApi
  import opened DesiredState
  import opened Decimal

  const AllConnectedMessage: string := "All replicas connected to control plane"
  const NoReplicasMessage: string := "This server has no replicas"
  const CountSuffix: string := " replicas available"

  // ---------------------------------------------------------------------------
  // Notify

  /** The replica count announced for a server: none while it is being
      deleted, else the one its spec asks for, else one. */
  function ExpectedReplicas(s: Server): (r: int)
    ensures s.meta.deleting ==> r == 0
    ensures !s.meta.deleting && s.spec.replicas.Some? ==> r == s.spec.replicas.value
    ensures !s.meta.deleting && s.spec.replicas.None? ==> r == 1
  {
    if s.meta.deleting then 0
    else match s.spec.replicas
      case Some(n) => n
      case None => 1
  }

  /** The notify entry announcing `s`. */
  function NotifyEntry(s: Server): (e: ServerNotifyEntry)
    ensures Announces(e, s)
  {
    ServerNotifyEntry(s.meta.name, ExpectedReplicas(s), KubernetesMeta(s.meta.namespace, s.meta.generation))
  }

  /** `e` announces `s`: its name, namespace, generation and replica count. */
  predicate Announces(e: ServerNotifyEntry, s: Server)
  {
    && e.name == s.meta.name
    && e.kubernetesMeta.namespace == s.meta.namespace
    && e.kubernetesMeta.generation == s.meta.generation
    && e.expectedReplicas == ExpectedReplicas(s)
  }

  /** What a notify did: the error it returned, the namespace whose connection
      it asked for, and the request it sent. */
  datatype NotifyOutcome = NotifyOutcome(err: Option<Error>, connectedTo: Option<string>, sent: Option<ServerNotifyRequest>)

  /** Announces `servers` to the scheduler. Without a client of its own the
      call asks for the connection of the first server's namespace, and `conn`
      is what it gets; `rpcErr` is the error the scheduler call returns. */
  method ServerNotify(servers: seq<Server>, hasClient: bool, conn: ConnOutcome, rpcErr: Option<Error>, isFirstSync: bool)
    returns (out: NotifyOutcome)
    ensures servers == [] ==> out == NotifyOutcome(None, None, None)
    ensures servers != [] && !hasClient ==> out.connectedTo == Some(servers[0].meta.namespace)
    ensures hasClient ==> out.connectedTo.None?
    ensures servers != [] && !hasClient && conn.ConnectFailed? ==> out.err == Some(conn.err) && out.sent.None?
    ensures servers != [] && (hasClient || conn.Connected?) ==>
      && out.err == rpcErr
      && out.sent.Some?
      && out.sent.value.isFirstSync == isFirstSync
      && |out.sent.value.servers| == |servers|
      && (forall i | 0 <= i < |servers| :: Announces(out.sent.value.servers[i], servers[i]))
  {
    if servers == [] {
      return NotifyOutcome(None, None, None);
    }
    var connectedTo := None;
    if !hasClient {
      connectedTo := Some(servers[0].meta.namespace);
      if conn.ConnectFailed? {
        return NotifyOutcome(Some(conn.err), connectedTo, None);
      }
    }
    var requests: seq<ServerNotifyEntry> := [];
    for i := 0 to |servers|
      invariant |requests| == i
      invariant forall j | 0 <= j < i :: Announces(requests[j], servers[j])
    {
      requests := requests + [NotifyEntry(servers[i])];
    }
    var request := ServerNotifyRequest(requests, isFirstSync);
    out := NotifyOutcome(rpcErr, connectedTo, Some(request));
  }

  // ---------------------------------------------------------------------------
  // Connectivity classification

  datatype ReplicaConnectionStatus = NoReplicasConnected | AllReplicasConnected | SomeReplicasConnected

  function ReasonName(t: ReplicaConnectionStatus): string
  {
    match t
    case NoReplicasConnected => "NoReplicasConnected"
    case AllReplicasConnected => "AllReplicasConnected"
    case SomeReplicasConnected => "SomeReplicasConnected"
  }

  /** The message reporting how many of the expected replicas are available. */
  function CountMessage(available: int, expected: int): string
  {
    FormatInt(available) + "/" + FormatInt(expected) + CountSuffix
  }

  /** Position of the first `c` in `s`, or `|s|` when there is none. */
  function IndexOf(s: string, c: char): (i: nat)
    ensures i <= |s|
    ensures forall j | 0 <= j < i :: s[j] != c
    ensures i < |s| ==> s[i] == c
    decreases |s|
  {
    if s == [] || s[0] == c then 0 else 1 + IndexOf(s[1..], c)
  }

  datatype Counts = Counts(available: int, expected: int)

  /** Reads the two counts back from a count message. */
  function ParseCountMessage(m: string): Option<Counts>
  {
    if |m| < |CountSuffix| || m[|m| - |CountSuffix|..] != CountSuffix then None
    else
      var body := m[..|m| - |CountSuffix|];
      var i := IndexOf(body, '/');
      if i == |body| then None
      else
        match (ParseInt(body[..i]), ParseInt(body[i + 1..]))
        case (Some(a), Some(e)) => Some(Counts(a, e))
        case _ => None
  }

  /** The count message loses nothing: both counts can be read back from it. */
  lemma CountMessageRoundTrip(available: int, expected: int)
    ensures ParseCountMessage(CountMessage(available, expected)) == Some(Counts(available, expected))
  {
    var a := FormatInt(available);
    var e := FormatInt(expected);
    var m := CountMessage(available, expected);
    var body := a + "/" + e;
    assert m == body + CountSuffix;
    assert m[|m| - |CountSuffix|..] == CountSuffix;
    assert m[..|m| - |CountSuffix|] == body;
    var i := IndexOf(body, '/');
    assert body[|a|] == '/';
    assert i == |a|;
    assert body[..i] == a;
    assert body[i + 1..] == e;
    ParseFormatInt(available);
    ParseFormatInt(expected);
  }

  /** The control-plane connectivity condition for a server whose status counts
      `statusReplicas` replicas, when `available` of them are connected and the
      scheduler expects `expected`. */
  function ConnectionCondition(available: int, expected: int, minReplicas: Option<int>, statusReplicas: int): (c: Condition)
    ensures statusReplicas == 0 ==> c.status
    ensures statusReplicas == 0 && available >= 0 ==>
      c.reason == ReasonName(NoReplicasConnected) && c.message == NoReplicasMessage
    ensures statusReplicas != 0 && available >= statusReplicas ==>
      c == Condition(true, ReasonName(AllReplicasConnected), AllConnectedMessage)
    ensures available < statusReplicas ==>
      c.reason == ReasonName(SomeReplicasConnected) && c.message == CountMessage(available, expected)
    ensures statusReplicas != 0 && available < statusReplicas ==>
      (c.status <==> minReplicas.Some? && available >= minReplicas.value)
  {
    var atLeastMinConnected := minReplicas.Some? && available >= minReplicas.value;
    var allConnected := available >= statusReplicas;
    var kind :=
      if !allConnected then SomeReplicasConnected
      else if statusReplicas != 0 then AllReplicasConnected
      else NoReplicasConnected;
    var message :=
      match kind
      case SomeReplicasConnected => CountMessage(available, expected)
      case AllReplicasConnected => AllConnectedMessage
      case NoReplicasConnected => NoReplicasMessage;
    var status := if statusReplicas != 0 then atLeastMinConnected || allConnected else true;
    Condition(status, ReasonName(kind), message)
  }

  /** Two of five replicas required, three connected: the condition holds. */
  lemma MinReplicasSuffice()
    ensures ConnectionCondition(3, 5, Some(2), 5) ==
      Condition(true, ReasonName(SomeReplicasConnected), "3/5 replicas available")
  {
    assert FormatInt(3) == "3" && FormatInt(5) == "5";
  }

  // ---------------------------------------------------------------------------
  // One server event

  /** The server's status after an event: the counts are copied from the event
      and the connectivity condition is set; nothing else changes. */
  function ApplyServerEvent(s: Server, ev: ServerStatusEvent): (r: Server)
    ensures r.meta == s.meta && r.spec == s.spec
    ensures r.status.replicas == s.status.replicas
    ensures r.status.loadedModelReplicas == ev.numLoadedModelReplicas
    ensures r.status.replicasConnectedToControlPlane == ev.availableReplicas
    ensures r.status.conditions.Keys == s.status.conditions.Keys + {ControlPlaneConnectionsReadyCondition}
    ensures r.status.conditions[ControlPlaneConnectionsReadyCondition] ==
      ConnectionCondition(ev.availableReplicas, ev.expectedReplicas, s.spec.minReplicas, s.status.replicas)
    ensures forall t | t in s.status.conditions && t != ControlPlaneConnectionsReadyCondition ::
      r.status.conditions[t] == s.status.conditions[t]
  {
    var c := ConnectionCondition(ev.availableReplicas, ev.expectedReplicas, s.spec.minReplicas, s.status.replicas);
    var status := s.status.(
      loadedModelReplicas := ev.numLoadedModelReplicas,
      replicasConnectedToControlPlane := ev.availableReplicas,
      conditions := SetCondition(s.status.conditions, ControlPlaneConnectionsReadyCondition, c));
    s.(status := status)
  }

  /** Whether an event is for the current generation of `s`; an event without
      desired-state metadata is not fenced. */
  predicate CurrentGeneration(s: Server, ev: ServerStatusEvent)
  {
    ev.kubernetesMeta.None? || ev.kubernetesMeta.value.generation == s.meta.generation
  }

  /** The record one run of the status closure writes back for the re-fetched
      `current`: none for an event of another generation. */
  function FencedServerStatus(current: Server, ev: ServerStatusEvent): (r: Option<Server>)
    ensures r.None? <==> !CurrentGeneration(current, ev)
    ensures r.Some? ==> r.value == ApplyServerEvent(current, ev)
  {
    if !CurrentGeneration(current, ev) then None else Some(ApplyServerEvent(current, ev))
  }

  /** The store key an event is for; an event without desired-state metadata
      is taken to be for the subscription's namespace. */
  function ServerEventKey(ev: ServerStatusEvent, namespace: string): (k: ObjectKey)
    ensures k.name == ev.serverName
    ensures ev.kubernetesMeta.Some? ==> k.namespace == ev.kubernetesMeta.value.namespace
    ensures ev.kubernetesMeta.None? ==> k.namespace == namespace
  {
    match ev.kubernetesMeta
    case Some(meta) => ObjectKey(meta.namespace, ev.serverName)
    case None => ObjectKey(namespace, ev.serverName)
  }

  /** The conflict-retried status update with `attempts` tries left. */
  function ServerStatusRetry(st: Snapshot, key: ObjectKey, ev: ServerStatusEvent, attempts: nat): Snapshot
    decreases attempts
  {
    if attempts == 0 || key !in st.servers then st
    else
      match FencedServerStatus(st.servers[key], ev)
      case None => st
      case Some(updated) =>
        var w := ServerStatusWrite(st, updated);
        if w.err == Some(Conflict) then ServerStatusRetry(w.after, key, ev, attempts - 1) else w.after
  }

  /** The store after one server event; an event for a server the store does
      not hold is skipped. */
  function ServerEventStep(st: Snapshot, namespace: string, ev: ServerStatusEvent): Snapshot
  {
    var key := ServerEventKey(ev, namespace);
    if key !in st.servers then st else ServerStatusRetry(st, key, ev, DefaultRetrySteps)
  }

  /** The store after a sequence of server events, in arrival order. */
  function ServerEvents(st: Snapshot, namespace: string, evs: seq<ServerStatusEvent>): Snapshot
    decreases |evs|
  {
    if evs == [] then st
    else ServerEventStep(ServerEvents(st, namespace, evs[..|evs| - 1]), namespace, evs[|evs| - 1])
  }

  // ---------------------------------------------------------------------------
  // The subscription loop

  method UpdateServerStatusWithRetry(store: Store, key: ObjectKey, ev: ServerStatusEvent)
    modifies store
    ensures store.State() == ServerStatusRetry(old(store.State()), key, ev, DefaultRetrySteps)
  {
    var attempts := DefaultRetrySteps;
    while attempts > 0
      invariant ServerStatusRetry(store.State(), key, ev, attempts) == ServerStatusRetry(old(store.State()), key, ev, DefaultRetrySteps)
      decreases attempts
    {
      var current := store.GetServer(key);
      if current.None? {
        return;
      }
      var updated := FencedServerStatus(current.value, ev);
      if updated.None? {
        return;
      }
      var err := store.UpdateServerStatus(updated.value);
      if err != Some(Conflict) {
        return;
      }
      attempts := attempts - 1;
    }
  }

  /** One iteration of the subscription loop. */
  method HandleServerEvent(store: Store, namespace: string, ev: ServerStatusEvent)
    modifies store
    ensures store.State() == ServerEventStep(old(store.State()), namespace, ev)
  {
    var key := ServerEventKey(ev, namespace);
    var server := store.GetServer(key);
    if server.None? {
      return;
    }
    UpdateServerStatusWithRetry(store, key, ev);
  }

  /** Consumes the server status stream; end-of-stream is a clean exit and any
      other receive error is returned. */
  method SubscribeServerEvents(store: Store, namespace: string, sub: Subscription<ServerStatusEvent>) returns (err: Option<Error>)
    modifies store
    ensures sub.SubscribeFailed? ==> err == Some(sub.err) && store.State() == old(store.State())
    ensures sub.Opened? ==> err == EndError(sub.end)
    ensures sub.Opened? ==> store.State() == ServerEvents(old(store.State()), namespace, sub.events)
  {
    if sub.SubscribeFailed? {
      return Some(sub.err);
    }
    var i := 0;
    while i < |sub.events|
      invariant 0 <= i <= |sub.events|
      invariant store.State() == ServerEvents(old(store.State()), namespace, sub.events[..i])
    {
      HandleServerEvent(store, namespace, sub.events[i]);
      assert sub.events[..i + 1][..i] == sub.events[..i];
      i := i + 1;
    }
    assert sub.events[..i] == sub.events;
    err := EndError(sub.end);
  }

  // ---------------------------------------------------------------------------
  // Properties

  /** The server under `key`, if any, is stored under its own name. */
  ghost predicate ServerKeyedAt(st: Snapshot, key: ObjectKey)
  {
    key in st.servers ==> KeyOf(st.servers[key].meta) == key
  }

  /** `b` arises from `a` by status writes alone: the same servers, each with
      its metadata and spec. */
  ghost predicate ServersEvolve(a: map<ObjectKey, Server>, b: map<ObjectKey, Server>)
  {
    && b.Keys == a.Keys
    && (forall k | k in a :: b[k].meta == a[k].meta && b[k].spec == a[k].spec)
  }

  /** One status write of the server under `key` for the current generation. */
  lemma ServerWriteFrame(st: Snapshot, key: ObjectKey, ev: ServerStatusEvent)
    requires ServerKeyedAt(st, key) && key in st.servers && CurrentGeneration(st.servers[key], ev)
    ensures var w := ServerStatusWrite(st, ApplyServerEvent(st.servers[key], ev));
      var before := st.servers[key];
      && w.after.pipelines == st.pipelines
      && key in w.after.servers
      && w.after.servers == st.servers[key := w.after.servers[key]]
      && w.after.servers[key].meta == before.meta
      && w.after.servers[key].spec == before.spec
      && (|| w.after.servers[key].status == before.status
          || w.after.servers[key].status == ApplyServerEvent(before, ev).status)
      && (w.err == Some(Conflict) ==> w.after == st.(replies := LaterReplies(st.replies)))
      && Consumed(st.replies, w.after.replies, 1)
  {
    assert st.servers[key := st.servers[key]] == st.servers;
  }

  /** The status update touches only the status of the server under `key`
      and makes at most `attempts` writes. */
  lemma {:induction false} ServerStatusRetryFrame(st: Snapshot, key: ObjectKey, ev: ServerStatusEvent, attempts: nat)
    requires ServerKeyedAt(st, key)
    ensures var r := ServerStatusRetry(st, key, ev, attempts);
      && r.pipelines == st.pipelines
      && (key !in st.servers ==> r.servers == st.servers)
      && (key in st.servers ==>
            && key in r.servers
            && r.servers == st.servers[key := r.servers[key]]
            && r.servers[key].meta == st.servers[key].meta
            && r.servers[key].spec == st.servers[key].spec)
      && Consumed(st.replies, r.replies, attempts)
    decreases attempts
  {
    if attempts == 0 || key !in st.servers {
      if key in st.servers {
        assert st.servers[key := st.servers[key]] == st.servers;
      }
      return;
    }
    match FencedServerStatus(st.servers[key], ev)
    case None =>
      assert st.servers[key := st.servers[key]] == st.servers;
    case Some(updated) =>
      var w := ServerStatusWrite(st, updated);
      ServerWriteFrame(st, key, ev);
      if w.err == Some(Conflict) {
        ServerStatusRetryFrame(w.after, key, ev, attempts - 1);
        ConsumedTrans(st.replies, w.after.replies, ServerStatusRetry(w.after, key, ev, attempts - 1).replies, 1, attempts - 1);
      }
  }

  /** Afterwards the status of the server under `key` is either unchanged or
      the event applied to it, and the latter only for an event of its
      current generation. */
  lemma {:induction false} ServerStatusRetryResult(st: Snapshot, key: ObjectKey, ev: ServerStatusEvent, attempts: nat)
    requires ServerKeyedAt(st, key) && key in st.servers
    ensures var r := ServerStatusRetry(st, key, ev, attempts);
      && key in r.servers
      && (|| r.servers[key].status == st.servers[key].status
          || (&& CurrentGeneration(st.servers[key], ev)
              && r.servers[key].status == ApplyServerEvent(st.servers[key], ev).status))
    decreases attempts
  {
    if attempts == 0 {
      return;
    }
    match FencedServerStatus(st.servers[key], ev)
    case None =>
    case Some(updated) =>
      var w := ServerStatusWrite(st, updated);
      ServerWriteFrame(st, key, ev);
      if w.err == Some(Conflict) {
        ServerStatusRetryResult(w.after, key, ev, attempts - 1);
      }
  }

  /** An event for a server the store does not hold is skipped without any
      write. */
  lemma MissingServerSkipped(st: Snapshot, namespace: string, ev: ServerStatusEvent)
    requires ServerEventKey(ev, namespace) !in st.servers
    ensures ServerEventStep(st, namespace, ev) == st
  {
  }

  /** Generation fencing: an event carrying another generation than the stored
      server's writes nothing. */
  lemma StaleServerEventIgnored(st: Snapshot, namespace: string, ev: ServerStatusEvent)
    requires ServerEventKey(ev, namespace) in st.servers
    requires ev.kubernetesMeta.Some?
    requires ev.kubernetesMeta.value.generation != st.servers[ServerEventKey(ev, namespace)].meta.generation
    ensures ServerEventStep(st, namespace, ev) == st
  {
  }

  /** When the store accepts the write, an event for the current generation
      (or one without desired-state metadata, whose server is looked up in the
      subscription's namespace) is applied in one write and nothing else
      changes. */
  lemma AcceptedServerEvent(st: Snapshot, namespace: string, ev: ServerStatusEvent)
    requires ServerKeyedAt(st, ServerEventKey(ev, namespace))
    requires NextReply(st.replies) == Accepted
    requires ServerEventKey(ev, namespace) in st.servers
    requires CurrentGeneration(st.servers[ServerEventKey(ev, namespace)], ev)
    ensures var key := ServerEventKey(ev, namespace);
      ServerEventStep(st, namespace, ev) ==
        st.(servers := st.servers[key := ApplyServerEvent(st.servers[key], ev)], replies := LaterReplies(st.replies))
  {
  }

  /** What one event can do to the store: pipelines are not touched, servers
      keep their metadata and spec, only the server the event is for may get a
      new status, and at most the retry budget of writes is made. */
  lemma ServerEventFrame(st: Snapshot, namespace: string, ev: ServerStatusEvent)
    requires WellKeyed(st)
    ensures var r := ServerEventStep(st, namespace, ev);
      && WellKeyed(r)
      && r.pipelines == st.pipelines
      && ServersEvolve(st.servers, r.servers)
      && (forall k | k in st.servers && k != ServerEventKey(ev, namespace) :: r.servers[k] == st.servers[k])
      && Consumed(st.replies, r.replies, DefaultRetrySteps)
  {
    var key := ServerEventKey(ev, namespace);
    if key in st.servers {
      ServerStatusRetryFrame(st, key, ev, DefaultRetrySteps);
    }
  }

  /** Over a whole stream, no pipeline is touched and every server keeps its
      metadata and spec. */
  lemma {:induction false} ServerStreamEvolves(st: Snapshot, namespace: string, evs: seq<ServerStatusEvent>)
    requires WellKeyed(st)
    ensures var r := ServerEvents(st, namespace, evs);
      WellKeyed(r) && r.pipelines == st.pipelines && ServersEvolve(st.servers, r.servers)
    decreases |evs|
  {
    if evs != [] {
      var mid := ServerEvents(st, namespace, evs[..|evs| - 1]);
      ServerStreamEvolves(st, namespace, evs[..|evs| - 1]);
      ServerEventFrame(mid, namespace, evs[|evs| - 1]);
    }
  }

  /** Over a whole stream, a server that no event is for is left exactly as it
      was. */
  lemma {:induction false} UnnamedServerUntouched(st: Snapshot, namespace: string, evs: seq<ServerStatusEvent>, k: ObjectKey)
    requires WellKeyed(st) && k in st.servers
    requires forall i | 0 <= i < |evs| :: ServerEventKey(evs[i], namespace) != k
    ensures k in ServerEvents(st, namespace, evs).servers
    ensures ServerEvents(st, namespace, evs).servers[k] == st.servers[k]
    decreases |evs|
  {
    if evs != [] {
      var init := evs[..|evs| - 1];
      UnnamedServerUntouched(st, namespace, init, k);
      ServerStreamEvolves(st, namespace, init);
      ServerEventFrame(ServerEvents(st, namespace, init), namespace, evs[|evs| - 1]);
    }
  }
}
