/** The desired-state store as the scheduler client sees it: Pipeline and Server
    records keyed by namespaced name, read with `Get`, written with `Update`
    (metadata) and `Status().Update` (status only). Whether a write is accepted
    depends on concurrent writers that are not modelled; the store's answers to
    successive writes are therefore part of its state (`replies`). */
module DesiredState {
  import opened Kube

  datatype Pipeline = Pipeline(meta: ObjectMeta, status: Conditions)

  /** `replicas` and `minReplicas` are absent when the spec leaves them unset. */
  datatype ServerSpec = ServerSpec(replicas: Option<int>, minReplicas: Option<int>)

  datatype ServerStatus = ServerStatus(
    replicas: int,
    loadedModelReplicas: int,
    replicasConnectedToControlPlane: int,
    conditions: Conditions)

  datatype Server = Server(meta: ObjectMeta, spec: ServerSpec, status: ServerStatus)

  /** The store's answer to one write. */
  datatype WriteReply = Accepted | Rejected(err: Error)

  /** The whole store, with the answers it will give to the coming writes;
      once those run out, every further write is accepted. */
  datatype Snapshot = Snapshot(
    pipelines: map<ObjectKey, Pipeline>,
    servers: map<ObjectKey, Server>,
    replies: seq<WriteReply>)

  /** A store after one write, with the error the write returned. */
  datatype Written = Written(after: Snapshot, err: Option<Error>)

  /** Attempts made by the conflict-retry helper with its default backoff. */
  const DefaultRetrySteps: nat := 5

  function NextReply(replies: seq<WriteReply>): WriteReply
  {
    if replies == [] then Accepted else replies[0]
  }

  function LaterReplies(replies: seq<WriteReply>): (r: seq<WriteReply>)
    ensures |r| <= |replies| && r == replies[|replies| - |r|..]
    ensures replies != [] ==> |r| == |replies| - 1
  {
    if replies == [] then [] else replies[1..]
  }

  /** `after` is what is left of the answers `before` once at most `n` writes
      have consumed theirs. */
  ghost predicate Consumed(before: seq<WriteReply>, after: seq<WriteReply>, n: nat)
  {
    |after| <= |before| <= |after| + n && after == before[|before| - |after|..]
  }

  lemma ConsumedTrans(a: seq<WriteReply>, b: seq<WriteReply>, c: seq<WriteReply>, m: nat, n: nat)
    requires Consumed(a, b, m) && Consumed(b, c, n)
    ensures Consumed(a, c, m + n)
  {
    assert c == a[|a| - |b|..][|b| - |c|..];
  }

  /** The store accepts every coming write. */
  ghost predicate AllAccepted(replies: seq<WriteReply>)
  {
    forall i | 0 <= i < |replies| :: replies[i] == Accepted
  }

  /** Every record is stored under its own name and namespace. */
  ghost predicate WellKeyed(st: Snapshot)
  {
    && (forall k | k in st.pipelines :: KeyOf(st.pipelines[k].meta) == k)
    && (forall k | k in st.servers :: KeyOf(st.servers[k].meta) == k)
  }

  function LookupPipeline(st: Snapshot, key: ObjectKey): Option<Pipeline>
  {
    if key in st.pipelines then Some(st.pipelines[key]) else None
  }

  /** The pipelines with the record under `key` replaced by `o`, or taken out
      when `o` is absent. */
  function PutPipeline(m: map<ObjectKey, Pipeline>, key: ObjectKey, o: Option<Pipeline>): map<ObjectKey, Pipeline>
  {
    match o
    case None => m - {key}
    case Some(p) => m[key := p]
  }

  /** Putting the record that is already there changes nothing. */
  lemma PutPipelineSame(m: map<ObjectKey, Pipeline>, key: ObjectKey)
    ensures PutPipeline(m, key, if key in m then Some(m[key]) else None) == m
  {
    if key in m {
      assert m[key := m[key]] == m;
    } else {
      assert m - {key} == m;
    }
  }

  /** A second put under the same key overrides the first. */
  lemma PutPipelineTwice(m: map<ObjectKey, Pipeline>, key: ObjectKey, o1: Option<Pipeline>, o2: Option<Pipeline>)
    ensures PutPipeline(PutPipeline(m, key, o1), key, o2) == PutPipeline(m, key, o2)
  {
  }

  /** `Update` of a pipeline. Of the metadata modelled here only the finalizers
      are writable; a record pending deletion that is left without finalizers
      is removed from the store. */
  function PipelineWrite(st: Snapshot, p: Pipeline): Written
  {
    var key := KeyOf(p.meta);
    if key !in st.pipelines then Written(st, Some(NotFound))
    else
      var rest := st.(replies := LaterReplies(st.replies));
      match NextReply(st.replies)
      case Rejected(e) => Written(rest, Some(e))
      case Accepted =>
        var stored := st.pipelines[key];
        if stored.meta.deleting && p.meta.finalizers == [] then
          Written(rest.(pipelines := st.pipelines - {key}), None)
        else
          Written(rest.(pipelines := st.pipelines[key := stored.(meta := stored.meta.(finalizers := p.meta.finalizers))]), None)
  }

  /** `Status().Update` of a pipeline: only the status is written. */
  function PipelineStatusWrite(st: Snapshot, p: Pipeline): Written
  {
    var key := KeyOf(p.meta);
    if key !in st.pipelines then Written(st, Some(NotFound))
    else
      var rest := st.(replies := LaterReplies(st.replies));
      match NextReply(st.replies)
      case Rejected(e) => Written(rest, Some(e))
      case Accepted =>
        Written(rest.(pipelines := st.pipelines[key := st.pipelines[key].(status := p.status)]), None)
  }

  /** `Status().Update` of a server: only the status is written. */
  function ServerStatusWrite(st: Snapshot, s: Server): Written
  {
    var key := KeyOf(s.meta);
    if key !in st.servers then Written(st, Some(NotFound))
    else
      var rest := st.(replies := LaterReplies(st.replies));
      match NextReply(st.replies)
      case Rejected(e) => Written(rest, Some(e))
      case Accepted =>
        Written(rest.(servers := st.servers[key := st.servers[key].(status := s.status)]), None)
  }

  /** The store client. */
  class Store {
    var pipelines: map<ObjectKey, Pipeline>
    var servers: map<ObjectKey, Server>
    var replies: seq<WriteReply>

    function State(): Snapshot
      reads this
    {
      Snapshot(pipelines, servers, replies)
    }

    constructor (initial: Snapshot)
      ensures State() == initial
    {
      pipelines := initial.pipelines;
      servers := initial.servers;
      replies := initial.replies;
    }

    method GetPipeline(key: ObjectKey) returns (r: Option<Pipeline>)
      ensures r.Some? <==> key in pipelines
      ensures r.Some? ==> r.value == pipelines[key]
    {
      if key in pipelines {
        r := Some(pipelines[key]);
      } else {
        r := None;
      }
    }

    method GetServer(key: ObjectKey) returns (r: Option<Server>)
      ensures r.Some? <==> key in servers
      ensures r.Some? ==> r.value == servers[key]
    {
      if key in servers {
        r := Some(servers[key]);
      } else {
        r := None;
      }
    }

    /** Consumes the store's answer to this write. */
    method TakeReply() returns (reply: WriteReply)
      modifies this
      ensures reply == NextReply(old(replies))
      ensures replies == LaterReplies(old(replies))
      ensures pipelines == old(pipelines) && servers == old(servers)
    {
      reply := NextReply(replies);
      replies := LaterReplies(replies);
    }

    method UpdatePipeline(p: Pipeline) returns (err: Option<Error>)
      modifies this
      ensures Written(State(), err) == PipelineWrite(old(State()), p)
    {
      var key := KeyOf(p.meta);
      if key !in pipelines {
        return Some(NotFound);
      }
      var reply := TakeReply();
      if reply.Rejected? {
        return Some(reply.err);
      }
      var stored := pipelines[key];
      if stored.meta.deleting && p.meta.finalizers == [] {
        pipelines := pipelines - {key};
      } else {
        pipelines := pipelines[key := stored.(meta := stored.meta.(finalizers := p.meta.finalizers))];
      }
      err := None;
    }

    method UpdatePipelineStatus(p: Pipeline) returns (err: Option<Error>)
      modifies this
      ensures Written(State(), err) == PipelineStatusWrite(old(State()), p)
    {
      var key := KeyOf(p.meta);
      if key !in pipelines {
        return Some(NotFound);
      }
      var reply := TakeReply();
      if reply.Rejected? {
        return Some(reply.err);
      }
      pipelines := pipelines[key := pipelines[key].(status := p.status)];
      err := None;
    }

    method UpdateServerStatus(s: Server) returns (err: Option<Error>)
      modifies this
      ensures Written(State(), err) == ServerStatusWrite(old(State()), s)
    {
      var key := KeyOf(s.meta);
      if key !in servers {
        return Some(NotFound);
      }
      var reply := TakeReply();
      if reply.Rejected? {
        return Some(reply.err);
      }
      servers := servers[key := servers[key].(status := s.status)];
      err := None;
    }
  }
}
