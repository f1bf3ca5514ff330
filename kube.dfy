/** Vocabulary of the desired-state store shared by Pipeline and Server records:
    object identity and metadata, status conditions, finalizer tokens. */
module Kube {

  datatype Option<T> = None | Some(value: T)

  /** Errors reported by the store or by the scheduler connection. */
  datatype Error = NotFound | Conflict | Failed(message: string)

  /** Namespaced name under which the store keeps a record. */
  datatype ObjectKey = ObjectKey(namespace: string, name: string)

  /** The part of a record's metadata the scheduler client looks at.
      `deleting` stands for a non-zero deletion timestamp. */
  datatype ObjectMeta = ObjectMeta(
    name: string,
    namespace: string,
    generation: int,
    deleting: bool,
    finalizers: seq<string>)

  function KeyOf(m: ObjectMeta): ObjectKey
  {
    ObjectKey(m.namespace, m.name)
  }

  datatype ConditionType =
    | PipelineReadyCondition
    | ModelsReadyCondition
    | ControlPlaneConnectionsReadyCondition

  datatype Condition = Condition(status: bool, reason: string, message: string)

  /** A status holds at most one condition per condition type. */
  type Conditions = map<ConditionType, Condition>

  /** Creates the condition of type `t`, or replaces the one already there;
      every other condition is kept. */
  function SetCondition(cs: Conditions, t: ConditionType, c: Condition): (r: Conditions)
    ensures r.Keys == cs.Keys + {t}
    ensures r[t] == c
    ensures forall u :: u in cs && u != t ==> r[u] == cs[u]
  {
    cs[t := c]
  }

  /** The finalizer list with every occurrence of `token` taken out and every
      other entry kept, as often as it occurred. */
  function RemoveToken(tokens: seq<string>, token: string): (r: seq<string>)
    ensures token !in r
    ensures forall x :: x != token ==> multiset(r)[x] == multiset(tokens)[x]
    ensures token !in tokens ==> r == tokens
    decreases |tokens|
  {
    if tokens == [] then []
    else
      assert tokens == [tokens[0]] + tokens[1..];
      if tokens[0] == token then RemoveToken(tokens[1..], token)
      else [tokens[0]] + RemoveToken(tokens[1..], token)
  }
}
