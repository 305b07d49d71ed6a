/** The GraphQL types the two process-instance queries serve, carried over
    from the schema in server.js. A nullable GraphQL field is an `Option`,
    a non-null one is a plain value, except `type` and `nodeId` of a node:
    the schema declares them non-null, but no fixture literal sets them, so
    they are `Option`s here. `type` is spelled `nodeType` because `type` is
    a Dafny keyword. */
module Schema {
  import opened Wrappers
  import opened Js

  /** The lifecycle state enum. */
  datatype ProcessInstanceState = PENDING | ACTIVE | COMPLETED | ABORTED | SUSPENDED | ERROR

  /** One traversal of a node of the process graph. A null `exit` means the
      node has been entered and not yet left. */
  datatype NodeInstance = NodeInstance(
    id: string,
    name: string,
    nodeType: Option<string>,
    enter: Option<string>,
    exit: Option<string>,
    definitionId: string,
    nodeId: Option<string>)

  /** One execution of a process definition. `variables` is an opaque
      payload, conventionally JSON; `start` and `end` are opaque timestamps. */
  datatype ProcessInstance = ProcessInstance(
    id: string,
    processId: string,
    processName: Option<string>,
    parentProcessInstanceId: Option<string>,
    rootProcessInstanceId: Option<string>,
    rootProcessId: Option<string>,
    roles: Option<seq<string>>,
    state: ProcessInstanceState,
    endpoint: Option<string>,
    nodes: seq<NodeInstance>,
    variables: Option<string>,
    start: Option<string>,
    end: Option<string>)

  /** The `ProcessInstanceFilter` input object as the resolver receives it.
      An argument the query leaves out is `undefined` and one it passes as
      null is `null`; only `parentProcessInstanceId` is ever read, so only
      that field keeps the distinction. */
  datatype ProcessInstanceFilter = ProcessInstanceFilter(
    state: Option<seq<ProcessInstanceState>>,
    id: Option<seq<string>>,
    processId: Option<seq<string>>,
    limit: Option<int>,
    offset: Option<int>,
    parentProcessInstanceId: NullableString)

  /** Whether a node carries neither `type` nor `nodeId`, the two fields the
      schema declares non-null that the fixture leaves unset. */
  predicate LacksTypeAndNodeId(n: NodeInstance)
  {
    n.nodeType.None? && n.nodeId.None?
  }

  /** Whether every node of an instance has been left. */
  predicate AllNodesExited(p: ProcessInstance)
  {
    forall k | 0 <= k < |p.nodes| :: p.nodes[k].exit.Some?
  }
}
