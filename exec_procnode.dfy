/** Pulling a tuple from a plan node: rescan first when a parameter the node
    depends on has changed, then run the node's own ExecProcNode method. */
module ExecProcnode {
  import opened ExecNodes

  /** ExecReScan: reset the node so that it produces its output afresh.
      What it does to the changed-parameter set is left open. */
  method ExecReScan(be: Backend, node: PlanState)
    modifies be`trace, node`nodeState, node`chgParam
    ensures node.nodeState == node.reScan(old(node.nodeState))
    ensures be.trace == old(be.trace) + [ReScanned(node)]
  {
    node.nodeState := node.reScan(node.nodeState);
    be.trace := be.trace + [ReScanned(node)];
  }

  /** node->ExecProcNode(node): the node's method, producing the next tuple
      (or NULL at the end) and its own next state. */
  method CallExecProcNode(be: Backend, node: PlanState) returns (slot: TupleTableSlot?)
    modifies be`trace, node`nodeState
    ensures (slot, node.nodeState) == node.execProcNode(old(node.nodeState))
    ensures be.trace == old(be.trace) + [Dispatched(node)]
  {
    var next := node.execProcNode(node.nodeState);
    slot := next.0;
    node.nodeState := next.1;
    be.trace := be.trace + [Dispatched(node)];
  }

  /** The state the node's method starts from in ExecProcNode. */
  function StartState(node: PlanState, changed: set<nat>, s: NodeState): NodeState
  {
    if changed != {} then node.reScan(s) else s
  }

  /** The events of one ExecProcNode: a rescan exactly when parameters changed,
      always followed by one run of the node's method. */
  ghost function PullTrace(node: PlanState, changed: set<nat>): (t: seq<Event>)
    ensures |t| > 0 && t[|t| - 1] == Dispatched(node) && Dispatched(node) !in t[..|t| - 1]
    ensures ReScanned(node) in t <==> changed != {}
  {
    (if changed != {} then [ReScanned(node)] else []) + [Dispatched(node)]
  }

  /** ExecProcNode: return whatever the node's method returns, after a rescan
      if and only if some parameter changed. */
  method ExecProcNode(be: Backend, node: PlanState) returns (slot: TupleTableSlot?)
    modifies be`trace, node`nodeState, node`chgParam
    ensures (slot, node.nodeState) == node.execProcNode(StartState(node, old(node.chgParam), old(node.nodeState)))
    ensures be.trace == old(be.trace) + PullTrace(node, old(node.chgParam))
  {
    if node.chgParam != {} {
      ExecReScan(be, node);
    }
    slot := CallExecProcNode(be, node);
  }
}
