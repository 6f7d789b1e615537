/** The executor's run-time structures as far as the inline layer of
    executor.h touches them: expression states and contexts, tuple slots,
    plan-node states and the executor state, plus the two process-wide
    pieces of state they depend on (the current memory context, and a ghost
    record of the externally visible effects the layer causes). */
module ExecNodes {

  datatype Option<T> = None | Some(value: T)

  /** Datum is uintptr_t: one 64-bit machine word. */
  newtype Datum = x: int | 0 <= x < 0x1_0000_0000_0000_0000

  /** DatumGetBool: any nonzero word reads as true. */
  function DatumGetBool(d: Datum): (b: bool)
    ensures b <==> d != 0
  {
    d != 0
  }

  /** A memory context: only its identity matters here; allocation is not modelled. */
  class MemoryContext {
    constructor ()
    {
    }
  }

  /** The tuples an expression can refer to through its ExprContext
      (ecxt_scantuple, ecxt_innertuple, ecxt_outertuple). */
  datatype Tuples = Tuples(scan: seq<Datum>, inner: seq<Datum>, outer: seq<Datum>)

  /** What one run of an expression's evaluator yields: the Datum and the is-null flag. */
  datatype EvalResult = EvalResult(value: Datum, isNull: bool)

  /** The compiled program behind ExprState.evalfunc, as seen from outside:
      the result it produces for the tuples in scope. */
  type EvalFunc = Tuples -> EvalResult

  /** Bit of ExprState.flags set by ExecInitQual. */
  const EEO_FLAG_IS_QUAL: bv8 := 0x01

  /** A compiled expression: its flags, the slot a projection writes into
      (null unless it is one), and its evaluator. */
  datatype ExprState = ExprState(flags: bv8, resultslot: TupleTableSlot?, evalfunc: EvalFunc)

  predicate IsQual(state: ExprState) {
    state.flags & EEO_FLAG_IS_QUAL != 0
  }

  /** Per-evaluation context: the tuples in scope and the short-lived
      memory that is reset once per tuple. */
  class ExprContext {
    var tuples: Tuples
    const perTupleMemory: MemoryContext

    constructor (perTupleMemory: MemoryContext)
      ensures this.perTupleMemory == perTupleMemory
      ensures tuples == Tuples([], [], [])
    {
      this.perTupleMemory := perTupleMemory;
      tuples := Tuples([], [], []);
    }
  }

  /** ProjectionInfo: the projection program (with its result slot) and the
      context it is evaluated in. */
  datatype ProjectionInfo = ProjectionInfo(state: ExprState, exprContext: ExprContext)

  /** The shape of the tuples of a slot; its column count is all that is used here. */
  datatype TupleDesc = TupleDesc(natts: nat)

  /** Bits of TupleTableSlot.tts_flags. */
  const TTS_FLAG_EMPTY: bv16 := 0x0002
  const TTS_FLAG_SHOULDFREE: bv16 := 0x0004

  class TupleTableSlot {
    var flags: bv16                  // tts_flags
    var nvalid: int                  // tts_nvalid: number of valid leading columns
    const tupleDescriptor: TupleDesc // fixed for the slot's lifetime

    constructor (desc: TupleDesc)
      ensures tupleDescriptor == desc
      ensures flags == TTS_FLAG_EMPTY && nvalid == 0
    {
      tupleDescriptor := desc;
      flags := TTS_FLAG_EMPTY;
      nvalid := 0;
    }
  }

  /** The operator-specific state of a plan node, which only the node's own
      methods interpret. */
  type NodeState = int

  /** PlanState: the part of a plan node the pull protocol sees. `chgParam` is
      the set of parameters changed since the node last ran (the empty set is
      the NULL Bitmapset); `execProcNode` is the node's pull method and
      `reScan` what ExecReScan does to this kind of node. */
  class PlanState {
    var chgParam: set<nat>
    var nodeState: NodeState
    var execProcNode: NodeState -> (TupleTableSlot?, NodeState)
    const reScan: NodeState -> NodeState

    constructor (execProcNode: NodeState -> (TupleTableSlot?, NodeState),
                 reScan: NodeState -> NodeState, initial: NodeState)
      ensures this.execProcNode == execProcNode && this.reScan == reScan
      ensures nodeState == initial && chgParam == {}
    {
      this.execProcNode := execProcNode;
      this.reScan := reScan;
      nodeState := initial;
      chgParam := {};
    }
  }

  /** What CachedPlanValid and CachedPlanRequiresLocking report about a cached plan. */
  datatype CachedPlan = CachedPlan(isValid: bool, requiresLocking: bool)

  function CachedPlanValid(plan: CachedPlan): bool {
    plan.isValid
  }

  function CachedPlanRequiresLocking(plan: CachedPlan): bool {
    plan.requiresLocking
  }

  /** A range-table entry, identified by the relation it names. */
  datatype RangeTblEntry = RangeTblEntry(relid: nat)

  /** EState: the fields of the executor state that the inline layer reads or sets. */
  class EState {
    var cachedPlan: Option<CachedPlan>          // es_cachedplan (None is NULL)
    var rangeTable: seq<RangeTblEntry>          // es_range_table
    var perTupleExprContext: ExprContext?       // es_per_tuple_exprcontext

    constructor (cachedPlan: Option<CachedPlan>, rangeTable: seq<RangeTblEntry>)
      ensures this.cachedPlan == cachedPlan && this.rangeTable == rangeTable
      ensures perTupleExprContext == null
    {
      this.cachedPlan := cachedPlan;
      this.rangeTable := rangeTable;
      perTupleExprContext := null;
    }
  }

  /** The externally visible steps the inline layer takes, in order. */
  datatype Event =
    | Evaluated(program: ExprState, econtext: ExprContext, memory: MemoryContext, isNullPassed: bool)
        // the evaluator ran with `memory` current; `isNullPassed` is false when it got a NULL isNull pointer
    | Reset(context: MemoryContext)   // MemoryContextReset
    | Cleared(slot: TupleTableSlot)   // ExecClearTuple
    | ReScanned(node: PlanState)      // ExecReScan
    | Dispatched(node: PlanState)     // the node's ExecProcNode method ran

  /** The process-wide state of a backend that this layer uses:
      CurrentMemoryContext, and the ghost trace of events so far. */
  class Backend {
    var currentMemoryContext: MemoryContext
    ghost var trace: seq<Event>

    constructor (top: MemoryContext)
      ensures currentMemoryContext == top && trace == []
    {
      currentMemoryContext := top;
      trace := [];
    }

    /** Make `context` current and hand back the one it replaces. */
    method MemoryContextSwitchTo(context: MemoryContext) returns (prior: MemoryContext)
      modifies this`currentMemoryContext
      ensures prior == old(currentMemoryContext)
      ensures currentMemoryContext == context
    {
      prior := currentMemoryContext;
      currentMemoryContext := context;
    }

    /** Free everything allocated in `context`. */
    method MemoryContextReset(context: MemoryContext)
      modifies this`trace
      ensures trace == old(trace) + [Reset(context)]
    {
      trace := trace + [Reset(context)];
    }
  }

  /** tts_flags after a slot's clear callback: marked empty, nothing left to free. */
  function ClearedFlags(flags: bv16): (r: bv16)
    ensures r & TTS_FLAG_EMPTY == TTS_FLAG_EMPTY
    ensures r & TTS_FLAG_SHOULDFREE == 0
    ensures r & !(TTS_FLAG_EMPTY | TTS_FLAG_SHOULDFREE) == flags & !(TTS_FLAG_EMPTY | TTS_FLAG_SHOULDFREE)
  {
    (flags | TTS_FLAG_EMPTY) & !TTS_FLAG_SHOULDFREE
  }

  /** ExecClearTuple: drop the slot's contents and mark it empty. */
  method ExecClearTuple(be: Backend, slot: TupleTableSlot) returns (r: TupleTableSlot)
    modifies be`trace, slot
    ensures r == slot
    ensures slot.flags == ClearedFlags(old(slot.flags)) && slot.nvalid == 0
    ensures be.trace == old(be.trace) + [Cleared(slot)]
  {
    slot.flags := ClearedFlags(slot.flags);
    slot.nvalid := 0;
    be.trace := be.trace + [Cleared(slot)];
    r := slot;
  }
}
