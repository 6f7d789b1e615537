/** Executor-state helpers of executor.h: whether a cached plan is still
    usable and needs locks, range-table lookup, and the lazily created
    per-output-tuple expression context. */
module ExecUtils {
  import opened ExecNodes

  /** ExecPlanStillValid: a plan not taken from the plan cache is always valid;
      a cached one is as valid as the cache says. */
  function ExecPlanStillValid(estate: EState): (r: bool)
    reads estate
    ensures estate.cachedPlan.None? ==> r
    ensures estate.cachedPlan.Some? ==> (r <==> CachedPlanValid(estate.cachedPlan.value))
  {
    match estate.cachedPlan
    case None => true
    case Some(plan) => CachedPlanValid(plan)
  }

  /** ExecShouldLockRelations: locks are needed only to run a cached plan that
      may hold unlocked relations. */
  function ExecShouldLockRelations(estate: EState): (r: bool)
    reads estate
    ensures r ==> estate.cachedPlan.Some?
    ensures estate.cachedPlan.Some? ==> (r <==> CachedPlanRequiresLocking(estate.cachedPlan.value))
  {
    match estate.cachedPlan
    case None => false
    case Some(plan) => CachedPlanRequiresLocking(plan)
  }

  /** An Index (unsigned int) range-table position. */
  newtype Index = x: int | 0 <= x < 0x1_0000_0000

  /** exec_rt_fetch: range-table indexes count from 1, the list from 0. */
  function ExecRtFetch(rti: Index, estate: EState): (rte: RangeTblEntry)
    reads estate
    requires 1 <= rti as int <= |estate.rangeTable|
    ensures rte == estate.rangeTable[rti as int - 1]
  {
    estate.rangeTable[rti - 1]
  }

  /** MakePerTupleExprContext: create the per-output-tuple ExprContext, with
      its own per-tuple memory, and remember it in the EState. */
  method MakePerTupleExprContext(estate: EState) returns (econtext: ExprContext)
    requires estate.perTupleExprContext == null
    modifies estate`perTupleExprContext
    ensures fresh(econtext) && fresh(econtext.perTupleMemory)
    ensures estate.perTupleExprContext == econtext
  {
    var memory := new MemoryContext();
    econtext := new ExprContext(memory);
    estate.perTupleExprContext := econtext;
  }

  /** GetPerTupleExprContext: the EState's per-output-tuple ExprContext,
      created on first use and the same one on every later use. */
  method GetPerTupleExprContext(estate: EState) returns (econtext: ExprContext)
    modifies estate`perTupleExprContext
    ensures estate.perTupleExprContext == econtext
    ensures old(estate.perTupleExprContext) != null ==> econtext == old(estate.perTupleExprContext)
    ensures old(estate.perTupleExprContext) == null ==> fresh(econtext) && fresh(econtext.perTupleMemory)
  {
    if estate.perTupleExprContext != null {
      econtext := estate.perTupleExprContext;
    } else {
      econtext := MakePerTupleExprContext(estate);
    }
  }

  /** GetPerTupleMemoryContext: the per-tuple memory of that ExprContext. */
  method GetPerTupleMemoryContext(estate: EState) returns (memory: MemoryContext)
    modifies estate`perTupleExprContext
    ensures estate.perTupleExprContext != null && memory == estate.perTupleExprContext.perTupleMemory
    ensures old(estate.perTupleExprContext) != null ==> estate.perTupleExprContext == old(estate.perTupleExprContext)
  {
    var econtext := GetPerTupleExprContext(estate);
    memory := econtext.perTupleMemory;
  }

  /** Asking twice yields one and the same ExprContext. */
  method GetPerTupleExprContextTwice(estate: EState) returns (first: ExprContext, second: ExprContext)
    modifies estate`perTupleExprContext
    ensures first == second
  {
    first := GetPerTupleExprContext(estate);
    second := GetPerTupleExprContext(estate);
  }

  /** ResetExprContext: free what was allocated in the context's per-tuple memory. */
  method ResetExprContext(be: Backend, econtext: ExprContext)
    modifies be`trace
    ensures be.trace == old(be.trace) + [Reset(econtext.perTupleMemory)]
  {
    be.MemoryContextReset(econtext.perTupleMemory);
  }

  /** The events of ResetPerTupleExprContext: none when no per-tuple
      ExprContext was ever created. */
  ghost function PerTupleResetTrace(econtext: ExprContext?): seq<Event>
    reads econtext
  {
    if econtext == null then [] else [Reset(econtext.perTupleMemory)]
  }

  /** ResetPerTupleExprContext: reset the per-output-tuple ExprContext if one
      has been created; never creates one. */
  method ResetPerTupleExprContext(be: Backend, estate: EState)
    modifies be`trace
    ensures be.trace == old(be.trace) + PerTupleResetTrace(estate.perTupleExprContext)
  {
    if estate.perTupleExprContext != null {
      ResetExprContext(be, estate.perTupleExprContext);
    }
  }
}
