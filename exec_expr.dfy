/** The expression-evaluation entry points of executor.h: plain evaluation,
    evaluation for side effects only, the variants that switch into the
    per-tuple memory context, projection into a result slot, and qual
    checking. */
module ExecExpr {
  import opened ExecNodes

  /** state->evalfunc(state, econtext, isNull): run the compiled program over
      the tuples in scope, in whatever memory context is current. */
  method CallEvalFunc(be: Backend, state: ExprState, econtext: ExprContext, isNullPassed: bool)
    returns (r: EvalResult)
    modifies be`trace
    ensures r == state.evalfunc(econtext.tuples)
    ensures be.trace == old(be.trace) + [Evaluated(state, econtext, be.currentMemoryContext, isNullPassed)]
  {
    r := state.evalfunc(econtext.tuples);
    be.trace := be.trace + [Evaluated(state, econtext, be.currentMemoryContext, isNullPassed)];
  }

  /** ExecEvalExpr: one evaluation in the caller's memory context, which
      should already be the per-tuple one; the context is left as it was. */
  method ExecEvalExpr(be: Backend, state: ExprState, econtext: ExprContext)
    returns (value: Datum, isNull: bool)
    modifies be`trace
    ensures EvalResult(value, isNull) == state.evalfunc(econtext.tuples)
    ensures be.trace == old(be.trace) + [Evaluated(state, econtext, be.currentMemoryContext, true)]
  {
    var r := CallEvalFunc(be, state, econtext, true);
    value, isNull := r.value, r.isNull;
  }

  /** ExecEvalExprNoReturn: evaluate for the side effects only, passing a NULL
      isNull pointer; the program must return the zero Datum. */
  method ExecEvalExprNoReturn(be: Backend, state: ExprState, econtext: ExprContext)
    requires state.evalfunc(econtext.tuples).value == 0
    modifies be`trace
    ensures be.trace == old(be.trace) + [Evaluated(state, econtext, be.currentMemoryContext, false)]
  {
    var retDatum := CallEvalFunc(be, state, econtext, false);
    assert retDatum.value == 0;
  }

  /** ExecEvalExprSwitchContext: as ExecEvalExpr, but the evaluator runs with
      the per-tuple memory of `econtext` current; on normal return the caller's
      context is current again. */
  method ExecEvalExprSwitchContext(be: Backend, state: ExprState, econtext: ExprContext)
    returns (value: Datum, isNull: bool)
    modifies be
    ensures EvalResult(value, isNull) == state.evalfunc(econtext.tuples)
    ensures be.currentMemoryContext == old(be.currentMemoryContext)
    ensures be.trace == old(be.trace) + [Evaluated(state, econtext, econtext.perTupleMemory, true)]
  {
    var oldContext := be.MemoryContextSwitchTo(econtext.perTupleMemory);
    var r := CallEvalFunc(be, state, econtext, true);
    var _ := be.MemoryContextSwitchTo(oldContext);
    value, isNull := r.value, r.isNull;
  }

  /** ExecEvalExprNoReturnSwitchContext: as ExecEvalExprNoReturn, inside the
      per-tuple memory of `econtext`, restoring the caller's context on normal
      return. */
  method ExecEvalExprNoReturnSwitchContext(be: Backend, state: ExprState, econtext: ExprContext)
    requires state.evalfunc(econtext.tuples).value == 0
    modifies be
    ensures be.currentMemoryContext == old(be.currentMemoryContext)
    ensures be.trace == old(be.trace) + [Evaluated(state, econtext, econtext.perTupleMemory, false)]
  {
    var oldContext := be.MemoryContextSwitchTo(econtext.perTupleMemory);
    ExecEvalExprNoReturn(be, state, econtext);
    var _ := be.MemoryContextSwitchTo(oldContext);
  }

  /** tts_flags once ExecProject has stored its virtual tuple: the EMPTY bit is
      off and every other bit is as the clear left it. */
  function StoredFlags(flags: bv16): (r: bv16)
    ensures r & TTS_FLAG_EMPTY == 0
    ensures r & !TTS_FLAG_EMPTY == flags & !TTS_FLAG_EMPTY
  {
    flags & !TTS_FLAG_EMPTY
  }

  /** The tts_flags a projection leaves behind: not empty, nothing to free,
      every other bit as it was before. */
  predicate ProjectedFlags(before: bv16, after: bv16) {
    && after & TTS_FLAG_EMPTY == 0
    && after & TTS_FLAG_SHOULDFREE == 0
    && after & !(TTS_FLAG_EMPTY | TTS_FLAG_SHOULDFREE) == before & !(TTS_FLAG_EMPTY | TTS_FLAG_SHOULDFREE)
  }

  /** Clearing and then storing gives exactly those flags. */
  lemma StoredAfterClear(flags: bv16)
    ensures ProjectedFlags(flags, StoredFlags(ClearedFlags(flags)))
  {
  }

  /** ExecProject: clear the result slot, run the projection program (which
      fills the slot's columns) in per-tuple memory, then mark the slot as
      holding a virtual tuple with every column valid. */
  method ExecProject(be: Backend, projInfo: ProjectionInfo) returns (slot: TupleTableSlot)
    requires projInfo.state.resultslot != null
    requires projInfo.state.evalfunc(projInfo.exprContext.tuples).value == 0
    modifies be, projInfo.state.resultslot
    ensures slot == projInfo.state.resultslot
    ensures slot.flags == StoredFlags(ClearedFlags(old(slot.flags)))
    ensures ProjectedFlags(old(slot.flags), slot.flags)
    ensures slot.nvalid == slot.tupleDescriptor.natts
    ensures be.currentMemoryContext == old(be.currentMemoryContext)
    ensures be.trace == old(be.trace) + [Cleared(slot),
              Evaluated(projInfo.state, projInfo.exprContext, projInfo.exprContext.perTupleMemory, false)]
  {
    var econtext := projInfo.exprContext;
    var state := projInfo.state;
    slot := state.resultslot;
    ghost var before := slot.flags;
    var _ := ExecClearTuple(be, slot);
    ExecEvalExprNoReturnSwitchContext(be, state, econtext);
    slot.flags := StoredFlags(slot.flags);
    slot.nvalid := slot.tupleDescriptor.natts;
    StoredAfterClear(before);
  }

  /** Whether a qual accepts the tuples in scope: an absent (empty) qual
      accepts everything; otherwise the program's Datum read as a bool. */
  function QualSatisfied(state: Option<ExprState>, tuples: Tuples): (r: bool)
    ensures state.None? ==> r
    ensures state.Some? ==> (r <==> state.value.evalfunc(tuples).value != 0)
  {
    match state
    case None => true
    case Some(s) => DatumGetBool(s.evalfunc(tuples).value)
  }

  /** The events of one ExecQual: none for an empty qual, else one evaluation
      in per-tuple memory with an isNull pointer supplied. */
  ghost function QualTrace(state: Option<ExprState>, econtext: ExprContext): seq<Event>
  {
    match state
    case None => []
    case Some(s) => [Evaluated(s, econtext, econtext.perTupleMemory, true)]
  }

  /** ExecQual: a qual compiled by ExecInitQual never yields NULL, so the
      answer is a plain true or false. `state` is None for an empty qual. */
  method ExecQual(be: Backend, state: Option<ExprState>, econtext: ExprContext) returns (r: bool)
    requires state.Some? ==> IsQual(state.value)
    requires state.Some? ==> !state.value.evalfunc(econtext.tuples).isNull
    modifies be
    ensures r == QualSatisfied(state, econtext.tuples)
    ensures be.currentMemoryContext == old(be.currentMemoryContext)
    ensures be.trace == old(be.trace) + QualTrace(state, econtext)
  {
    if state.None? {
      return true;
    }
    var ret, isnull := ExecEvalExprSwitchContext(be, state.value, econtext);
    assert !isnull;
    r := DatumGetBool(ret);
  }

  /** ExecQualAndReset: ExecQual, then (on normal return) reset the per-tuple
      memory whatever the answer was. */
  method ExecQualAndReset(be: Backend, state: Option<ExprState>, econtext: ExprContext) returns (r: bool)
    requires state.Some? ==> IsQual(state.value)
    requires state.Some? ==> !state.value.evalfunc(econtext.tuples).isNull
    modifies be
    ensures r == QualSatisfied(state, econtext.tuples)
    ensures be.currentMemoryContext == old(be.currentMemoryContext)
    ensures be.trace == old(be.trace) + QualTrace(state, econtext) + [Reset(econtext.perTupleMemory)]
  {
    r := ExecQual(be, state, econtext);
    be.MemoryContextReset(econtext.perTupleMemory);
  }
}
