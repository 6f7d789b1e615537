# The inline protocol layer of the PostgreSQL executor header

This project models, in Dafny, the small protocol layer that
`src/include/executor/executor.h` defines as `static inline` functions and
macros, and proves what that layer promises its callers:

- **Expression evaluation wrappers.** `ExecEvalExpr` runs an expression's
  evaluator in the current memory context. `ExecEvalExprNoReturn` runs it for
  its side effects only, passing a NULL is-null pointer; the result must be
  the zero Datum. The `...SwitchContext` variants run the evaluator with the
  expression context's per-tuple memory current and, on normal return, give
  the caller its own context back.
- **Quals.** `ExecQual` treats an absent (empty) qual as true without running
  anything. Otherwise the qual must have been compiled by `ExecInitQual`, its
  result is never NULL, and the answer is that Datum read as a bool.
  `ExecQualAndReset` gives the same answer and then, on normal return,
  resets per-tuple memory whether the answer was true or false.
- **Projection.** `ExecProject` clears the result slot, runs the projection
  program and then marks the slot as holding a tuple with every column valid.
- **Pulling from a plan node.** `ExecProcNode` rescans the node if and only if
  a parameter changed, and then returns whatever the node's own method returns.
- **The per-output-tuple expression context** of an executor state. It is
  created on first use and reused afterwards. Resetting it does nothing when
  it was never created.
- **Small lookups.** Plan validity and locking for cached plans, range-table
  fetch by 1-based index, the hash-entry accessors with their
  extra-space-before-tuple layout, and the `EXEC_FLAG_*` capability bitmask.

The process-wide state this layer depends on is one explicit `Backend` object
(`ExecNodes.Backend`). It holds two things:

- `CurrentMemoryContext`.
- A ghost `trace` of the externally visible steps, in order: evaluator runs
  (with the memory context current at the time), memory resets, slot clears,
  rescans and node-method calls.

The methods are specified by the trace they append and by the state they leave
behind. An expression's evaluator is a function-typed field of `ExprState`, a
pure function of the tuples in scope. A node's pull method and its rescan
behaviour are function-typed fields of `PlanState` over an opaque node state.
The C `Assert`s of the layer are preconditions, because they are what the code
demands of its callers. Examples: the qual flag, a qual that never returns
NULL, a no-return program returning 0, and `list_nth`'s index range.

Modules follow the files the code lives in: `ExecFlags` (the eflags bits),
`ExecNodes` (the structures, the backend state, and `ExecClearTuple`),
`ExecExpr` (evaluation, projection, quals), `ExecProcnode` (the pull
dispatch), `ExecUtils` (executor-state helpers) and `ExecGrouping` (hash-entry
accessors).

A NULL qual result counts as false (executor.h:531-533). The compiled qual
program does that mapping itself, so `ExecQual` asserts that it never sees
NULL (executor.h:551-552). The model makes that assertion a precondition.

Every promise below is about a normal return. When the evaluator raises an
error, none of the code after the call runs (see "## Left out").

## Model

| member | source | states |
|---|---|---|
| `ExecFlags.Bit` | src/include/executor/executor.h:66-72 | each EXEC_FLAG_* value is a single nonzero bit, and all of them lie within 0x7F |
| `ExecFlags.BitsDistinct` | src/include/executor/executor.h:66-72 | two capabilities share a bit if and only if they are the same capability |
| `ExecFlags.MaskOfHas` | src/include/executor/executor.h:25-34 | OR-ing the bits of any list of capabilities loses nothing: the result tests true for a capability exactly when that capability was both listed and requested |
| `ExecFlags.MaskHas` | src/include/executor/executor.h:25-34 | the eflags built from a set of capabilities tests true for exactly the members of that set |
| `ExecFlags.FlagsOfMask` | src/include/executor/executor.h:25-72 | round trip: reading back the capabilities of the eflags built from a set gives that set |
| `ExecFlags.FlagsIgnoreUndefinedBits` | src/include/executor/executor.h:66-72 | bits outside the seven defined ones do not change which capabilities an eflags value requests |
| `ExecFlags.ValidMask` | src/include/executor/executor.h:40-43 | an eflags built from a set is valid (EXPLAIN_GENERIC only together with EXPLAIN_ONLY) exactly when the set obeys that rule |
| `ExecNodes.DatumGetBool` | src/include/executor/executor.h:554 | a Datum reads as true exactly when it is nonzero |
| `ExecExpr.ExecEvalExpr` | src/include/executor/executor.h:410-416 | returns the evaluator's value and is-null flag for the tuples in scope; records one evaluation with an is-null pointer, in the caller's current context, and changes nothing else |
| `ExecExpr.ExecEvalExprNoReturn` | src/include/executor/executor.h:435-444 | requires the program to return the zero Datum; records one evaluation with a NULL is-null pointer in the current context |
| `ExecExpr.ExecEvalExprSwitchContext` | src/include/executor/executor.h:453-465 | same value and is-null flag as ExecEvalExpr; the evaluation happens in the per-tuple memory; on normal return the caller's current context is current again |
| `ExecExpr.ExecEvalExprNoReturnSwitchContext` | src/include/executor/executor.h:475-484 | one evaluation with a NULL is-null pointer in the per-tuple memory; on normal return the caller's current context is restored |
| `ExecExpr.StoredFlags` | src/include/executor/executor.h:520 | marking the tuple stored turns off TTS_FLAG_EMPTY and leaves every other flag bit alone |
| `ExecExpr.StoredAfterClear` | src/include/executor/executor.h:511-521 | clearing and then storing leaves the slot not empty and with nothing to free, and every other flag bit as it was |
| `ExecExpr.ExecProject` | src/include/executor/executor.h:500-524 | returns the projection's result slot; the slot is cleared before the program runs in per-tuple memory, in that order; on normal return EMPTY is off, other bits are as above, tts_nvalid equals the descriptor's natts, and the caller's context is restored |
| `ExecExpr.QualSatisfied` | src/include/executor/executor.h:536-555 | an empty qual is satisfied; otherwise the qual is satisfied exactly when the program's Datum is nonzero |
| `ExecExpr.ExecQual` | src/include/executor/executor.h:536-555 | requires a qual with EEO_FLAG_IS_QUAL that does not yield NULL; returns QualSatisfied; an empty qual runs no evaluator, a non-empty one runs it once in per-tuple memory; on normal return the caller's context is restored |
| `ExecExpr.ExecQualAndReset` | src/include/executor/executor.h:563-571 | the same answer as ExecQual; on normal return, one reset of the per-tuple memory follows whether the answer is true or false |
| `ExecProcnode.PullTrace` | src/include/executor/executor.h:334-337 | a pull ends with exactly one call of the node's method, and includes a rescan if and only if the changed-parameter set is non-empty |
| `ExecProcnode.ExecProcNode` | src/include/executor/executor.h:331-338 | the result and the node's new state are those of the node's method run on the rescanned state when the changed-parameter set was non-empty on entry, and on the unchanged state otherwise; the rescan, if any, comes first |
| `ExecUtils.ExecPlanStillValid` | src/include/executor/executor.h:306-311 | true when there is no cached plan; otherwise exactly CachedPlanValid of the cached plan |
| `ExecUtils.ExecShouldLockRelations` | src/include/executor/executor.h:317-322 | false when there is no cached plan; otherwise exactly CachedPlanRequiresLocking of the cached plan |
| `ExecUtils.ExecRtFetch` | src/include/executor/executor.h:714-718 | requires 1 <= rti <= the range-table length; returns list element rti - 1 |
| `ExecUtils.GetPerTupleExprContext` | src/include/executor/executor.h:673-677 | returns the stored per-tuple ExprContext if there is one; otherwise creates a fresh one, with fresh per-tuple memory, and stores it |
| `ExecUtils.GetPerTupleExprContextTwice` | src/include/executor/executor.h:673-677 | two successive calls return the same ExprContext |
| `ExecUtils.GetPerTupleMemoryContext` | src/include/executor/executor.h:679-680 | the per-tuple memory of that ExprContext, which now exists |
| `ExecUtils.ResetExprContext` | src/include/executor/executor.h:668-669 | records one reset of the context's per-tuple memory |
| `ExecUtils.ResetPerTupleExprContext` | src/include/executor/executor.h:682-687 | resets the per-tuple memory when the ExprContext exists, does nothing when it does not, and never creates one |
| `ExecGrouping.TupleHashEntryGetTuple` | src/include/executor/executor.h:174-178 | returns the entry's firstTuple unchanged |
| `ExecGrouping.TupleHashEntryGetAdditional` | src/include/executor/executor.h:188-195 | NULL exactly when additionalsize is 0; otherwise an address that ends exactly additionalsize bytes later, at firstTuple |
| `ExecGrouping.AdditionalPrecedesTuple` | src/include/executor/executor.h:180-195 | every byte of the extra space lies before the entry's tuple, and the space ends exactly where the tuple starts |

## Left out

- Every `extern` prototype of the header, because their bodies are not part of
  this model. This covers `ExecInitNode`, `ExecEndNode`, `BuildTupleHashTable`,
  `LookupTupleHashEntry`, `EvalPlanQual*`, `ExecInitExpr`, `ExecBuildAggTrans`,
  `ExecCheck`, the scan, junk, trigger, indexing, partition and replication
  routines, and the rest. The few this layer calls stand in as follows:
  - The expression evaluator is a pure function of the tuples in scope.
  - `ExecReScan` is a per-node function on an opaque node state.
  - The node's `ExecProcNode` method is likewise a per-node function on that
    state.
  - `MemoryContextReset` is an event in the trace.
  - `CachedPlanValid` and `CachedPlanRequiresLocking` read two opaque booleans.
- `ExecReScan`'s effect on `chgParam` is not constrained, and its recursion
  into child nodes is not modelled. That logic is in execAmi.c, which is not
  part of this model. `ExecProcNode`'s contract therefore speaks of the
  changed-parameter set as it was on entry and says nothing about it
  afterwards.
- Errors raised by the evaluator. The evaluator is modelled as a total
  function, so every call returns. In the C code an error leaves the call by
  a non-local exit, and none of the code after it runs: the switch back to the
  caller's context (executor.h:463, 483), the slot marking (520-521) and the
  per-tuple reset (569). Every contract here describes a normal return only.
- Volatile expressions. The evaluator is modelled as a function of the tuples
  in scope, so two runs over the same tuples always agree. A volatile
  expression, such as one that reads a clock or a sequence, can give
  different results each time.
- `ExecClearTuple`: tuptable.h and execTuples.c are not part of this model.
  Its flag effect is modelled as the one every clear callback shares: set
  TTS_FLAG_EMPTY, clear TTS_FLAG_SHOULDFREE, set `tts_nvalid` to 0. Freeing the
  old contents and invalidating the TID are not modelled. The flag values
  (`TTS_FLAG_EMPTY` = 0x2, `TTS_FLAG_SHOULDFREE` = 0x4, `EEO_FLAG_IS_QUAL` = 0x1)
  come from tuptable.h and execnodes.h, which are not part of this model.
- `MakePerTupleExprContext`: execUtils.c is not part of this model. It is
  modelled as "allocate a new ExprContext with its own per-tuple memory and
  store it in the EState", which is what the header comment at line 673 says
  it is for.
- What the projection program writes into the slot's column arrays, and the
  Datum representation in general. Only the slot's flags and `tts_nvalid` are
  modelled.
- `ExecProject`: `tts_nvalid` is an int16. Modelling it as an unbounded int
  does not lose anything, because a tuple descriptor has at most 1664 columns.
- Memory-context internals: allocation and freeing. A context is only an
  identity, and a reset is an event.
- Flag propagation down the plan tree (MergeJoin adding MARK, Materialize
  removing BACKWARD). Only the comment at lines 25-34 describes it, and no
  code for it is in this file.
- The plugin hooks (`ExecutorStart_hook` and the others, lines 75-97), because
  they are mutable global pointers into foreign code.
- Tuple output (`begin_tup_output_tupdesc`, `do_tup_output`,
  `do_text_output_oneline`), because it is output to a DestReceiver.
- `TupleHashEntrySize`, because it is `sizeof` of a platform-dependent struct.
- `TupleHashEntryGetAdditional`: the header also promises that the extra space
  is maxaligned and zeroed (executor.h:181-182). Neither is stated, because
  memory contents and alignment are not modelled; only the address is.
- The hash table's capacity hint, its hash function and its equality
  semantics, because they live in code that is not part of this model.
- The round trip in the other direction, from an arbitrary eflags value to its
  capabilities and back to the value restricted to the defined bits. It is not
  proved. `FlagsIgnoreUndefinedBits` shows that the undefined bits carry no
  capability.
