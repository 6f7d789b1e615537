/** The "eflags" capability bitmask handed to ExecutorStart and ExecInitNode:
    a bitwise OR of the EXEC_FLAG_* bits, each telling a plan node what it
    must be prepared for (efficient rescan, backward scan, mark/restore, ...). */
module ExecFlags {

  /** eflags is a C int; only its bit pattern matters. */
  type EFlags = bv32

  const EXEC_FLAG_EXPLAIN_ONLY: EFlags := 0x0001     // plan is only shown, never run
  const EXEC_FLAG_EXPLAIN_GENERIC: EFlags := 0x0002  // shown as a generic plan
  const EXEC_FLAG_REWIND: EFlags := 0x0004           // rescans should be cheap
  const EXEC_FLAG_BACKWARD: EFlags := 0x0008         // scan direction may be reversed
  const EXEC_FLAG_MARK: EFlags := 0x0010             // positions may be saved and restored
  const EXEC_FLAG_SKIP_TRIGGERS: EFlags := 0x0020    // caller sets up AFTER-trigger context
  const EXEC_FLAG_WITH_NO_DATA: EFlags := 0x0040     // materialized-view refresh without data

  /** The capabilities a caller can request, one per EXEC_FLAG_* bit. */
  datatype ExecFlag =
    | ExplainOnly
    | ExplainGeneric
    | Rewind
    | Backward
    | Mark
    | SkipTriggers
    | WithNoData

  /** Every capability, in the order of the bit values. */
  const ALL_FLAGS: seq<ExecFlag> :=
    [ExplainOnly, ExplainGeneric, Rewind, Backward, Mark, SkipTriggers, WithNoData]

  /** Each definable eflags bit: the seven defined ones and nothing above them. */
  const DEFINED_BITS: EFlags := 0x007F

  /** The EXEC_FLAG_* constant of a capability; each is a single bit among the defined ones. */
  function Bit(f: ExecFlag): (b: EFlags)
    ensures b != 0 && b & (b - 1) == 0
    ensures b & DEFINED_BITS == b
  {
    match f
    case ExplainOnly => EXEC_FLAG_EXPLAIN_ONLY
    case ExplainGeneric => EXEC_FLAG_EXPLAIN_GENERIC
    case Rewind => EXEC_FLAG_REWIND
    case Backward => EXEC_FLAG_BACKWARD
    case Mark => EXEC_FLAG_MARK
    case SkipTriggers => EXEC_FLAG_SKIP_TRIGGERS
    case WithNoData => EXEC_FLAG_WITH_NO_DATA
  }

  /** A node tests a capability with `eflags & EXEC_FLAG_X`. */
  predicate HasFlag(eflags: EFlags, f: ExecFlag) {
    eflags & Bit(f) != 0
  }

  /** Two different capabilities never share a bit, and each has one. */
  lemma BitsDistinct(f: ExecFlag, g: ExecFlag)
    ensures Bit(f) & Bit(g) == 0 <==> f != g
  {
  }

  /** The bitwise OR of the bits of the members of `list` that are in `fs`. */
  function MaskOf(list: seq<ExecFlag>, fs: set<ExecFlag>): EFlags
  {
    if list == [] then 0
    else (if list[0] in fs then Bit(list[0]) else 0) | MaskOf(list[1..], fs)
  }

  /** The eflags value requesting exactly the capabilities in `fs`. */
  function Mask(fs: set<ExecFlag>): EFlags {
    MaskOf(ALL_FLAGS, fs)
  }

  /** The capabilities an eflags value requests. */
  function Flags(eflags: EFlags): set<ExecFlag> {
    set f | f in ALL_FLAGS && HasFlag(eflags, f)
  }

  /** ALL_FLAGS leaves no capability out. */
  lemma AllFlagsListed(f: ExecFlag)
    ensures f in ALL_FLAGS
  {
  }

  /** OR-ing single, distinct bits loses nothing: the mask built from `list`
      has the bit of `f` exactly when `f` was both listed and requested. */
  lemma {:induction false} MaskOfHas(list: seq<ExecFlag>, fs: set<ExecFlag>, f: ExecFlag)
    ensures HasFlag(MaskOf(list, fs), f) <==> f in list && f in fs
  {
    if list != [] {
      MaskOfHas(list[1..], fs, f);
      BitsDistinct(list[0], f);
      assert f in list <==> f == list[0] || f in list[1..] by {
        assert list == [list[0]] + list[1..];
      }
    }
  }

  /** The mask built from a set of capabilities tests true for exactly that set. */
  lemma MaskHas(fs: set<ExecFlag>, f: ExecFlag)
    ensures HasFlag(Mask(fs), f) <==> f in fs
  {
    AllFlagsListed(f);
    MaskOfHas(ALL_FLAGS, fs, f);
  }

  /** Requesting a set of capabilities and reading them back gives the same set. */
  lemma FlagsOfMask(fs: set<ExecFlag>)
    ensures Flags(Mask(fs)) == fs
  {
    forall f | f in fs
      ensures f in Flags(Mask(fs))
    {
      MaskHas(fs, f);
      AllFlagsListed(f);
    }
    forall f | f in Flags(Mask(fs))
      ensures f in fs
    {
      MaskHas(fs, f);
    }
  }

  /** Only the seven defined bits carry meaning: two eflags values that agree on
      them request the same capabilities. */
  lemma FlagsIgnoreUndefinedBits(eflags: EFlags)
    ensures Flags(eflags) == Flags(eflags & DEFINED_BITS)
  {
    forall f: ExecFlag
      ensures HasFlag(eflags, f) <==> HasFlag(eflags & DEFINED_BITS, f)
    {
      assert Bit(f) & DEFINED_BITS == Bit(f);
    }
  }

  /** EXPLAIN_GENERIC may only be given together with EXPLAIN_ONLY. */
  predicate ValidEFlags(eflags: EFlags) {
    HasFlag(eflags, ExplainGeneric) ==> HasFlag(eflags, ExplainOnly)
  }

  lemma ValidMask(fs: set<ExecFlag>)
    ensures ValidEFlags(Mask(fs)) <==> (ExplainGeneric in fs ==> ExplainOnly in fs)
  {
    MaskHas(fs, ExplainGeneric);
    MaskHas(fs, ExplainOnly);
  }
}
