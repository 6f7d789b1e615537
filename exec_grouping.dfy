/** Access to the parts of a tuple hash table entry: the first tuple stored
    for the group, and the caller's extra per-entry space, which is laid out
    immediately before that tuple. Addresses are modelled as integers. */
module ExecGrouping {

  /** A 64-bit address; 0 is NULL. */
  newtype Address = x: int | 0 <= x < 0x1_0000_0000_0000_0000
  const NULL: Address := 0

  /** size_t */
  newtype Size = x: int | 0 <= x < 0x1_0000_0000_0000_0000

  /** The table's additionalsize: the extra bytes requested per entry from BuildTupleHashTable. */
  datatype TupleHashTable = TupleHashTable(additionalsize: Size)

  /** An entry; firstTuple points at its stored MinimalTuple. */
  datatype TupleHashEntry = TupleHashEntry(firstTuple: Address)

  /** When there is extra space, the entry's block (the extra space, then the
      tuple) starts at a real, non-NULL address. */
  predicate WellPlaced(hashtable: TupleHashTable, entry: TupleHashEntry) {
    hashtable.additionalsize > 0 ==> hashtable.additionalsize as int < entry.firstTuple as int
  }

  /** TupleHashEntryGetTuple: the tuple stored for the entry's group. */
  function TupleHashEntryGetTuple(entry: TupleHashEntry): (tuple: Address)
    ensures tuple == entry.firstTuple
  {
    entry.firstTuple
  }

  /** TupleHashEntryGetAdditional: the start of the entry's extra space, or
      NULL when the table was built without any. */
  function TupleHashEntryGetAdditional(hashtable: TupleHashTable, entry: TupleHashEntry): (p: Address)
    requires WellPlaced(hashtable, entry)
    ensures p == NULL <==> hashtable.additionalsize == 0
    ensures p != NULL ==> p as int + hashtable.additionalsize as int == entry.firstTuple as int
  {
    if hashtable.additionalsize > 0 then
      (entry.firstTuple as int - hashtable.additionalsize as int) as Address
    else
      NULL
  }

  /** The extra space ends exactly where the entry's tuple begins: every byte
      of it lies before the tuple, so writing it never touches the tuple. */
  lemma AdditionalPrecedesTuple(hashtable: TupleHashTable, entry: TupleHashEntry, offset: int)
    requires WellPlaced(hashtable, entry)
    requires hashtable.additionalsize > 0 && 0 <= offset < hashtable.additionalsize as int
    ensures TupleHashEntryGetAdditional(hashtable, entry) as int + offset < TupleHashEntryGetTuple(entry) as int
    ensures TupleHashEntryGetAdditional(hashtable, entry) as int + hashtable.additionalsize as int
         == TupleHashEntryGetTuple(entry) as int
  {
  }
}
