/**
 * The in-memory receipt store: a table from receipt id to points, written by
 * the process handler and read by the points handler.  Reading goes through
 * `|| null`, so an entry holding 0 reads back exactly like a missing one.
 */
module Storage {
  import opened Wrappers

  /**
   * What a read of `id` returns for the table `receipts`: the stored points
   * when there are some, `None` (the source's `null`) when the id is absent
   * or its points are 0.
   */
  function Lookup(receipts: map<string, int>, id: string): Option<int> {
    if id in receipts && receipts[id] != 0 then Some(receipts[id]) else None
  }

  /** A read finds points exactly when the id was stored with non-zero points. */
  lemma {:induction false} LookupFinds(receipts: map<string, int>, id: string, points: int)
    ensures Lookup(receipts, id) == Some(points)
      <==> id in receipts && receipts[id] == points && points != 0
  {
  }

  /** Saving non-zero points makes the next read of that id return them. */
  lemma {:induction false} LookupAfterSave(receipts: map<string, int>, id: string, points: int)
    requires points != 0
    ensures Lookup(receipts[id := points], id) == Some(points)
  {
  }

  /** An id that was never saved reads as `None`. */
  lemma {:induction false} LookupNeverSaved(receipts: map<string, int>, id: string)
    requires id !in receipts
    ensures Lookup(receipts, id) == None
  {
  }

  /** Saving under one id leaves the reads of every other id as they were. */
  lemma {:induction false} SaveLeavesOthers(receipts: map<string, int>, id: string, points: int, other: string)
    requires other != id
    ensures Lookup(receipts[id := points], other) == Lookup(receipts, other)
  {
  }

  /** Saving twice under one id: the second save wins, for every later read. */
  lemma {:induction false} LastWriteWins(receipts: map<string, int>, id: string, first: int, second: int, key: string)
    ensures Lookup(receipts[id := first][id := second], key) == Lookup(receipts[id := second], key)
  {
  }

  /** Stored zero points read back as `None`, the same answer as for an unknown id. */
  lemma {:induction false} ZeroReadsAsMissing(receipts: map<string, int>, id: string)
    ensures Lookup(receipts[id := 0], id) == None
    ensures Lookup(receipts[id := 0], id) == Lookup(receipts - {id}, id)
  {
  }

  /** The module-level `receipts` Map and its two operations. */
  class ReceiptStore {
    var receipts: map<string, int>

    /** The Map starts empty when the module is loaded. */
    constructor()
      ensures receipts == map[]
    {
      receipts := map[];
    }

    /** `saveReceipt`: `Map.set`, adding the id or overwriting its points. */
    method Save(id: string, points: int)
      modifies this
      ensures receipts == old(receipts)[id := points]
    {
      receipts := receipts[id := points];
    }

    /** `getReceiptPoints`: `Map.get`, then `|| null`, which maps 0 and a miss alike to null. */
    method Get(id: string) returns (r: Option<int>)
      ensures r.Some? <==> id in receipts && receipts[id] != 0
      ensures r.Some? ==> r.value == receipts[id]
      ensures r == Lookup(receipts, id)
    {
      var found: Option<int> := if id in receipts then Some(receipts[id]) else None;
      if found.Some? && found.value != 0 {
        r := found;
      } else {
        r := None;
      }
    }
  }
}
