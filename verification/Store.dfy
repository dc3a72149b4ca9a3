/** The persistence contract and its in-memory implementation (store.rs). */
module Store {
  import opened Wrappers
  import opened Models

  class MemoryBoltzStorage {
    var swaps: map<string, Swap>
    var keyIndex: nat

    constructor ()
      ensures swaps == map[] && keyIndex == 0
    {
      swaps, keyIndex := map[], 0;
    }

    /** Insert or overwrite the whole row; the row's own id is its key. */
    method UpsertSwap(swap: Swap)
      modifies this`swaps
      ensures swaps == old(swaps)[swap.terms.id := swap]
    {
      swaps := swaps[swap.terms.id := swap];
    }

    method GetSwap(id: string) returns (swap: Option<Swap>)
      ensures swap == if id in swaps then Some(swaps[id]) else None
    {
      swap := if id in swaps then Some(swaps[id]) else None;
    }

    method ListActiveSwaps() returns (active: map<string, Swap>)
      ensures active == map id | id in swaps && !swaps[id].status.Terminal() :: swaps[id]
    {
      active := map id | id in swaps && !swaps[id].status.Terminal() :: swaps[id];
    }

    /** Reserve the next index: the counter is advanced before the old value is returned, and an
        exhausted 32-bit counter is an error that changes nothing. */
    method IncrementKeyIndex() returns (index: Option<nat>)
      modifies this`keyIndex
      ensures index == if old(keyIndex) + 1 <= U32_MAX then Some(old(keyIndex)) else None
      ensures keyIndex == if index.Some? then old(keyIndex) + 1 else old(keyIndex)
    {
      if keyIndex + 1 > U32_MAX { return None; }
      index := Some(keyIndex);
      keyIndex := keyIndex + 1;
    }
  }
}
