/**
 The lock an open candidate list puts on its entry, and the one result kept
 for that entry until the list closes.
 */
module CandidateLocks {
  import opened Wrappers
  import opened Bopomofo
  import opened Buffers

  datatype Held = Held(sequence: nat, requested: Entry, converted: Output)

  datatype Lock = Lock(entry: Option<nat>, held: Option<Held>)

  function Opened(l: Lock, entry: nat): Lock {
    l.(entry := Some(entry))
  }

  // Of two results for the entry the one sent later is kept.
  function Holding(l: Lock, held: Held): Lock {
    if l.held.Some? && l.held.value.sequence > held.sequence then l else l.(held := Some(held))
  }

  const UNLOCKED := Lock(None, None)

  class CandidateLock {
    var entry: Option<nat>
    var held: Option<Held>

    function Value(): Lock
      reads this
    {
      Lock(entry, held)
    }

    constructor ()
      ensures Value() == UNLOCKED
    {
      entry, held := None, None;
    }

    method Open(e: nat)
      modifies this
      ensures Value() == Opened(old(Value()), e)
    {
      entry := Some(e);
    }

    method Hold(sequence: nat, requested: Entry, converted: Output)
      modifies this
      ensures Value() == Holding(old(Value()), Held(sequence, requested, converted))
    {
      if held.Some? && held.value.sequence > sequence {
        return;
      }
      held := Some(Held(sequence, requested, converted));
    }

    // Empties the lock and hands out what it kept.
    method Close() returns (released: Option<Held>)
      modifies this
      ensures Value() == UNLOCKED && released == old(Value()).held
    {
      entry := None;
      released := held;
      held := None;
    }
  }
}
