/**
 The bounded queue as it runs when one call at a time uses it: first in, first
 out, with its cells and counters updated in place. The interleavings of many
 calls are in MpmcQueue.
 */
module BoundedMpmcQueues {
  import opened Wrappers
  import opened MpmcQueue
  import opened MpmcSteps

  class BoundedMpmcQueue {
    const sequences: array<nat>
    const values: array<Option<Value>>
    var enqueuePosition: nat
    var dequeuePosition: nat
    // What waits to be popped, oldest first.
    ghost var contents: seq<Value>

    ghost predicate Valid()
      reads this, sequences, values
    {
      && sequences.Length == values.Length >= 2
      && dequeuePosition <= enqueuePosition == dequeuePosition + |contents| && |contents| <= values.Length
      && (forall t: nat :: dequeuePosition <= t < enqueuePosition ==>
            sequences[Slot(t, values.Length)] == t + 1 && values[Slot(t, values.Length)] == Some(contents[t - dequeuePosition]))
      && (forall t: nat :: enqueuePosition <= t < dequeuePosition + values.Length ==>
            sequences[Slot(t, values.Length)] == t && values[Slot(t, values.Length)].None?)
    }

    constructor (capacity: nat)
      requires capacity >= 2
      ensures Valid() && contents == [] && values.Length == capacity && fresh(sequences) && fresh(values)
    {
      sequences := new nat[capacity];
      values := new Option<Value>[capacity](_ => None);
      enqueuePosition, dequeuePosition, contents := 0, 0, [];
      new;
      var index: nat := 0;
      while index < capacity
        invariant index <= capacity && enqueuePosition == dequeuePosition == |contents| == 0
        invariant forall k :: 0 <= k < index ==> sequences[k] == k
        invariant forall k :: 0 <= k < capacity ==> values[k] == None
        modifies sequences
      {
        sequences[index] := index;
        index := index + 1;
      }
    }

    // What the cell of the next ticket to push, or to pop, shows.
    lemma NextCells()
      requires Valid()
      ensures var s := sequences[Slot(enqueuePosition, values.Length)];
        if enqueuePosition < dequeuePosition + values.Length then s == enqueuePosition else s < enqueuePosition
      ensures var s := sequences[Slot(dequeuePosition, values.Length)];
        if dequeuePosition < enqueuePosition then s == dequeuePosition + 1 else s == dequeuePosition
    {
      SlotAround(dequeuePosition, values.Length);
    }

    // spurious: how often the weak compare-and-exchange will fail for no reason.
    method TryPush(value: Value, spurious: nat) returns (ok: bool)
      requires Valid()
      modifies this, sequences, values
      ensures Valid() && ok == (|old(contents)| < values.Length)
      ensures contents == if ok then old(contents) + [value] else old(contents)
    {
      var failures: nat, position := spurious, enqueuePosition;
      NextCells();
      while true
        invariant position == enqueuePosition == old(enqueuePosition)
        decreases failures
        modifies this`enqueuePosition
      {
        var sequence := sequences[Slot(position, values.Length)];
        if sequence == position && failures == 0 {
          enqueuePosition := position + 1;
          break;
        } else if sequence < position {
          return false;
        } else {
          position := enqueuePosition;
        }
        failures := failures - 1;
      }
      RoundApart(position);
      var cell := Slot(position, values.Length);
      values[cell] := Some(value);
      sequences[cell] := position + 1;
      contents := contents + [value];
      ok := true;
    }

    // The cells of two tickets of one round are different.
    lemma RoundApart(p: nat)
      requires values.Length >= 2 && dequeuePosition <= p < dequeuePosition + values.Length
      ensures forall t: nat :: dequeuePosition <= t < dequeuePosition + values.Length && t != p ==>
        Slot(t, values.Length) != Slot(p, values.Length)
    {
      forall t: nat | dequeuePosition <= t < dequeuePosition + values.Length && t != p
        ensures Slot(t, values.Length) != Slot(p, values.Length)
      {
        if Slot(t, values.Length) == Slot(p, values.Length) {
          SameSlot(if t < p then t else p, if t < p then p else t, values.Length);
        }
      }
    }

    method TryPop(spurious: nat) returns (value: Option<Value>)
      requires Valid()
      modifies this, sequences, values
      ensures Valid() && value.Some? == (old(contents) != [])
      ensures old(contents) == if value.Some? then [value.value] + contents else contents
    {
      var failures: nat, position := spurious, dequeuePosition;
      NextCells();
      RoundApart(position);
      while true
        invariant position == dequeuePosition == old(dequeuePosition)
        decreases failures
        modifies this`dequeuePosition
      {
        var sequence := sequences[Slot(position, values.Length)];
        if sequence == position + 1 && failures == 0 {
          dequeuePosition := position + 1;
          break;
        } else if sequence < position + 1 {
          return None;
        } else {
          position := dequeuePosition;
        }
        failures := failures - 1;
      }
      var taken := TakeCell(position);
      value := Some(taken);
    }

    // The second half of a pop: the value, then the sequence that releases the cell.
    method TakeCell(position: nat) returns (value: Value)
      requires sequences.Length == values.Length >= 2 && dequeuePosition == position + 1
      requires 0 < |contents| <= values.Length && enqueuePosition == position + |contents|
      requires forall t: nat :: position <= t < enqueuePosition ==>
        sequences[Slot(t, values.Length)] == t + 1 && values[Slot(t, values.Length)] == Some(contents[t - position])
      requires forall t: nat :: enqueuePosition <= t < position + values.Length ==>
        sequences[Slot(t, values.Length)] == t && values[Slot(t, values.Length)].None?
      requires forall t: nat :: position < t < position + values.Length ==> Slot(t, values.Length) != Slot(position, values.Length)
      modifies this`contents, sequences, values
      ensures Valid() && old(contents) == [value] + contents
    {
      var cell := Slot(position, values.Length);
      value := values[cell].value;
      SlotAround(position, values.Length);
      values[cell] := None;
      sequences[cell] := position + values.Length;
      contents := contents[1..];
    }
  }
}
