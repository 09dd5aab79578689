/**
 A composition while it is typed, given results out of order: of the newest
 result nothing is left to merge but an output held back behind an open list.
 */
module Absorbing {
  import opened Wrappers
  import opened Bopomofo
  import opened Buffers
  import opened BufferHistory
  import opened CandidateLocks
  import opened Merging

  function LastSequence(rs: seq<Result>): nat {
    if rs == [] then 0
    else
      var before, last := LastSequence(rs[..|rs| - 1]), rs[|rs| - 1].sequence;
      if before < last then last else before
  }

  // The result has nothing to change of the entry any more.
  predicate Absorbs(x: Entry, r: Result, k: nat)
    requires k < |r.requested| == |r.converted|
  {
    !Lands(x, r.sequence, r.requested[k], r.converted[k]) || Converted(x, r.sequence, r.converted[k]) == x
  }

  predicate HoldsOutput(held: Option<Held>, r: Result, k: nat)
    requires k < |r.requested| == |r.converted|
  {
    held == Some(Held(r.sequence, r.requested[k], r.converted[k]))
  }

  // All of the result is merged, but an output held back.
  predicate MergedBut(s: seq<Entry>, r: Result, held: Option<Held>) {
    |r.requested| == |r.converted| ==>
      forall k: nat, x: Entry :: k < |r.requested| && x in s && x.id == r.requested[k].id ==> Absorbs(x, r, k) || HoldsOutput(held, r, k)
  }

  predicate NewestMerged(s: seq<Entry>, rs: seq<Result>, held: Option<Held>) {
    forall w <- rs :: w.sequence == LastSequence(rs) ==> MergedBut(s, w, held)
  }

  // What is held is an output of a result given.
  predicate HeldTold(held: Option<Held>, rs: seq<Result>) {
    held.Some? ==> exists r: Result, k: nat :: r in rs && k < |r.requested| == |r.converted| && HoldsOutput(held, r, k)
  }

  predicate ConvertedUpTo(s: seq<Entry>, sequence: nat) {
    forall x <- s :: x.convertedBy <= sequence
  }

  // What a result was asked for is of the buffer, and of older results' requests.
  predicate InTurn(rs: seq<Result>, s: seq<Entry>) {
    && (forall r <- rs :: Proper(r) && Succeeds(r.requested, s))
    && (forall r <- rs, w <- rs :: r.sequence < w.sequence ==> Succeeds(r.requested, w.requested))
  }

  lemma {:induction false} LastIsNewest(rs: seq<Result>)
    ensures forall r <- rs :: r.sequence <= LastSequence(rs)
    ensures rs != [] ==> exists w <- rs :: w.sequence == LastSequence(rs)
  {
    if rs != [] {
      var front, last := rs[..|rs| - 1], rs[|rs| - 1];
      LastIsNewest(front);
      assert last in rs && forall r <- front :: r in rs;
      assert forall r <- rs :: r in front || r == last;
    }
  }

  lemma LastAppended(rs: seq<Result>, r: Result)
    ensures LastSequence(rs + [r]) == if LastSequence(rs) < r.sequence then r.sequence else LastSequence(rs)
  {
    assert (rs + [r])[..|rs|] == rs;
  }

  lemma SameResult(rs: seq<Result>, a: Result, b: Result)
    requires DistinctSequences(rs) && a in rs && b in rs && a.sequence == b.sequence
    ensures a == b
  {
    var i :| 0 <= i < |rs| && rs[i] == a;
    var j :| 0 <= j < |rs| && rs[j] == b;
  }

  lemma SameIndex(s: seq<Entry>, i: nat, j: nat)
    requires UniqueIds(s) && i < |s| && j < |s| && s[i].id == s[j].id
    ensures i == j
  {
  }

  // ---- edits -------------------------------------------------------------------------

  lemma RevisedMerged(b: Buffer, r: Buffer, w: Result, held: Option<Held>)
    requires MergedBut(b.entries, w, held) && Revises(b, r)
    requires Succeeds(w.requested, b.entries) && forall e <- w.requested :: e.id < b.nextId
    ensures MergedBut(r.entries, w, held)
  {
    if |w.requested| == |w.converted| {
      forall k: nat, x: Entry | k < |w.requested| && x in r.entries && x.id == w.requested[k].id
        ensures Absorbs(x, w, k) || HoldsOutput(held, w, k)
      {
        assert w.requested[k] in w.requested;
        if x !in b.entries {
          var y :| y in b.entries && y.id == x.id && y.version < x.version && (x.convertedBy == y.convertedBy || x.convertedBy == 0);
          assert Later(w.requested[k], y);
        }
      }
    }
  }

  lemma AcceptedMerged(s: seq<Entry>, w: Result, held: Option<Held>)
    requires MergedBut(s, w, held)
    ensures MergedBut(AcceptLocal(s), w, held)
  {
    if |w.requested| == |w.converted| {
      var r := AcceptLocal(s);
      forall k: nat, x: Entry | k < |w.requested| && x in r && x.id == w.requested[k].id
        ensures Absorbs(x, w, k) || HoldsOutput(held, w, k)
      {
        var i :| 0 <= i < |r| && r[i] == x;
        assert s[i] in s;
        assert Absorbs(s[i], w, k) || HoldsOutput(held, w, k);
      }
    }
  }

  lemma RevisedUpTo(b: Buffer, r: Buffer, sequence: nat)
    requires ConvertedUpTo(b.entries, sequence) && Revises(b, r)
    ensures ConvertedUpTo(r.entries, sequence)
  {
  }

  // ---- a result --------------------------------------------------------------------------

  // An older result that still lands takes nothing from a newer one.
  lemma OlderLands(x: Entry, w: Result, k: nat, r: Result, j: nat)
    requires k < |w.requested| == |w.converted| && j < |r.requested| == |r.converted| && r.sequence < w.sequence
    requires Later(r.requested[j], w.requested[k]) && Later(w.requested[k], x) && Absorbs(x, w, k)
    requires Lands(x, r.sequence, r.requested[j], r.converted[j])
    ensures Absorbs(Buffers.Converted(x, r.sequence, r.converted[j]), w, k)
  {
  }

  // What the result makes of the entry at position i.
  function Outcome(item: Entry, r: Result, locked: Option<nat>): Entry {
    if locked != Some(item.id) && Hits(item, r) then Landed(item, r) else item
  }

  lemma OutcomeIs(b: Buffer, r: Result, locked: Option<nat>, i: nat)
    requires UniqueIds(b.entries) && Proper(r) && i < |b.entries|
    ensures var m := MergeConversion(b, r.sequence, r.requested, r.converted, locked).buffer;
            |m.entries| == |b.entries| && m == b.(entries := m.entries) && m.entries[i] == Outcome(b.entries[i], r, locked)
  {
    MergeByEntry(b, r, locked);
    MergeEntryIs(b.entries[i], r);
    if locked.Some? {
      LockedWaits(b.entries[i], r, locked.value);
    }
  }

  // The result itself, merged into an entry.
  lemma NewestLands(item: Entry, r: Result, locked: Option<nat>, k: nat, held: Option<Held>)
    requires Proper(r) && k < |r.requested| == |r.converted| && item.id == r.requested[k].id
    requires locked == Some(item.id) && Hits(item, r) ==> HoldsOutput(held, r, k)
    ensures Absorbs(Outcome(item, r, locked), r, k) || HoldsOutput(held, r, k)
  {
    SameIndex(r.requested, Asked(item, r), k);
  }

  lemma OlderOutcome(item: Entry, r: Result, locked: Option<nat>, w: Result, k: nat, s: seq<Entry>)
    requires k < |w.requested| == |w.converted| && item.id == w.requested[k].id && r.sequence < w.sequence && item in s
    requires Succeeds(r.requested, w.requested) && Succeeds(w.requested, s) && Absorbs(item, w, k)
    ensures Absorbs(Outcome(item, r, locked), w, k)
  {
    if Outcome(item, r, locked) != item {
      var j := Asked(item, r);
      assert r.requested[j] in r.requested && w.requested[k] in w.requested;
      OlderLands(item, w, k, r, j);
    }
  }

  // What is held of the results so far, and now of this one.
  function HeldNow(lock: Lock, r: Result, held: Option<(Entry, Output)>): Lock {
    if held.None? then lock else Holding(lock, Held(r.sequence, held.value.0, held.value.1))
  }

  lemma HeldOfLocked(b: Buffer, r: Result, lock: Lock, i: nat)
    requires UniqueIds(b.entries) && Proper(r) && i < |b.entries| && lock.entry == Some(b.entries[i].id) && Hits(b.entries[i], r)
    requires lock.held.Some? ==> lock.held.value.sequence < r.sequence
    ensures var m := MergeConversion(b, r.sequence, r.requested, r.converted, lock.entry);
            HoldsOutput(HeldNow(lock, r, m.held).held, r, Asked(b.entries[i], r))
  {
    ResultHolds(b, r, i);
  }

  lemma {:induction false} HeldFromResult(b: Buffer, sequence: nat, requested: seq<Entry>, converted: seq<Output>,
                                          locked: Option<nat>, k: nat, changed: bool, held: Option<(Entry, Output)>)
    requires |requested| == |converted| && k <= |requested|
    ensures var h := MergeFrom(b, sequence, requested, converted, locked, k, changed, held).held;
            h == held || exists j :: 0 <= j < |requested| && h == Some((requested[j], converted[j]))
    decreases |requested| - k
  {
    if k < |requested| {
      var position := IndexOf(b.entries, requested[k].id);
      if position == |b.entries| || !Lands(b.entries[position], sequence, requested[k], converted[k]) {
        HeldFromResult(b, sequence, requested, converted, locked, k + 1, changed, held);
      } else if locked == Some(requested[k].id) {
        HeldFromResult(b, sequence, requested, converted, locked, k + 1, changed, Some((requested[k], converted[k])));
      } else {
        var r := b.(entries := b.entries[position := Buffers.Converted(b.entries[position], sequence, converted[k])]);
        HeldFromResult(r, sequence, requested, converted, locked, k + 1, true, held);
      }
    }
  }

  lemma StillHeldTold(b: Buffer, r: Result, lock: Lock, rs: seq<Result>)
    requires HeldTold(lock.held, rs)
    ensures var m := MergeConversion(b, r.sequence, r.requested, r.converted, lock.entry);
            HeldTold(HeldNow(lock, r, m.held).held, rs + [r])
  {
    var m := MergeConversion(b, r.sequence, r.requested, r.converted, lock.entry);
    var now := HeldNow(lock, r, m.held).held;
    if now == lock.held {
      if now.Some? {
        var x: Result, k: nat :| x in rs && k < |x.requested| == |x.converted| && HoldsOutput(lock.held, x, k);
        assert x in rs + [r];
      }
    } else {
      HeldFromResult(b, r.sequence, r.requested, r.converted, lock.entry, 0, false, None);
      var j :| 0 <= j < |r.requested| && m.held == Some((r.requested[j], r.converted[j]));
      assert r in rs + [r] && HoldsOutput(now, r, j);
    }
  }

  lemma HeldIsOlder(held: Option<Held>, rs: seq<Result>)
    requires HeldTold(held, rs)
    ensures held.Some? ==> held.value.sequence <= LastSequence(rs)
  {
    LastIsNewest(rs);
  }

  // The result is the newest: what it changes is merged, or held.
  lemma NewestApplied(b: Buffer, r: Result, lock: Lock)
    requires UniqueIds(b.entries) && Proper(r) && (lock.held.Some? ==> lock.held.value.sequence < r.sequence)
    ensures var m := MergeConversion(b, r.sequence, r.requested, r.converted, lock.entry);
            MergedBut(m.buffer.entries, r, HeldNow(lock, r, m.held).held)
  {
    var m := MergeConversion(b, r.sequence, r.requested, r.converted, lock.entry);
    var held := HeldNow(lock, r, m.held).held;
    if |r.requested| == |r.converted| {
      MergeByEntry(b, r, lock.entry);
      forall k: nat, x: Entry | k < |r.requested| && x in m.buffer.entries && x.id == r.requested[k].id
        ensures Absorbs(x, r, k) || HoldsOutput(held, r, k)
      {
        var i :| 0 <= i < |m.buffer.entries| && m.buffer.entries[i] == x;
        OutcomeIs(b, r, lock.entry, i);
        if lock.entry == Some(b.entries[i].id) && Hits(b.entries[i], r) {
          SameIndex(r.requested, Asked(b.entries[i], r), k);
          HeldOfLocked(b, r, lock, i);
        }
        NewestLands(b.entries[i], r, lock.entry, k, held);
      }
    }
  }

  // The result is older than w, of which nothing is undone.
  lemma OlderApplied(b: Buffer, r: Result, lock: Lock, w: Result)
    requires UniqueIds(b.entries) && Proper(r) && r.sequence < w.sequence && MergedBut(b.entries, w, lock.held)
    requires Succeeds(r.requested, w.requested) && Succeeds(w.requested, b.entries)
    ensures var m := MergeConversion(b, r.sequence, r.requested, r.converted, lock.entry);
            MergedBut(m.buffer.entries, w, HeldNow(lock, r, m.held).held)
  {
    var m := MergeConversion(b, r.sequence, r.requested, r.converted, lock.entry);
    var held := HeldNow(lock, r, m.held).held;
    if |w.requested| == |w.converted| {
      MergeByEntry(b, r, lock.entry);
      forall k: nat, x: Entry | k < |w.requested| && x in m.buffer.entries && x.id == w.requested[k].id
        ensures Absorbs(x, w, k) || HoldsOutput(held, w, k)
      {
        var i :| 0 <= i < |m.buffer.entries| && m.buffer.entries[i] == x;
        OutcomeIs(b, r, lock.entry, i);
        assert b.entries[i] in b.entries;
        if HoldsOutput(lock.held, w, k) {
          assert held == lock.held;
        } else {
          OlderOutcome(b.entries[i], r, lock.entry, w, k, b.entries);
        }
      }
    }
  }

  lemma AppliedUpTo(b: Buffer, r: Result, locked: Option<nat>, sequence: nat)
    requires UniqueIds(b.entries) && Proper(r) && ConvertedUpTo(b.entries, sequence) && r.sequence <= sequence
    ensures ConvertedUpTo(MergeConversion(b, r.sequence, r.requested, r.converted, locked).buffer.entries, sequence)
  {
    var m := MergeConversion(b, r.sequence, r.requested, r.converted, locked).buffer;
    MergeByEntry(b, r, locked);
    forall x <- m.entries ensures x.convertedBy <= sequence {
      var i :| 0 <= i < |m.entries| && m.entries[i] == x;
      OutcomeIs(b, r, locked, i);
      assert b.entries[i] in b.entries;
    }
  }

  // After a result the newest is merged, but for what is held back.
  lemma StillNewestMerged(b: Buffer, rs: seq<Result>, r: Result, lock: Lock)
    requires UniqueIds(b.entries) && DistinctSequences(rs + [r]) && InTurn(rs + [r], b.entries)
    requires HeldTold(lock.held, rs) && NewestMerged(b.entries, rs, lock.held)
    ensures var m := MergeConversion(b, r.sequence, r.requested, r.converted, lock.entry);
            NewestMerged(m.buffer.entries, rs + [r], HeldNow(lock, r, m.held).held)
  {
    var all := rs + [r];
    LastAppended(rs, r);
    LastIsNewest(rs);
    HeldIsOlder(lock.held, rs);
    assert r in all && forall x <- rs :: x in all;
    forall w <- all | w.sequence == LastSequence(all)
      ensures var m := MergeConversion(b, r.sequence, r.requested, r.converted, lock.entry);
              MergedBut(m.buffer.entries, w, HeldNow(lock, r, m.held).held)
    {
      if w.sequence == r.sequence {
        SameResult(all, w, r);
        NotYetGiven(rs, r);
        NewestApplied(b, r, lock);
      } else {
        assert w in rs;
        OlderApplied(b, r, lock, w);
      }
    }
  }

  lemma NotYetGiven(rs: seq<Result>, r: Result)
    requires DistinctSequences(rs + [r])
    ensures forall x <- rs :: x.sequence != r.sequence
  {
    forall x <- rs ensures x.sequence != r.sequence {
      var i :| 0 <= i < |rs| && rs[i] == x;
      assert (rs + [r])[i] == x && (rs + [r])[|rs|] == r;
    }
  }

  // ---- the held output --------------------------------------------------------------------

  // The list is closed and the held output merged: nothing is held back any more.
  lemma ReleasedMerged(b: Buffer, rs: seq<Result>, held: Held)
    requires UniqueIds(b.entries) && DistinctSequences(rs) && InTurn(rs, b.entries)
    requires HeldTold(Some(held), rs) && NewestMerged(b.entries, rs, Some(held))
    ensures NewestMerged(MergeConversion(b, held.sequence, [held.requested], [held.converted], None).buffer.entries, rs, None)
  {
    var m := MergeConversion(b, held.sequence, [held.requested], [held.converted], None).buffer;
    forall w <- rs | w.sequence == LastSequence(rs) ensures MergedBut(m.entries, w, None) {
      ReleasedFor(b, rs, held, w);
    }
  }

  lemma ReleasedFor(b: Buffer, rs: seq<Result>, held: Held, w: Result)
    requires UniqueIds(b.entries) && DistinctSequences(rs) && InTurn(rs, b.entries) && w in rs && w.sequence == LastSequence(rs)
    requires HeldTold(Some(held), rs) && MergedBut(b.entries, w, Some(held))
    ensures MergedBut(MergeConversion(b, held.sequence, [held.requested], [held.converted], None).buffer.entries, w, None)
  {
    var one := Result(held.sequence, [held.requested], [held.converted]);
    var m := MergeConversion(b, held.sequence, [held.requested], [held.converted], None).buffer;
    LastIsNewest(rs);
    var r: Result, j: nat :| r in rs && j < |r.requested| == |r.converted| && HoldsOutput(Some(held), r, j);
    MergeByEntry(b, one, None);
    if |w.requested| == |w.converted| {
      forall k: nat, x: Entry | k < |w.requested| && x in m.entries && x.id == w.requested[k].id ensures Absorbs(x, w, k) {
        var i :| 0 <= i < |m.entries| && m.entries[i] == x;
        OutcomeIs(b, one, None, i);
        assert b.entries[i] in b.entries;
        ReleasedEntry(b, rs, held, w, k, r, j, b.entries[i]);
      }
    }
  }

  lemma ReleasedEntry(b: Buffer, rs: seq<Result>, held: Held, w: Result, k: nat, r: Result, j: nat, item: Entry)
    requires DistinctSequences(rs) && InTurn(rs, b.entries) && w in rs && r in rs && r.sequence <= w.sequence && item in b.entries
    requires k < |w.requested| == |w.converted| && j < |r.requested| == |r.converted| && HoldsOutput(Some(held), r, j)
    requires item.id == w.requested[k].id && (Absorbs(item, w, k) || HoldsOutput(Some(held), w, k))
    ensures Absorbs(Outcome(item, Result(held.sequence, [held.requested], [held.converted]), None), w, k)
  {
    var one := Result(held.sequence, [held.requested], [held.converted]);
    if Outcome(item, one, None) != item {
      assert Asked(item, one) == 0;
      if r.sequence == w.sequence {
        SameResult(rs, r, w);
        SameIndex(w.requested, j, k);
      } else {
        assert r.requested[j] in r.requested && w.requested[k] in w.requested;
        OlderLands(item, w, k, r, j);
      }
    } else if HoldsOutput(Some(held), w, k) {
      assert Asked(item, one) == 0;
    }
  }

  // ---- what was fixed --------------------------------------------------------------------------

  // Outputs are marked as chosen only where the text asked for was fixed.
  predicate Regular(requested: seq<Entry>, converted: seq<Output>) {
    |requested| == |converted| ==> forall k :: 0 <= k < |requested| && converted[k].chosen ==> requested[k].chosen
  }

  // What is fixed under the version that was sent was fixed when it was sent.
  predicate NoneFixed(sent: seq<Entry>, s: seq<Entry>) {
    forall e <- sent, x <- s :: e.id == x.id && e.version == x.version && x.chosen ==> e.chosen
  }

  lemma RevisedFixed(sent: seq<Entry>, b: Buffer, r: Buffer)
    requires NoneFixed(sent, b.entries) && Succeeds(sent, b.entries) && Revises(b, r) && forall e <- sent :: e.id < b.nextId
    ensures NoneFixed(sent, r.entries)
  {
    forall e <- sent, x <- r.entries | e.id == x.id && x !in b.entries ensures e.version < x.version {
      var y :| y in b.entries && y.id == x.id && y.version < x.version && (x.convertedBy == y.convertedBy || x.convertedBy == 0);
      assert Later(e, y);
    }
  }

  lemma AppliedFixed(sent: seq<Entry>, b: Buffer, r: Result, locked: Option<nat>)
    requires UniqueIds(b.entries) && Proper(r) && NoneFixed(sent, b.entries) && Regular(r.requested, r.converted)
    requires Succeeds(r.requested, b.entries)
    ensures NoneFixed(sent, MergeConversion(b, r.sequence, r.requested, r.converted, locked).buffer.entries)
  {
    var m := MergeConversion(b, r.sequence, r.requested, r.converted, locked).buffer;
    MergeByEntry(b, r, locked);
    forall e <- sent, x <- m.entries | e.id == x.id && e.version == x.version && x.chosen ensures e.chosen {
      var i :| 0 <= i < |m.entries| && m.entries[i] == x;
      OutcomeIs(b, r, locked, i);
      assert b.entries[i] in b.entries;
      RegularOutcome(b.entries[i], r, locked, b.entries);
    }
  }

  lemma RegularOutcome(item: Entry, r: Result, locked: Option<nat>, s: seq<Entry>)
    requires Regular(r.requested, r.converted) && Succeeds(r.requested, s) && item in s
    ensures var x := Outcome(item, r, locked); x.id == item.id && x.version == item.version && x.chosen == item.chosen
  {
    if Outcome(item, r, locked) != item {
      assert r.requested[Asked(item, r)] in r.requested;
      assert Later(r.requested[Asked(item, r)], item);
    }
  }

  lemma AcceptedFixed(sent: seq<Entry>, s: seq<Entry>)
    requires NoneFixed(sent, s)
    ensures NoneFixed(sent, AcceptLocal(s))
  {
    var r := AcceptLocal(s);
    forall e <- sent, x <- r | e.id == x.id && e.version == x.version && x.chosen ensures e.chosen {
      var i :| 0 <= i < |r| && r[i] == x;
      assert s[i] in s;
    }
  }
}
