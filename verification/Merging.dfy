/**
 Conversion results reach the buffer in any order. What an entry ends with
 depends only on which results there were.
 */
module Merging {
  import opened Wrappers
  import opened Bopomofo
  import opened Buffers
  import opened BufferProofs
  import opened CandidateLocks

  // ---- one entry at a time ---------------------------------------------------

  function MergeEntryFrom(item: Entry, r: Result, locked: Option<nat>, k: nat): Entry
    requires |r.requested| == |r.converted| && k <= |r.requested|
    decreases |r.requested| - k
  {
    if k == |r.requested| then item
    else if r.requested[k].id == item.id && locked != Some(item.id) && Lands(item, r.sequence, r.requested[k], r.converted[k]) then
      MergeEntryFrom(Converted(item, r.sequence, r.converted[k]), r, locked, k + 1)
    else MergeEntryFrom(item, r, locked, k + 1)
  }

  lemma {:induction false} MergeFromByEntry(b: Buffer, r: Result, locked: Option<nat>, k: nat,
                                            changed: bool, held: Option<(Entry, Output)>)
    requires |r.requested| == |r.converted| && k <= |r.requested| && UniqueIds(b.entries)
    ensures var m := MergeFrom(b, r.sequence, r.requested, r.converted, locked, k, changed, held).buffer;
            && m == b.(entries := m.entries) && |m.entries| == |b.entries|
            && forall i :: 0 <= i < |b.entries| ==> m.entries[i] == MergeEntryFrom(b.entries[i], r, locked, k)
    decreases |r.requested| - k
  {
    if k < |r.requested| {
      var position := IndexOf(b.entries, r.requested[k].id);
      if position == |b.entries| || !Lands(b.entries[position], r.sequence, r.requested[k], r.converted[k]) {
        MergeFromByEntry(b, r, locked, k + 1, changed, held);
      } else if locked == Some(r.requested[k].id) {
        MergeFromByEntry(b, r, locked, k + 1, changed, Some((r.requested[k], r.converted[k])));
      } else {
        var item := Converted(b.entries[position], r.sequence, r.converted[k]);
        MergeFromByEntry(b.(entries := b.entries[position := item]), r, locked, k + 1, true, held);
      }
    }
  }

  // ---- several results, in any order ---------------------------------------------

  // A snapshot was asked for. A result of another size than its request changes nothing.
  predicate Proper(r: Result) {
    UniqueIds(r.requested)
  }

  predicate AllProper(rs: seq<Result>) {
    forall i :: 0 <= i < |rs| ==> Proper(rs[i])
  }

  function MergeEntry(item: Entry, r: Result, locked: Option<nat>): Entry {
    if |r.requested| == |r.converted| then MergeEntryFrom(item, r, locked, 0) else item
  }

  // A result merges into each entry by itself.
  lemma MergeByEntry(b: Buffer, r: Result, locked: Option<nat>)
    requires UniqueIds(b.entries)
    ensures var m := MergeConversion(b, r.sequence, r.requested, r.converted, locked).buffer;
            && m == b.(entries := m.entries) && |m.entries| == |b.entries|
            && forall i :: 0 <= i < |b.entries| ==> m.entries[i] == MergeEntry(b.entries[i], r, locked)
  {
    if |r.requested| == |r.converted| {
      MergeFromByEntry(b, r, locked, 0, false, None);
    }
  }

  // Position of the request for this item, or the length.
  function Asked(item: Entry, r: Result): (k: nat)
    ensures k <= |r.requested|
  {
    IndexOf(r.requested, item.id)
  }

  predicate Hits(item: Entry, r: Result) {
    Asked(item, r) < |r.requested| == |r.converted| && Lands(item, r.sequence, r.requested[Asked(item, r)], r.converted[Asked(item, r)])
  }

  // The output of the result for this item is marked as chosen.
  predicate BringsChosen(item: Entry, r: Result)
    requires Hits(item, r)
  {
    r.converted[Asked(item, r)].chosen
  }

  function Landed(item: Entry, r: Result): Entry
    requires Hits(item, r)
  {
    Converted(item, r.sequence, r.converted[Asked(item, r)])
  }

  lemma {:induction false} MergeEntryOnce(item: Entry, r: Result, k: nat)
    requires Proper(r) && k <= |r.requested| == |r.converted|
    ensures MergeEntryFrom(item, r, None, k) == if k <= Asked(item, r) && Hits(item, r) then Landed(item, r) else item
    decreases |r.requested| - k
  {
    if k < |r.requested| {
      var asked := Asked(item, r);
      if r.requested[k].id == item.id {
        assert asked == k;
        if Hits(item, r) {
          var landed := Landed(item, r);
          assert Asked(landed, r) == k;
          MergeEntryOnce(landed, r, k + 1);
        } else {
          MergeEntryOnce(item, r, k + 1);
        }
      } else {
        MergeEntryOnce(item, r, k + 1);
      }
    }
  }

  lemma MergeEntryIs(item: Entry, r: Result)
    requires Proper(r)
    ensures MergeEntry(item, r, None) == if Hits(item, r) then Landed(item, r) else item
  {
    if |r.requested| == |r.converted| {
      MergeEntryOnce(item, r, 0);
    }
  }

  function MergeEntryAll(item: Entry, rs: seq<Result>): Entry
    decreases |rs|
  {
    if rs == [] then item else MergeEntryAll(MergeEntry(item, rs[0], None), rs[1..])
  }

  function MergeAll(b: Buffer, rs: seq<Result>): Buffer
    decreases |rs|
  {
    if rs == [] then b
    else MergeAll(MergeConversion(b, rs[0].sequence, rs[0].requested, rs[0].converted, None).buffer, rs[1..])
  }

  lemma {:induction false} MergeAllByEntry(b: Buffer, rs: seq<Result>)
    requires UniqueIds(b.entries) && AllProper(rs)
    ensures var m := MergeAll(b, rs);
            && m == b.(entries := m.entries) && |m.entries| == |b.entries|
            && forall i :: 0 <= i < |b.entries| ==> m.entries[i] == MergeEntryAll(b.entries[i], rs)
    decreases |rs|
  {
    if rs != [] {
      var m := MergeConversion(b, rs[0].sequence, rs[0].requested, rs[0].converted, None).buffer;
      MergeByEntry(b, rs[0], None);
      forall i | 0 <= i < |b.entries| ensures m.entries[i].id == b.entries[i].id {
        MergeEntryIs(b.entries[i], rs[0]);
      }
      MergeAllByEntry(m, rs[1..]);
    }
  }

  // w is the newest of the results for the entry as it is now.
  predicate Newest(item: Entry, rs: seq<Result>, w: Result) {
    w in rs && Hits(item, w) && forall r <- rs :: Hits(item, r) ==> r.sequence <= w.sequence
  }

  predicate DistinctSequences(rs: seq<Result>) {
    forall i, j :: 0 <= i < j < |rs| ==> rs[i].sequence != rs[j].sequence
  }

  lemma HitsAfter(item: Entry, first: Result, r: Result)
    requires Proper(first) && Proper(r) && Hits(item, first)
    ensures Hits(Landed(item, first), r) <==> Hits(item, r) && first.sequence <= r.sequence && !BringsChosen(item, first)
    ensures Hits(Landed(item, first), r) ==>
      Landed(Landed(item, first), r) == Landed(item, r) && BringsChosen(Landed(item, first), r) == BringsChosen(item, r)
  {
    assert Asked(Landed(item, first), r) == Asked(item, r);
  }

  // No result touches an entry edited or chosen since it was asked for.
  lemma {:induction false} NothingHits(item: Entry, rs: seq<Result>)
    requires AllProper(rs) && forall r <- rs :: !Hits(item, r)
    ensures MergeEntryAll(item, rs) == item
  {
    if rs != [] {
      MergeEntryIs(item, rs[0]);
      NothingHits(item, rs[1..]);
    }
  }

  // A chosen output that arrives before anything newer: the entry takes no other after it.
  predicate Stops(item: Entry, rs: seq<Result>, i: nat) {
    && i < |rs| && Hits(item, rs[i]) && BringsChosen(item, rs[i])
    && forall j :: 0 <= j < i && Hits(item, rs[j]) ==> rs[j].sequence < rs[i].sequence
  }

  // After the first result has landed, what stops the rest is what stops all.
  lemma StopsAfter(item: Entry, rs: seq<Result>, i: nat)
    requires AllProper(rs) && DistinctSequences(rs) && 0 < i < |rs| && Hits(item, rs[0]) && !BringsChosen(item, rs[0])
    ensures Stops(Landed(item, rs[0]), rs[1..], i - 1) <==> Stops(item, rs, i)
  {
    var landed, rest := Landed(item, rs[0]), rs[1..];
    forall j | 0 < j < |rs|
      ensures rest[j - 1] == rs[j] && (Hits(landed, rs[j]) <==> Hits(item, rs[j]) && rs[0].sequence < rs[j].sequence)
      ensures Hits(landed, rs[j]) ==> BringsChosen(landed, rs[j]) == BringsChosen(item, rs[j])
    {
      HitsAfter(item, rs[0], rs[j]);
    }
    if Stops(landed, rest, i - 1) {
      forall j | 0 <= j < i && Hits(item, rs[j]) ensures rs[j].sequence < rs[i].sequence {
        if j > 0 && Hits(landed, rs[j]) {
          assert Hits(landed, rest[j - 1]);
        }
      }
    }
    if Stops(item, rs, i) {
      forall j | 0 <= j < i - 1 && Hits(landed, rest[j]) ensures rest[j].sequence < rest[i - 1].sequence {
        assert rest[j] == rs[j + 1];
      }
    }
  }

  lemma StopsSkips(item: Entry, rs: seq<Result>, i: nat)
    requires 0 < i < |rs| && !Hits(item, rs[0])
    ensures Stops(item, rs[1..], i - 1) <==> Stops(item, rs, i)
  {
    var rest := rs[1..];
    assert forall j :: 0 < j < |rs| ==> rest[j - 1] == rs[j];
  }

  // The first to stop the entry stays.
  lemma {:induction false} FirstStopStays(item: Entry, rs: seq<Result>, i: nat)
    requires AllProper(rs) && DistinctSequences(rs) && Stops(item, rs, i) && forall j: nat :: j < i ==> !Stops(item, rs, j)
    ensures MergeEntryAll(item, rs) == Landed(item, rs[i])
    decreases |rs|
  {
    var first, rest := rs[0], rs[1..];
    MergeEntryIs(item, first);
    if i == 0 {
      forall r <- rest ensures !Hits(Landed(item, first), r) {
      }
      NothingHits(Landed(item, first), rest);
    } else if Hits(item, first) {
      assert !Stops(item, rs, 0);
      forall j: nat | j < i ensures Stops(Landed(item, first), rest, j) <==> Stops(item, rs, j + 1) {
        StopsAfter(item, rs, j + 1);
      }
      HitsAfter(item, first, rs[i]);
      FirstStopStays(Landed(item, first), rest, i - 1);
    } else {
      forall j: nat | j < i ensures Stops(item, rest, j) <==> Stops(item, rs, j + 1) {
        StopsSkips(item, rs, j + 1);
      }
      FirstStopStays(item, rest, i - 1);
    }
  }

  // Unless an older one stops the entry, the newest result wins.
  lemma {:induction false} NewestWins(item: Entry, rs: seq<Result>, w: Result)
    requires AllProper(rs) && DistinctSequences(rs) && Newest(item, rs, w)
    requires forall i: nat :: Stops(item, rs, i) ==> rs[i] == w
    ensures MergeEntryAll(item, rs) == Landed(item, w)
    decreases |rs|
  {
    var first, rest := rs[0], rs[1..];
    assert first in rs && forall r <- rest :: r in rs;
    assert DistinctSequences(rest);
    MergeEntryIs(item, first);
    if first == w {
      forall r <- rest ensures !Hits(Landed(item, w), r) {
        var j :| 0 <= j < |rest| && rest[j] == r;
        assert rs[j + 1] == r && rs[0] == w;
        HitsAfter(item, w, r);
      }
      NothingHits(Landed(item, w), rest);
    } else if Hits(item, first) {
      NewestAfter(item, rs, w);
      NewestWins(Landed(item, first), rest, w);
      HitsAfter(item, first, w);
    } else {
      forall i: nat | Stops(item, rest, i) ensures rest[i] == w {
        StopsSkips(item, rs, i + 1);
      }
      NewestWins(item, rest, w);
    }
  }

  lemma NewestAfter(item: Entry, rs: seq<Result>, w: Result)
    requires AllProper(rs) && DistinctSequences(rs) && Newest(item, rs, w) && Hits(item, rs[0]) && rs[0] != w
    requires forall i: nat :: Stops(item, rs, i) ==> rs[i] == w
    ensures Newest(Landed(item, rs[0]), rs[1..], w) && !BringsChosen(item, rs[0])
    ensures forall i: nat :: Stops(Landed(item, rs[0]), rs[1..], i) ==> rs[1..][i] == w
  {
    var landed, rest := Landed(item, rs[0]), rs[1..];
    assert !Stops(item, rs, 0);
    assert forall r <- rest :: r in rs;
    forall r <- rest ensures Hits(landed, r) ==> r.sequence <= w.sequence {
      HitsAfter(item, rs[0], r);
    }
    HitsAfter(item, rs[0], w);
    forall i: nat | Stops(landed, rest, i) ensures rest[i] == w {
      StopsAfter(item, rs, i + 1);
    }
  }

  // The newest result wins exactly when nothing older stops the entry.
  lemma NewestWinsExactly(item: Entry, rs: seq<Result>, w: Result)
    requires AllProper(rs) && DistinctSequences(rs) && Newest(item, rs, w)
    ensures MergeEntryAll(item, rs) == Landed(item, w) <==> forall i: nat :: Stops(item, rs, i) ==> rs[i] == w
  {
    hide MergeEntryAll;
    if forall i: nat :: Stops(item, rs, i) ==> rs[i] == w {
      NewestWins(item, rs, w);
    } else {
      var i: nat :| Stops(item, rs, i) && rs[i] != w;
      var k := FirstStop(item, rs, i);
      FirstStopStays(item, rs, k);
      assert rs[k].sequence <= rs[i].sequence;
      assert rs[i] in rs;
      var j :| 0 <= j < |rs| && rs[j] == w;
      assert i != j && rs[i].sequence != w.sequence;
    }
  }

  lemma {:induction false} FirstStop(item: Entry, rs: seq<Result>, i: nat) returns (k: nat)
    requires Stops(item, rs, i)
    ensures k <= i && Stops(item, rs, k) && forall j: nat :: j < k ==> !Stops(item, rs, j)
  {
    if j: nat :| j < i && Stops(item, rs, j) {
      k := FirstStop(item, rs, j);
    } else {
      k := i;
    }
  }

  lemma {:induction false} NewestExists(item: Entry, rs: seq<Result>) returns (w: Result)
    requires exists r <- rs :: Hits(item, r)
    ensures Newest(item, rs, w)
  {
    var first, rest := rs[0], rs[1..];
    assert first in rs && forall r <- rest :: r in rs;
    if exists r <- rest :: Hits(item, r) {
      w := NewestExists(item, rest);
      if Hits(item, first) && first.sequence > w.sequence {
        w := first;
      }
    } else {
      w := first;
    }
  }

  // Of the results for an entry only the newest may bring a chosen output.
  predicate OnlyNewestChosen(b: Buffer, rs: seq<Result>) {
    forall item <- b.entries, r <- rs, w <- rs :: Hits(item, r) && BringsChosen(item, r) && Hits(item, w) ==> w.sequence <= r.sequence
  }

  lemma SettledAlike(b: Buffer, rs: seq<Result>, ts: seq<Result>, item: Entry)
    requires AllProper(rs) && DistinctSequences(rs) && AllProper(ts) && DistinctSequences(ts)
    requires (forall r <- rs :: r in ts) && (forall r <- ts :: r in rs) && OnlyNewestChosen(b, rs) && item in b.entries
    ensures MergeEntryAll(item, rs) == MergeEntryAll(item, ts)
  {
    if exists r <- rs :: Hits(item, r) {
      var w := NewestExists(item, rs);
      OnlyNewestStops(b, rs, item, w);
      NewestWins(item, rs, w);
      assert OnlyNewestChosen(b, ts);
      OnlyNewestStops(b, ts, item, w);
      NewestWins(item, ts, w);
    } else {
      NothingHits(item, rs);
      NothingHits(item, ts);
    }
  }

  lemma OnlyNewestStops(b: Buffer, rs: seq<Result>, item: Entry, w: Result)
    requires OnlyNewestChosen(b, rs) && DistinctSequences(rs) && item in b.entries && Newest(item, rs, w)
    ensures forall i: nat :: Stops(item, rs, i) ==> rs[i] == w
  {
    forall i: nat | Stops(item, rs, i) ensures rs[i] == w {
      assert rs[i] in rs;
      var j :| 0 <= j < |rs| && rs[j] == w;
    }
  }

  lemma SameResults(rs: seq<Result>, ts: seq<Result>)
    requires AllProper(rs) && DistinctSequences(rs) && multiset(rs) == multiset(ts)
    ensures AllProper(ts) && DistinctSequences(ts) && (forall r <- rs :: r in ts) && (forall r <- ts :: r in rs)
  {
    assert forall r <- ts :: r in multiset(ts);
    assert forall r <- rs :: r in multiset(rs);
    forall i | 0 <= i < |ts| ensures Proper(ts[i]) {
      assert ts[i] in multiset(rs);
      var k :| 0 <= k < |rs| && rs[k] == ts[i];
    }
    SameSequences(rs, ts);
  }

  // Two arrival orders of the same results leave the same buffer.
  lemma MergingIsOrderIndependent(b: Buffer, rs: seq<Result>, ts: seq<Result>)
    requires UniqueIds(b.entries)
    requires AllProper(rs) && DistinctSequences(rs) && multiset(rs) == multiset(ts) && OnlyNewestChosen(b, rs)
    ensures MergeAll(b, rs) == MergeAll(b, ts)
  {
    SameResults(rs, ts);
    MergeAllByEntry(b, rs);
    MergeAllByEntry(b, ts);
    forall item <- b.entries ensures MergeEntryAll(item, rs) == MergeEntryAll(item, ts) {
      SettledAlike(b, rs, ts, item);
    }
    assert MergeAll(b, rs).entries == MergeAll(b, ts).entries;
  }

  // The same results with one of them first.
  lemma BroughtFirst(rs: seq<Result>, r: Result) returns (rest: seq<Result>)
    requires r in rs
    ensures multiset([r] + rest) == multiset(rs)
  {
    var i :| 0 <= i < |rs| && rs[i] == r;
    rest := rs[..i] + rs[i + 1..];
    assert rs == rs[..i] + [rs[i]] + rs[i + 1..];
  }

  lemma {:induction false} ConvertedByGrows(item: Entry, rs: seq<Result>)
    requires AllProper(rs)
    ensures item.convertedBy <= MergeEntryAll(item, rs).convertedBy
    decreases |rs|
  {
    if rs != [] {
      MergeEntryIs(item, rs[0]);
      ConvertedByGrows(MergeEntry(item, rs[0], None), rs[1..]);
    }
  }

  // The arrival order never matters exactly when, of the results for each
  // entry, only the newest may be marked as chosen.
  lemma OrderNeverMattersExactly(b: Buffer, rs: seq<Result>)
    requires UniqueIds(b.entries) && AllProper(rs) && DistinctSequences(rs)
    ensures (forall ts: seq<Result> | multiset(ts) == multiset(rs) :: MergeAll(b, ts) == MergeAll(b, rs)) <==> OnlyNewestChosen(b, rs)
  {
    if OnlyNewestChosen(b, rs) {
      forall ts: seq<Result> | multiset(ts) == multiset(rs) ensures MergeAll(b, ts) == MergeAll(b, rs) {
        MergingIsOrderIndependent(b, rs, ts);
      }
    } else {
      var item, r, w :| item in b.entries && r in rs && w in rs && Hits(item, r) && BringsChosen(item, r) && Hits(item, w)
        && r.sequence < w.sequence;
      var first, second := OrdersDiffer(b, rs, item, r, w);
      assert multiset(first) == multiset(rs) && multiset(second) == multiset(rs);
      assert MergeAll(b, first) != MergeAll(b, second);
    }
  }

  // An older chosen output stays when it arrives first, and does not when the newer one does.
  lemma OrdersDiffer(b: Buffer, rs: seq<Result>, item: Entry, r: Result, w: Result) returns (first: seq<Result>, second: seq<Result>)
    requires UniqueIds(b.entries) && AllProper(rs) && DistinctSequences(rs) && item in b.entries && r in rs && w in rs
    requires Hits(item, r) && BringsChosen(item, r) && Hits(item, w) && r.sequence < w.sequence
    ensures multiset(first) == multiset(rs) && multiset(second) == multiset(rs) && MergeAll(b, first) != MergeAll(b, second)
  {
    var p :| 0 <= p < |b.entries| && b.entries[p] == item;
    var afterR := BroughtFirst(rs, r);
    var afterW := BroughtFirst(rs, w);
    first, second := [r] + afterR, [w] + afterW;
    SameResults(rs, first);
    SameResults(rs, second);
    assert Stops(item, first, 0);
    FirstStopStays(item, first, 0);
    MergeEntryIs(item, w);
    assert second[1..] == afterW;
    forall i | 0 <= i < |afterW| ensures Proper(afterW[i]) {
      assert second[i + 1] == afterW[i];
    }
    ConvertedByGrows(Landed(item, w), afterW);
    MergeAllByEntry(b, first);
    MergeAllByEntry(b, second);
    assert MergeAll(b, first).entries[p].convertedBy == r.sequence;
    assert MergeAll(b, second).entries[p].convertedBy >= w.sequence;
  }

  lemma Twice<T>(s: seq<T>, i: nat, j: nat)
    requires i < j < |s| && s[i] == s[j]
    ensures multiset(s)[s[i]] >= 2
  {
    assert s == s[..j] + s[j..];
    assert s[i] in s[..j] && s[j] in s[j..];
    assert multiset(s) == multiset(s[..j]) + multiset(s[j..]);
  }

  lemma Once(s: seq<Result>, k: nat)
    requires DistinctSequences(s) && k < |s|
    ensures multiset(s)[s[k]] == 1
  {
    assert s == s[..k] + [s[k]] + s[k + 1..];
    assert s[k] !in s[..k] && s[k] !in s[k + 1..];
    assert multiset(s) == multiset(s[..k]) + multiset([s[k]]) + multiset(s[k + 1..]);
  }

  lemma SameSequences(rs: seq<Result>, ts: seq<Result>)
    requires DistinctSequences(rs) && multiset(rs) == multiset(ts)
    ensures DistinctSequences(ts)
  {
    forall i, j | 0 <= i < j < |ts| ensures ts[i].sequence != ts[j].sequence {
      assert ts[i] in multiset(rs) && ts[j] in multiset(rs);
      var k :| 0 <= k < |rs| && rs[k] == ts[i];
      var l :| 0 <= l < |rs| && rs[l] == ts[j];
      if ts[i] == ts[j] {
        Once(rs, k);
        Twice(ts, i, j);
      }
    }
  }

  // The result an entry ends with: the first to stop it, or the newest when none does.
  ghost predicate Settles(item: Entry, rs: seq<Result>, w: Result) {
    || (exists i: nat :: Stops(item, rs, i) && rs[i] == w && forall j: nat :: j < i ==> !Stops(item, rs, j))
    || (Newest(item, rs, w) && forall i: nat :: !Stops(item, rs, i))
  }

  lemma SettledBy(item: Entry, rs: seq<Result>, w: Result)
    requires AllProper(rs) && DistinctSequences(rs) && Settles(item, rs, w)
    ensures MergeEntryAll(item, rs) == Landed(item, w) && w in rs && Hits(item, w)
  {
    if i: nat :| Stops(item, rs, i) && rs[i] == w && forall j: nat :: j < i ==> !Stops(item, rs, j) {
      FirstStopStays(item, rs, i);
    } else {
      NewestWins(item, rs, w);
    }
  }

  lemma Settler(item: Entry, rs: seq<Result>) returns (w: Result)
    requires exists r <- rs :: Hits(item, r)
    ensures Settles(item, rs, w)
  {
    if i: nat :| Stops(item, rs, i) {
      var k := FirstStop(item, rs, i);
      w := rs[k];
    } else {
      w := NewestExists(item, rs);
    }
  }

  // Two arrival orders leave the same buffer exactly when every entry ends with the same result.
  lemma TwoOrdersAgreeExactly(b: Buffer, rs: seq<Result>, ts: seq<Result>)
    requires UniqueIds(b.entries) && AllProper(rs) && DistinctSequences(rs) && multiset(rs) == multiset(ts)
    ensures MergeAll(b, rs) == MergeAll(b, ts) <==>
      forall item <- b.entries, w <- rs :: Settles(item, rs, w) ==> Settles(item, ts, w)
  {
    SameResults(rs, ts);
    MergeAllByEntry(b, rs);
    MergeAllByEntry(b, ts);
    if forall item <- b.entries, w <- rs :: Settles(item, rs, w) ==> Settles(item, ts, w) {
      forall item <- b.entries ensures MergeEntryAll(item, rs) == MergeEntryAll(item, ts) {
        SettledSame(item, rs, ts);
      }
      assert MergeAll(b, rs).entries == MergeAll(b, ts).entries;
    }
    if MergeAll(b, rs) == MergeAll(b, ts) {
      forall item <- b.entries, w <- rs | Settles(item, rs, w) ensures Settles(item, ts, w) {
        var p :| 0 <= p < |b.entries| && b.entries[p] == item;
        assert MergeEntryAll(item, rs) == MergeAll(b, rs).entries[p] == MergeEntryAll(item, ts);
        SettlersMeet(item, rs, ts, w);
      }
    }
  }

  lemma SettledSame(item: Entry, rs: seq<Result>, ts: seq<Result>)
    requires AllProper(rs) && DistinctSequences(rs) && AllProper(ts) && DistinctSequences(ts)
    requires (forall r <- ts :: r in rs) && forall w <- rs :: Settles(item, rs, w) ==> Settles(item, ts, w)
    ensures MergeEntryAll(item, rs) == MergeEntryAll(item, ts)
  {
    if exists r <- rs :: Hits(item, r) {
      var w := Settler(item, rs);
      SettledBy(item, rs, w);
      SettledBy(item, ts, w);
    } else {
      NothingHits(item, rs);
      NothingHits(item, ts);
    }
  }

  lemma SettlersMeet(item: Entry, rs: seq<Result>, ts: seq<Result>, w: Result)
    requires AllProper(rs) && DistinctSequences(rs) && AllProper(ts) && DistinctSequences(ts)
    requires (forall r <- rs :: r in ts) && (forall r <- ts :: r in rs) && Settles(item, rs, w)
    requires MergeEntryAll(item, rs) == MergeEntryAll(item, ts)
    ensures Settles(item, ts, w)
  {
    SettledBy(item, rs, w);
    var x := Settler(item, ts);
    SettledBy(item, ts, x);
    assert x.sequence == w.sequence;
    var i :| 0 <= i < |rs| && rs[i] == w;
    var j :| 0 <= j < |rs| && rs[j] == x;
    assert i == j;
  }

  // The condition can fail of results for one snapshot: of two chosen outputs
  // for a syllable the first to arrive stays.
  lemma ChosenOutputsDependOnOrder() returns (b: Buffer, r: Result, s: Result)
    ensures Wf(b) && |b.entries| == 1 && b.entries[0].compositable && b.entries[0].conversionPending
    ensures ConversionSnapshot(b).Some? && r.requested == s.requested == ConversionSnapshot(b).value.entries
    ensures Proper(r) && Proper(s) && r.sequence != s.sequence
    ensures MergeAll(b, [r, s]) != MergeAll(b, [s, r])
  {
    var item := FreshEntry(1).(initial := Some('ㄇ'), final := Some('ㄚ'), tone := Some(' '), compositable := true,
                               conversionPending := true, candidates := "a");
    b := Buffer([item], 0, false, 0, 2);
    var one := item.(predicted := true, chosen := true, candidates := "ab", chooseIndex := 0);
    var two := one.(chooseIndex := 1);
    r := Result(1, [item], [one]);
    s := Result(2, [item], [two]);
    assert IndexOf([item], 1) == 0;
    var mr := b.(entries := [Converted(item, 1, one)]);
    var ms := b.(entries := [Converted(item, 2, two)]);
    MergeOne(b, 1, item, one);
    MergeOne(mr, 2, item, two);
    MergeOne(b, 2, item, two);
    MergeOne(ms, 1, item, one);
    assert [r, s][1..] == [s] && [s, r][1..] == [r] && [s][1..] == [] && [r][1..] == [];
    assert MergeAll(mr, [s]) == mr && MergeAll(ms, [r]) == ms;
    assert mr.entries[0].chooseIndex == 0 && ms.entries[0].chooseIndex == 1;
  }

  // A result for the only entry of a buffer.
  lemma MergeOne(b: Buffer, sequence: nat, requested: Entry, output: Output)
    requires |b.entries| == 1 && b.entries[0].id == requested.id
    ensures MergeConversion(b, sequence, [requested], [output], None).buffer ==
            if Lands(b.entries[0], sequence, requested, output)
            then b.(entries := [Converted(b.entries[0], sequence, output)]) else b
  {
    assert IndexOf(b.entries, requested.id) == 0;
    var landed := b.(entries := b.entries[0 := Converted(b.entries[0], sequence, output)]);
    assert landed.entries == [Converted(b.entries[0], sequence, output)];
    assert MergeFrom(b, sequence, [requested], [output], None, 1, false, None).buffer == b;
    assert MergeFrom(landed, sequence, [requested], [output], None, 1, true, None).buffer == landed;
  }

  // ---- holding results behind an open candidate list ----------------------------

  // Results merged one after another, those for the locked entry kept aside.
  function MergeBehind(b: Buffer, lock: Lock, rs: seq<Result>): (Buffer, Lock)
    decreases |rs|
  {
    if rs == [] then (b, lock)
    else
      var outcome := MergeConversion(b, rs[0].sequence, rs[0].requested, rs[0].converted, lock.entry);
      var held := if outcome.held.None? then lock
                  else Holding(lock, Held(rs[0].sequence, outcome.held.value.0, outcome.held.value.1));
      MergeBehind(outcome.buffer, held, rs[1..])
  }

  // Closing the list merges what was held.
  function MergeAtClose(b: Buffer, lock: Lock): Buffer {
    if lock.held.None? then b
    else MergeConversion(b, lock.held.value.sequence, [lock.held.value.requested], [lock.held.value.converted], None).buffer
  }

  lemma {:induction false} LockedEntryWaits(item: Entry, r: Result, id: nat, k: nat)
    requires |r.requested| == |r.converted| && k <= |r.requested|
    ensures MergeEntryFrom(item, r, Some(id), k) == if item.id == id then item else MergeEntryFrom(item, r, None, k)
    decreases |r.requested| - k
  {
    if k < |r.requested| {
      LockedEntryWaits(item, r, id, k + 1);
      LockedEntryWaits(Converted(item, r.sequence, r.converted[k]), r, id, k + 1);
    }
  }

  lemma LockedWaits(item: Entry, r: Result, id: nat)
    ensures MergeEntry(item, r, Some(id)) == if item.id == id then item else MergeEntry(item, r, None)
  {
    if |r.requested| == |r.converted| {
      LockedEntryWaits(item, r, id, 0);
    }
  }

  function HeldFor(item: Entry, r: Result): (Entry, Output)
    requires Hits(item, r)
  {
    (r.requested[Asked(item, r)], r.converted[Asked(item, r)])
  }

  // Landing on one entry keeps ids and every other entry.
  lemma LandingKeepsOthers(b: Buffer, position: nat, sequence: nat, output: Output, p: nat)
    requires UniqueIds(b.entries) && position < |b.entries| && p < |b.entries| && position != p
    ensures var r := b.(entries := b.entries[position := Converted(b.entries[position], sequence, output)]);
            UniqueIds(r.entries) && r.entries[p] == b.entries[p] && |r.entries| == |b.entries|
  {
  }

  // What is held is the result for the locked entry, if it brings one.
  lemma {:induction false} MergeFromHolds(b: Buffer, r: Result, p: nat, item: Entry, k: nat, changed: bool, held: Option<(Entry, Output)>)
    requires Proper(r) && k <= |r.requested| == |r.converted| && UniqueIds(b.entries) && p < |b.entries| && item == b.entries[p]
    ensures MergeFrom(b, r.sequence, r.requested, r.converted, Some(item.id), k, changed, held).held ==
            if k <= Asked(item, r) && Hits(item, r) then Some(HeldFor(item, r)) else held
    decreases |r.requested| - k
  {
    hide Converted;
    if k < |r.requested| {
      var requested, output := r.requested[k], r.converted[k];
      var position := IndexOf(b.entries, requested.id);
      if requested.id == item.id {
        assert position == p && Asked(item, r) == k;
        assert Hits(item, r) == Lands(item, r.sequence, requested, output);
        MergeFromHolds(b, r, p, item, k + 1, changed, if Hits(item, r) then Some((requested, output)) else held);
      } else {
        assert Asked(item, r) != k;
        if position == |b.entries| || !Lands(b.entries[position], r.sequence, requested, output) {
          MergeFromHolds(b, r, p, item, k + 1, changed, held);
        } else {
          LandingKeepsOthers(b, position, r.sequence, output, p);
          MergeFromHolds(b.(entries := b.entries[position := Converted(b.entries[position], r.sequence, output)]),
                         r, p, item, k + 1, true, held);
        }
      }
    }
  }

  lemma ResultHolds(b: Buffer, r: Result, p: nat)
    requires Proper(r) && UniqueIds(b.entries) && p < |b.entries|
    ensures MergeConversion(b, r.sequence, r.requested, r.converted, Some(b.entries[p].id)).held ==
            if Hits(b.entries[p], r) then Some(HeldFor(b.entries[p], r)) else None
  {
    if |r.requested| == |r.converted| {
      MergeFromHolds(b, r, p, b.entries[p], 0, false, None);
    }
  }

  // What a lock keeps of the results for the entry as it is.
  function HeldOver(item: Entry, lock: Lock, rs: seq<Result>): Lock
    decreases |rs|
  {
    if rs == [] then lock
    else if Hits(item, rs[0]) then
      HeldOver(item, Holding(lock, Held(rs[0].sequence, HeldFor(item, rs[0]).0, HeldFor(item, rs[0]).1)), rs[1..])
    else HeldOver(item, lock, rs[1..])
  }

  lemma {:induction false} MergeBehindByEntry(b: Buffer, lock: Lock, rs: seq<Result>, p: nat)
    requires UniqueIds(b.entries) && AllProper(rs) && p < |b.entries| && lock.entry == Some(b.entries[p].id)
    ensures var (m, l) := MergeBehind(b, lock, rs);
            && m == b.(entries := m.entries) && |m.entries| == |b.entries|
            && l == HeldOver(b.entries[p], lock, rs) && m.entries[p] == b.entries[p]
            && forall i :: 0 <= i < |b.entries| && i != p ==> m.entries[i] == MergeEntryAll(b.entries[i], rs)
    decreases |rs|
  {
    if rs != [] {
      var r := rs[0];
      var item := b.entries[p];
      var outcome := MergeConversion(b, r.sequence, r.requested, r.converted, lock.entry);
      MergeByEntry(b, r, lock.entry);
      ResultHolds(b, r, p);
      forall i | 0 <= i < |b.entries|
        ensures outcome.buffer.entries[i] == if i == p then item else MergeEntry(b.entries[i], r, None)
        ensures outcome.buffer.entries[i].id == b.entries[i].id
      {
        LockedWaits(b.entries[i], r, item.id);
        MergeEntryIs(b.entries[i], r);
      }
      var held := if outcome.held.None? then lock
                  else Holding(lock, Held(r.sequence, outcome.held.value.0, outcome.held.value.1));
      MergeBehindByEntry(outcome.buffer, held, rs[1..], p);
    }
  }

  lemma {:induction false} OlderAreNotHeld(item: Entry, lock: Lock, rs: seq<Result>)
    requires forall r <- rs :: Hits(item, r) ==> lock.held.Some? && r.sequence < lock.held.value.sequence
    ensures HeldOver(item, lock, rs) == lock
    decreases |rs|
  {
    if rs != [] {
      assert rs[0] in rs;
      OlderAreNotHeld(item, lock, rs[1..]);
    }
  }

  lemma {:induction false} NewestIsHeld(item: Entry, lock: Lock, rs: seq<Result>, w: Result)
    requires DistinctSequences(rs) && Newest(item, rs, w)
    requires lock.held.Some? ==> lock.held.value.sequence < w.sequence
    ensures HeldOver(item, lock, rs).held == Some(Held(w.sequence, HeldFor(item, w).0, HeldFor(item, w).1))
    decreases |rs|
  {
    var first, rest := rs[0], rs[1..];
    assert first in rs && forall r <- rest :: r in rs;
    assert DistinctSequences(rest);
    if Hits(item, first) {
      var next := Holding(lock, Held(first.sequence, HeldFor(item, first).0, HeldFor(item, first).1));
      if first == w {
        forall r <- rest ensures Hits(item, r) ==> r.sequence < w.sequence {
          var j :| 0 <= j < |rest| && rest[j] == r;
          assert rs[j + 1] == r && rs[0] == w;
        }
        OlderAreNotHeld(item, next, rest);
      } else {
        var j :| 0 <= j < |rest| && rest[j] == w;
        assert rs[j + 1] == w && rs[0] == first;
        NewestIsHeld(item, next, rest, w);
      }
    } else {
      NewestIsHeld(item, lock, rest, w);
    }
  }

  // Holding results behind an open list and merging the held one when it
  // closes leaves the buffer as if the list had never been open, exactly when
  // no older result would have stopped the entry.
  lemma LockingChangesNothing(b: Buffer, rs: seq<Result>, p: nat)
    requires UniqueIds(b.entries) && AllProper(rs) && DistinctSequences(rs) && p < |b.entries|
    ensures var (m, lock) := MergeBehind(b, Opened(UNLOCKED, b.entries[p].id), rs);
            MergeAtClose(m, lock) == MergeAll(b, rs) <==>
              forall i: nat, w <- rs :: Stops(b.entries[p], rs, i) && Hits(b.entries[p], w) ==> w.sequence <= rs[i].sequence
  {
    var item := b.entries[p];
    var (m, lock) := MergeBehind(b, Opened(UNLOCKED, item.id), rs);
    MergeBehindByEntry(b, Opened(UNLOCKED, item.id), rs, p);
    MergeAllByEntry(b, rs);
    if exists r <- rs :: Hits(item, r) {
      var w := NewestExists(item, rs);
      NewestIsHeld(item, Opened(UNLOCKED, item.id), rs, w);
      IdsKept(b, rs);
      MergeSingle(m, Result(w.sequence, [HeldFor(item, w).0], [HeldFor(item, w).1]), p);
      ClosedAlike(b, rs, p, w, MergeAtClose(m, lock), MergeAll(b, rs));
      NewestWinsExactly(item, rs, w);
      StopsAreNewest(item, rs, w);
    } else {
      NothingHits(item, rs);
      OlderAreNotHeld(item, Opened(UNLOCKED, item.id), rs);
      assert m.entries == MergeAll(b, rs).entries;
    }
  }

  lemma ClosedAlike(b: Buffer, rs: seq<Result>, p: nat, w: Result, closed: Buffer, all: Buffer)
    requires AllProper(rs) && p < |b.entries| == |closed.entries| == |all.entries| && Hits(b.entries[p], w)
    requires closed == b.(entries := closed.entries) && all == b.(entries := all.entries)
    requires closed.entries[p] == Landed(b.entries[p], w)
    requires forall i :: 0 <= i < |b.entries| && i != p ==> closed.entries[i] == MergeEntryAll(b.entries[i], rs)
    requires forall i :: 0 <= i < |b.entries| ==> all.entries[i] == MergeEntryAll(b.entries[i], rs)
    ensures closed == all <==> MergeEntryAll(b.entries[p], rs) == Landed(b.entries[p], w)
  {
    if MergeEntryAll(b.entries[p], rs) == Landed(b.entries[p], w) {
      assert closed.entries == all.entries;
    }
  }

  lemma StopsAreNewest(item: Entry, rs: seq<Result>, w: Result)
    requires DistinctSequences(rs) && Newest(item, rs, w)
    ensures (forall i: nat :: Stops(item, rs, i) ==> rs[i] == w) <==>
      (forall i: nat, r <- rs :: Stops(item, rs, i) && Hits(item, r) ==> r.sequence <= rs[i].sequence)
  {
    var j :| 0 <= j < |rs| && rs[j] == w;
    forall i: nat | Stops(item, rs, i) ensures rs[i].sequence <= w.sequence && (rs[i].sequence == w.sequence ==> rs[i] == w) {
      assert rs[i] in rs;
    }
  }

  lemma {:induction false} IdsKept(b: Buffer, rs: seq<Result>)
    requires UniqueIds(b.entries) && AllProper(rs)
    ensures forall i :: 0 <= i < |b.entries| ==> MergeEntryAll(b.entries[i], rs).id == b.entries[i].id
    decreases |rs|
  {
    if rs != [] {
      var m := MergeConversion(b, rs[0].sequence, rs[0].requested, rs[0].converted, None).buffer;
      MergeByEntry(b, rs[0], None);
      forall i | 0 <= i < |b.entries| ensures m.entries[i].id == b.entries[i].id {
        MergeEntryIs(b.entries[i], rs[0]);
      }
      IdsKept(m, rs[1..]);
    }
  }

  // A result for one entry touches only that entry.
  lemma MergeSingle(b: Buffer, r: Result, p: nat)
    requires UniqueIds(b.entries) && p < |b.entries| && |r.requested| == |r.converted| == 1
    requires r.requested[0].id == b.entries[p].id && Lands(b.entries[p], r.sequence, r.requested[0], r.converted[0])
    ensures MergeConversion(b, r.sequence, r.requested, r.converted, None).buffer ==
            b.(entries := b.entries[p := Converted(b.entries[p], r.sequence, r.converted[0])])
  {
    assert IndexOf(b.entries, r.requested[0].id) == p;
    var landed := b.(entries := b.entries[p := Converted(b.entries[p], r.sequence, r.converted[0])]);
    assert MergeFrom(landed, r.sequence, r.requested, r.converted, None, 1, true, None).buffer == landed;
  }
}
