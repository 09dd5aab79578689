/**
 What an entry may have become since an earlier moment. An edit or a pick gives
 it a new version, so under one version it is still what was typed.
 */
module BufferHistory {
  import opened Wrappers
  import opened Bopomofo
  import opened Buffers
  import opened BufferProofs

  // The same syllable, converted perhaps; fixed text is the same altogether.
  predicate SameSyllable(e: Entry, x: Entry) {
    && x.initial == e.initial && x.medial == e.medial && x.final == e.final && x.tone == e.tone
    && x.compositable == e.compositable
    && (e.chosen ==> x == e.(conversionPending := x.conversionPending))
  }

  // x is what e has become.
  predicate Later(e: Entry, x: Entry) {
    e.id == x.id && e.version <= x.version && (e.version == x.version ==> SameSyllable(e, x))
  }

  predicate Succeeds(a: seq<Entry>, b: seq<Entry>) {
    forall e <- a, x <- b :: e.id == x.id ==> Later(e, x)
  }

  // Entry by entry the same content.
  predicate SameContent(a: seq<Entry>, b: seq<Entry>) {
    |a| == |b| && forall i :: 0 <= i < |a| ==> Later(a[i], b[i]) && a[i].version == b[i].version
  }

  // The entries were taken of the buffer at the revision, now or earlier.
  predicate TakenOf(revision: nat, entries: seq<Entry>, b: Buffer) {
    && revision <= b.revision && UniqueIds(entries) && (forall e <- entries :: e.id < b.nextId)
    && Succeeds(entries, b.entries) && (revision == b.revision ==> SameContent(entries, b.entries))
  }

  lemma LaterTransitive(a: Entry, b: Entry, c: Entry)
    requires Later(a, b) && Later(b, c)
    ensures Later(a, c)
  {
  }

  lemma SucceedsItself(s: seq<Entry>)
    requires UniqueIds(s)
    ensures Succeeds(s, s) && SameContent(s, s)
  {
    forall e <- s, x <- s | e.id == x.id ensures Later(e, x) {
      var i :| 0 <= i < |s| && s[i] == e;
      var j :| 0 <= j < |s| && s[j] == x;
      assert i == j;
    }
  }

  lemma TakenNow(b: Buffer)
    requires Wf(b)
    ensures TakenOf(b.revision, b.entries, b)
  {
    SucceedsItself(b.entries);
  }

  // ---- what an edit does ---------------------------------------------------------

  // An entry of s with a new version.
  predicate Renewed(s: seq<Entry>, x: Entry) {
    exists e <- s :: e.id == x.id && e.version < x.version && (x.convertedBy == e.convertedBy || x.convertedBy == 0)
  }

  // The user's edits: an entry is as it was, or new, or has a new version.
  predicate Revises(b: Buffer, r: Buffer) {
    && b.revision <= r.revision && b.nextId <= r.nextId && (r.revision == b.revision ==> r.entries == b.entries)
    && forall x <- r.entries :: x in b.entries || (x.id >= b.nextId && x.convertedBy == 0) || Renewed(b.entries, x)
  }

  lemma RevisedTaken(revision: nat, entries: seq<Entry>, b: Buffer, r: Buffer)
    requires TakenOf(revision, entries, b) && Revises(b, r)
    ensures TakenOf(revision, entries, r)
  {
    forall e <- entries, x <- r.entries | e.id == x.id ensures Later(e, x) {
      if x !in b.entries {
        var y :| y in b.entries && y.id == x.id && y.version < x.version && (x.convertedBy == y.convertedBy || x.convertedBy == 0);
        assert Later(e, y);
      }
    }
  }

  lemma RevisesTransitive(a: Buffer, b: Buffer, c: Buffer)
    requires Revises(a, b) && Revises(b, c)
    ensures Revises(a, c)
  {
    forall x <- c.entries ensures x in a.entries || (x.id >= a.nextId && x.convertedBy == 0) || Renewed(a.entries, x) {
      if x !in b.entries && x.id < b.nextId {
        var y :| y in b.entries && y.id == x.id && y.version < x.version && (x.convertedBy == y.convertedBy || x.convertedBy == 0);
        if y in a.entries {
        } else if Renewed(a.entries, y) {
          var z :| z in a.entries && z.id == y.id && z.version < y.version && (y.convertedBy == z.convertedBy || y.convertedBy == 0);
        }
      }
    }
  }

  lemma InsertRevises(b: Buffer, e: Entry)
    requires e.convertedBy == 0
    ensures Revises(b, InsertAfterCaret(b, e))
  {
  }

  lemma EraseRevises(b: Buffer)
    requires CaretOnEntry(b)
    ensures Revises(b, EraseAtCaret(b))
  {
    assert forall x <- EraseAtCaret(b).entries :: x in b.entries;
  }

  lemma EditRevises(b: Buffer, i: nat, e: Entry)
    requires i < |b.entries| && e.id == b.entries[i].id && e.version == b.entries[i].version
    requires e.convertedBy == b.entries[i].convertedBy || e.convertedBy == 0
    ensures Revises(b, Edit(b, i, e))
  {
    var r := Edit(b, i, e);
    forall x <- r.entries ensures x in b.entries || Renewed(b.entries, x) {
      var j :| 0 <= j < |r.entries| && r.entries[j] == x;
      if j == i {
        assert b.entries[i] in b.entries;
      }
    }
  }

  lemma AddRevises(b: Buffer, c: char, table: Table)
    ensures Revises(b, Add(b, c, table))
  {
    var w := WithoutInvalid(b);
    if CurrentInvalid(b) {
      EraseRevises(b);
    }
    if CaretOnEntry(w) && w.entries[w.idx].Accept(c, table).Some? {
      EditRevises(w, w.idx, w.entries[w.idx].Accept(c, table).value);
    } else {
      InsertRevises(w, FreshEntry(0).Accept(c, table).value);
    }
    RevisesTransitive(b, w, Add(b, c, table));
  }

  lemma AddChosenRevises(b: Buffer, c: char)
    ensures Revises(b, AddChosen(b, c))
  {
    if CurrentInvalid(b) {
      EraseRevises(b);
    }
    InsertRevises(WithoutInvalid(b), FreshEntry(0).SetChosenCandidate(c));
    RevisesTransitive(b, WithoutInvalid(b), AddChosen(b, c));
  }

  lemma {:induction false} AddAllChosenRevises(b: Buffer, text: string)
    ensures Revises(b, AddAllChosen(b, text))
  {
    if text != "" {
      AddAllChosenRevises(b, text[..|text| - 1]);
      AddChosenRevises(AddAllChosen(b, text[..|text| - 1]), text[|text| - 1]);
      RevisesTransitive(b, AddAllChosen(b, text[..|text| - 1]), AddAllChosen(b, text));
    }
  }

  lemma RemoveLastRevises(b: Buffer)
    requires RemoveLast(b).Some?
    ensures Revises(b, RemoveLast(b).value)
  {
    var e := b.entries[b.idx];
    if e.compositable || e.PopLast().None? || e.PopLast().value.IsNull() {
      EraseRevises(b);
    } else {
      EditRevises(b, b.idx, e.PopLast().value);
    }
  }

  lemma DiscardRevises(b: Buffer)
    requires DiscardCurrentReading(b).Some?
    ensures Revises(b, DiscardCurrentReading(b).value)
  {
    EraseRevises(b);
  }

  lemma MoveRevises(b: Buffer, forward: bool, toEdge: bool)
    requires MoveCaret(b, forward, toEdge).Some?
    ensures Revises(b, MoveCaret(b, forward, toEdge).value)
  {
  }

  lemma ChooseKeepsVersion(e: Entry, i: nat)
    requires e.compositable && i < |e.GetCandidates()|
    ensures var r := e.SetChooseIndex(i); r.id == e.id && r.version == e.version && r.convertedBy == e.convertedBy
  {
    CandidateKeepsVersion(e, e.GetCandidates()[i]);
  }

  lemma CandidateKeepsVersion(e: Entry, c: char)
    requires e.compositable
    ensures var r := e.ChooseCandidate(c); r.id == e.id && r.version == e.version && r.convertedBy == e.convertedBy
  {
  }

  lemma SelectRevises(b: Buffer, id: nat, index: nat)
    requires SelectCandidate(b, id, index).Some?
    ensures Revises(b, SelectCandidate(b, id, index).value)
  {
    var position := IndexOf(b.entries, id);
    var item := b.entries[position];
    var reading := item.MultiReadingLiteral();
    if reading.Some? && index == |item.GetCandidates()| {
      LiteralsRevise(b, position, reading.value);
    } else {
      ChooseKeepsVersion(item, index);
      EditRevises(b, position, item.SetChooseIndex(index));
    }
  }

  lemma LiteralsRevise(b: Buffer, position: nat, text: string)
    requires position < |b.entries|
    ensures forall x <- b.entries[..position] + Literals(text, b.nextId, true) + b.entries[position + 1..] ::
              x in b.entries || (x.id >= b.nextId && x.convertedBy == 0)
  {
    var l := Literals(text, b.nextId, true);
    forall x <- b.entries[..position] + l + b.entries[position + 1..]
      ensures x in b.entries || (x.id >= b.nextId && x.convertedBy == 0)
    {
      if x in l {
        var j :| 0 <= j < |l| && l[j] == x;
      }
    }
  }

  lemma {:induction false} FrozenNew(s: seq<Entry>, firstId: nat)
    ensures Frozen(s, firstId).1 >= firstId
    ensures forall x <- Frozen(s, firstId).0 :: x in s || (x.id >= firstId && x.convertedBy == 0)
  {
    if s != [] {
      var front, item := s[..|s| - 1], s[|s| - 1];
      FrozenNew(front, firstId);
      var (g, nextId) := Frozen(front, firstId);
      var added := if item.compositable then [item] else Literals(item.Reading(), nextId, false);
      forall x <- g + added ensures x in s || (x.id >= firstId && x.convertedBy == 0) {
        if x in g {
        } else if !item.compositable {
          var j :| 0 <= j < |added| && added[j] == x;
        }
      }
    }
  }

  lemma FreezeRevises(b: Buffer)
    ensures Revises(b, FreezeReadings(b))
  {
    FrozenNew(b.entries, b.nextId);
  }

  // ---- what a conversion does --------------------------------------------------------

  // Only outputs may have changed.
  predicate Refines(b: Buffer, r: Buffer) {
    r == b.(entries := r.entries) && SameContent(b.entries, r.entries)
  }

  lemma ContentTransitive(a: seq<Entry>, b: seq<Entry>, c: seq<Entry>)
    requires SameContent(a, b) && SameContent(b, c)
    ensures SameContent(a, c)
  {
    forall i | 0 <= i < |a| ensures Later(a[i], c[i]) {
      LaterTransitive(a[i], b[i], c[i]);
    }
  }

  lemma RefinesTransitive(a: Buffer, b: Buffer, c: Buffer)
    requires Refines(a, b) && Refines(b, c)
    ensures Refines(a, c)
  {
    ContentTransitive(a.entries, b.entries, c.entries);
  }

  lemma RefinedTaken(revision: nat, entries: seq<Entry>, b: Buffer, r: Buffer)
    requires TakenOf(revision, entries, b) && Refines(b, r)
    ensures TakenOf(revision, entries, r)
  {
    forall e <- entries, x <- r.entries | e.id == x.id ensures Later(e, x) {
      var i :| 0 <= i < |r.entries| && r.entries[i] == x;
      assert b.entries[i] in b.entries;
      LaterTransitive(e, b.entries[i], x);
    }
    if revision == b.revision {
      ContentTransitive(entries, b.entries, r.entries);
    }
  }

  lemma {:induction false} MergeFromRefines(b: Buffer, sequence: nat, requested: seq<Entry>, converted: seq<Output>,
                                            locked: Option<nat>, k: nat, changed: bool, held: Option<(Entry, Output)>)
    requires |requested| == |converted| && k <= |requested| && UniqueIds(b.entries)
    ensures Refines(b, MergeFrom(b, sequence, requested, converted, locked, k, changed, held).buffer)
    decreases |requested| - k
  {
    SucceedsItself(b.entries);
    if k < |requested| {
      var position := IndexOf(b.entries, requested[k].id);
      if position == |b.entries| || !Lands(b.entries[position], sequence, requested[k], converted[k]) {
        MergeFromRefines(b, sequence, requested, converted, locked, k + 1, changed, held);
      } else if locked == Some(requested[k].id) {
        MergeFromRefines(b, sequence, requested, converted, locked, k + 1, changed, Some((requested[k], converted[k])));
      } else {
        var r := b.(entries := b.entries[position := Converted(b.entries[position], sequence, converted[k])]);
        MergeFromRefines(r, sequence, requested, converted, locked, k + 1, true, held);
        RefinesTransitive(b, r, MergeFrom(r, sequence, requested, converted, locked, k + 1, true, held).buffer);
      }
    }
  }

  lemma MergeRefines(b: Buffer, sequence: nat, requested: seq<Entry>, converted: seq<Output>, locked: Option<nat>)
    requires UniqueIds(b.entries)
    ensures Refines(b, MergeConversion(b, sequence, requested, converted, locked).buffer)
  {
    SucceedsItself(b.entries);
    if |requested| == |converted| {
      MergeFromRefines(b, sequence, requested, converted, locked, 0, false, None);
    }
  }

  lemma AcceptRefines(b: Buffer)
    requires UniqueIds(b.entries)
    ensures Refines(b, b.(entries := AcceptLocal(b.entries)))
  {
  }
}
