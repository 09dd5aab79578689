/** What every buffer operation keeps, and what it shows. */
module BufferProofs {
  import opened Wrappers
  import opened Bopomofo
  import opened Buffers
  import opened Text

  // ---- text ------------------------------------------------------------------

  function Displays(s: seq<Entry>, immediate: bool): seq<string> {
    seq(|s|, i requires 0 <= i < |s| => s[i].Display(immediate))
  }

  function Currents(s: seq<Entry>): seq<string> {
    seq(|s|, i requires 0 <= i < |s| => s[i].Current())
  }

  lemma ShownConcat(a: seq<Entry>, b: seq<Entry>, immediate: bool)
    ensures Shown(a + b, immediate) == Shown(a, immediate) + Shown(b, immediate)
    ensures FinalText(a + b) == FinalText(a) + FinalText(b)
  {
    assert Displays(a + b, immediate) == Displays(a, immediate) + Displays(b, immediate);
    ConcatAppend(Displays(a, immediate), Displays(b, immediate));
    assert Currents(a + b) == Currents(a) + Currents(b);
    ConcatAppend(Currents(a), Currents(b));
  }

  // Nothing pending: what is shown is what the composition becomes.
  lemma ShownIsFinal(s: seq<Entry>, immediate: bool)
    requires !HasPendingConversion(s)
    ensures Shown(s, immediate) == FinalText(s)
  {
    assert forall e <- s :: e.Display(immediate) == e.Current();
    assert Displays(s, immediate) == Currents(s);
  }

  lemma {:induction false} ConcatOfSingles(parts: seq<string>)
    requires forall p <- parts :: |p| == 1
    ensures |Concat(parts)| == |parts|
    ensures forall i :: 0 <= i < |parts| ==> parts[i] == [Concat(parts)[i]]
  {
    if parts != [] {
      assert parts[|parts| - 1] in parts;
      ConcatOfSingles(parts[..|parts| - 1]);
    }
  }

  // Completed entries become one character each.
  lemma FinalTextPrefix(s: seq<Entry>, k: nat)
    requires !HasUncomposedReading(s) && (forall e <- s :: e.Wf()) && k <= |s|
    ensures |FinalText(s)| == |s| && FinalText(s[..k]) == FinalText(s)[..k]
  {
    assert forall p <- Currents(s) :: |p| == 1;
    ConcatOfSingles(Currents(s));
    assert Currents(s[..k]) == Currents(s)[..k];
    assert forall p <- Currents(s)[..k] :: |p| == 1;
    ConcatOfSingles(Currents(s)[..k]);
  }

  lemma LiteralsShow(text: string, firstId: nat, manual: bool, immediate: bool)
    ensures Shown(Literals(text, firstId, manual), immediate) == text
    ensures FinalText(Literals(text, firstId, manual)) == text
  {
    var r := Literals(text, firstId, manual);
    assert forall i :: 0 <= i < |r| ==> r[i].Current() == [text[i]];
    assert Displays(r, immediate) == Currents(r);
    assert forall p <- Currents(r) :: |p| == 1;
    ConcatOfSingles(Currents(r));
    assert forall i :: 0 <= i < |text| ==> Currents(r)[i] == [text[i]];
  }

  // ---- freezing ----------------------------------------------------------------

  lemma SingleShows(e: Entry, immediate: bool)
    ensures Shown([e], immediate) == e.Display(immediate) && FinalText([e]) == e.Current()
  {
    assert Displays([e], immediate) == [e.Display(immediate)];
    assert Currents([e]) == [e.Current()];
    ConcatSingle(e.Display(immediate));
    ConcatSingle(e.Current());
  }

  lemma {:induction false} FrozenShows(s: seq<Entry>, firstId: nat, immediate: bool)
    requires forall e <- s :: e.Wf()
    ensures var f := Frozen(s, firstId).0;
            Shown(f, immediate) == Shown(s, immediate) && FinalText(f) == FinalText(s)
  {
    if s != [] {
      var front, item := s[..|s| - 1], s[|s| - 1];
      assert item in s && s == front + [item];
      FrozenShows(front, firstId, immediate);
      var (g, nextId) := Frozen(front, firstId);
      var added := if item.compositable then [item] else Literals(item.Reading(), nextId, false);
      ShownConcat(front, [item], immediate);
      ShownConcat(g, added, immediate);
      assert Shown(added, immediate) == Shown([item], immediate) && FinalText(added) == FinalText([item]) by {
        SingleShows(item, immediate);
        if !item.compositable {
          LiteralsShow(item.Reading(), nextId, false, immediate);
        }
      }
    }
  }

  lemma {:induction false} FrozenComposed(s: seq<Entry>, firstId: nat)
    ensures !HasUncomposedReading(Frozen(s, firstId).0)
  {
    if s != [] {
      FrozenComposed(s[..|s| - 1], firstId);
    }
  }

  lemma {:induction false} FrozenPrefix(s: seq<Entry>, firstId: nat, k: nat)
    requires k <= |s|
    ensures Frozen(s[..k], firstId).0 <= Frozen(s, firstId).0
    ensures Frozen(s[..k], firstId).1 <= Frozen(s, firstId).1
    decreases |s| - k
  {
    if k < |s| {
      FrozenPrefix(s, firstId, k + 1);
      assert s[..k + 1][..|s[..k + 1]| - 1] == s[..k];
    } else {
      assert s[..k] == s;
    }
  }

  lemma FreezeText(b: Buffer)
    requires Wf(b) && HasUncomposedReading(b.entries)
    ensures var r := FreezeReadings(b);
            && ToText(r) == ToText(b) && FinalText(r.entries) == FinalText(b.entries)
            && !HasUncomposedReading(r.entries) && r.revision > b.revision
  {
    FrozenShows(b.entries, b.nextId, b.immediate);
    FrozenComposed(b.entries, b.nextId);
  }

  lemma FreezeCaret(b: Buffer)
    requires Wf(b) && HasUncomposedReading(b.entries)
    ensures CaretOffset(FreezeReadings(b)) == CaretOffset(b)
  {
    if CaretOnEntry(b) {
      FrozenHead(b.entries, b.idx + 1, b.nextId, b.immediate);
      CaretAfter(FreezeReadings(b), |Frozen(b.entries[..b.idx + 1], b.nextId).0|);
    }
  }

  // The caret is behind the first n entries.
  lemma CaretAfter(b: Buffer, n: nat)
    requires b.idx == n - 1 && n <= |b.entries|
    ensures CaretOffset(b) == |Shown(b.entries[..n], b.immediate)|
  {
    if n == 0 {
      assert b.entries[..n] == [];
    }
  }

  // Freezing is invisible: the display, the caret offset and the final text are those from before.
  lemma FreezePreserves(b: Buffer)
    requires Wf(b)
    ensures var r := FreezeReadings(b);
            && ToText(r) == ToText(b) && CaretOffset(r) == CaretOffset(b)
            && FinalText(r.entries) == FinalText(b.entries)
            && !HasUncomposedReading(r.entries)
            && (r == b || r.revision > b.revision)
  {
    if HasUncomposedReading(b.entries) {
      FreezeText(b);
      FreezeCaret(b);
    }
  }

  // What is shown up to an entry stays shown up to where it ends.
  lemma FrozenHead(s: seq<Entry>, k: nat, firstId: nat, immediate: bool)
    requires (forall e <- s :: e.Wf()) && k <= |s|
    ensures var f, n := Frozen(s, firstId).0, |Frozen(s[..k], firstId).0|;
            n <= |f| && Shown(f[..n], immediate) == Shown(s[..k], immediate)
  {
    var head := s[..k];
    assert forall e <- head :: e in s;
    FrozenPrefix(s, firstId, k);
    FrozenShows(head, firstId, immediate);
    assert Frozen(s, firstId).0[..|Frozen(head, firstId).0|] == Frozen(head, firstId).0;
  }

  lemma {:induction false} FrozenWf(s: seq<Entry>, firstId: nat)
    requires UniqueIds(s) && forall e <- s :: e.Wf() && e.id < firstId
    ensures var (f, nextId) := Frozen(s, firstId);
            && firstId <= nextId && UniqueIds(f)
            && (forall e <- f :: e.Wf() && e.id < nextId && (e.id >= firstId || e in s))
  {
    if s != [] {
      var front := s[..|s| - 1];
      assert forall e <- front :: e in s;
      FrozenWf(front, firstId);
      var (g, nextId) := Frozen(front, firstId);
      var item := s[|s| - 1];
      assert item in s;
      if item.compositable {
        forall i | 0 <= i < |g| ensures g[i].id != item.id {
          assert g[i] in g;
          if g[i].id < firstId {
            var j :| 0 <= j < |front| && front[j] == g[i];
            assert s[j] == g[i];
          }
        }
      } else {
        var l := Literals(item.Reading(), nextId, false);
        forall i, j | 0 <= i < |g| && 0 <= j < |l| ensures g[i].id != l[j].id {
          assert g[i] in g;
        }
      }
    }
  }

  // ---- every edit keeps the buffer well formed -----------------------------------

  // The id of a reading still being typed.
  predicate IsOpen(b: Buffer, id: nat) {
    exists e <- b.entries :: !e.compositable && e.id == id
  }

  // Ids are never reused, and a completed entry never becomes a reading again.
  predicate Evolves(b: Buffer, r: Buffer) {
    && b.nextId <= r.nextId && b.immediate == r.immediate && b.revision <= r.revision
    && forall e <- r.entries :: !e.compositable ==> e.id >= b.nextId || IsOpen(b, e.id)
  }

  // A request was taken of completed entries only.
  predicate RequestFits(requested: seq<Entry>, b: Buffer) {
    forall e <- requested :: e.id < b.nextId && !IsOpen(b, e.id)
  }

  // No entry asked for is a reading.
  predicate NoneOpen(requested: seq<Entry>, b: Buffer) {
    forall e <- requested :: !IsOpen(b, e.id)
  }

  lemma EvolvesFits(requested: seq<Entry>, b: Buffer, r: Buffer)
    requires RequestFits(requested, b) && Evolves(b, r)
    ensures RequestFits(requested, r)
  {
  }

  lemma SnapshotFits(b: Buffer)
    requires Wf(b) && ConversionSnapshot(b).Some?
    ensures RequestFits(ConversionSnapshot(b).value.entries, b)
  {
  }

  lemma InsertKeeps(b: Buffer, e: Entry)
    requires Wf(b) && e.Wf()
    ensures Wf(InsertAfterCaret(b, e)) && Evolves(b, InsertAfterCaret(b, e))
  {
    var r := InsertAfterCaret(b, e);
    forall o <- r.entries ensures o.Wf() && o.id < r.nextId && (o.id >= b.nextId || o in b.entries) {
    }
  }

  lemma EraseKeeps(b: Buffer)
    requires Wf(b) && CaretOnEntry(b)
    ensures Wf(EraseAtCaret(b)) && Evolves(b, EraseAtCaret(b))
  {
    var r := EraseAtCaret(b);
    assert forall o <- r.entries :: o in b.entries;
  }

  lemma EditKeeps(b: Buffer, i: nat, e: Entry)
    requires Wf(b) && i < |b.entries| && e.Wf() && e.id == b.entries[i].id
    requires b.entries[i].compositable ==> e.compositable
    ensures Wf(Edit(b, i, e)) && Evolves(b, Edit(b, i, e))
  {
    var r := Edit(b, i, e);
    forall o <- r.entries ensures o.Wf() && o.id < r.nextId && (!o.compositable ==> IsOpen(b, o.id)) {
      if o != r.entries[i] {
        assert o in b.entries;
      }
    }
  }

  lemma EvolvesTransitive(a: Buffer, b: Buffer, c: Buffer)
    requires Evolves(a, b) && Evolves(b, c)
    ensures Evolves(a, c)
  {
  }

  lemma ClearedKeeps(b: Buffer)
    requires Wf(b)
    ensures var r := WithoutInvalid(b); Wf(r) && Evolves(b, r) && r.revision >= b.revision
  {
    if CurrentInvalid(b) {
      EraseKeeps(b);
    }
  }

  lemma SymbolisedKeeps(b: Buffer, c: char, table: Table)
    requires Wf(b)
    ensures var r := Symbolised(b, c, table); Wf(r) && Evolves(b, r) && r.entries != [] && r.revision > b.revision
  {
    if CaretOnEntry(b) && b.entries[b.idx].Accept(c, table).Some? {
      assert b.entries[b.idx] in b.entries;
      EditKeeps(b, b.idx, b.entries[b.idx].Accept(c, table).value);
    } else {
      InsertKeeps(b, FreshEntry(0).Accept(c, table).value);
    }
  }

  lemma AddKeeps(b: Buffer, c: char, table: Table)
    requires Wf(b)
    ensures Wf(Add(b, c, table)) && Evolves(b, Add(b, c, table)) && Add(b, c, table).entries != []
    ensures Add(b, c, table).revision > b.revision
  {
    ClearedKeeps(b);
    SymbolisedKeeps(WithoutInvalid(b), c, table);
    EvolvesTransitive(b, WithoutInvalid(b), Add(b, c, table));
  }

  lemma AddChosenKeeps(b: Buffer, c: char)
    requires Wf(b)
    ensures Wf(AddChosen(b, c)) && Evolves(b, AddChosen(b, c)) && AddChosen(b, c).entries != []
    ensures AddChosen(b, c).revision > b.revision
  {
    ClearedKeeps(b);
    InsertKeeps(WithoutInvalid(b), FreshEntry(0).SetChosenCandidate(c));
    EvolvesTransitive(b, WithoutInvalid(b), AddChosen(b, c));
  }

  lemma {:induction false} AddAllChosenKeeps(b: Buffer, text: string)
    requires Wf(b)
    ensures var r := AddAllChosen(b, text);
            Wf(r) && Evolves(b, r) && (text != "" ==> r.entries != [] && r.revision > b.revision)
  {
    if text != "" {
      var front := AddAllChosen(b, text[..|text| - 1]);
      AddAllChosenKeeps(b, text[..|text| - 1]);
      AddChosenKeeps(front, text[|text| - 1]);
      EvolvesTransitive(b, front, AddAllChosen(b, text));
    }
  }

  lemma RemoveLastKeeps(b: Buffer)
    requires Wf(b) && RemoveLast(b).Some?
    ensures Wf(RemoveLast(b).value) && Evolves(b, RemoveLast(b).value)
    ensures RemoveLast(b).value.revision > b.revision
  {
    var e := b.entries[b.idx];
    if e.compositable || e.PopLast().None? || e.PopLast().value.IsNull() {
      EraseKeeps(b);
    } else {
      EditKeeps(b, b.idx, e.PopLast().value);
    }
  }

  // Replacing the entry at position by fixed symbols with fresh ids.
  lemma SpliceKeeps(b: Buffer, position: nat, text: string, idx: int)
    requires Wf(b) && position < |b.entries| && -1 <= idx < |b.entries| - 1 + |text|
    ensures var r := Buffer(b.entries[..position] + Literals(text, b.nextId, true) + b.entries[position + 1..],
                            idx, b.immediate, b.revision + 1, b.nextId + |text|);
            Wf(r) && Evolves(b, r)
  {
    var l := Literals(text, b.nextId, true);
    var s := b.entries[..position] + l + b.entries[position + 1..];
    forall o <- s ensures o.Wf() && o.id < b.nextId + |text| && (o in b.entries || (o.id >= b.nextId && o.compositable)) {
      if o in b.entries[..position] {
      } else if o in l {
      } else {
        assert o in b.entries[position + 1..];
      }
    }
    SpliceUnique(b.entries, position, l, b.nextId);
  }

  lemma SpliceUnique(s: seq<Entry>, position: nat, l: seq<Entry>, firstId: nat)
    requires UniqueIds(s) && position < |s| && (forall e <- s :: e.id < firstId)
    requires forall i :: 0 <= i < |l| ==> l[i].id == firstId + i
    ensures UniqueIds(s[..position] + l + s[position + 1..])
  {
    var r := s[..position] + l + s[position + 1..];
    forall i, j | 0 <= i < j < |r| ensures r[i].id != r[j].id {
      assert i < position ==> r[i] == s[i];
      assert position <= i < position + |l| ==> r[i] == l[i - position];
      assert i >= position + |l| ==> r[i] == s[i - |l| + 1];
      assert j < position ==> r[j] == s[j];
      assert position <= j < position + |l| ==> r[j] == l[j - position];
      assert j >= position + |l| ==> r[j] == s[j - |l| + 1];
    }
  }

  lemma SelectKeeps(b: Buffer, id: nat, index: nat)
    requires Wf(b) && SelectCandidate(b, id, index).Some?
    ensures Wf(SelectCandidate(b, id, index).value) && Evolves(b, SelectCandidate(b, id, index).value)
    ensures SelectCandidate(b, id, index).value.revision > b.revision
    ensures SelectCandidate(b, id, index).value.entries != []
  {
    var position := IndexOf(b.entries, id);
    var item := b.entries[position];
    var reading := item.MultiReadingLiteral();
    if reading.Some? && index == |item.GetCandidates()| {
      var idx := if b.idx + 1 >= position then b.idx + |reading.value| - 1 else b.idx;
      SpliceKeeps(b, position, reading.value, idx);
    } else {
      ChoiceShows(item, index);
      EditKeeps(b, position, item.SetChooseIndex(index));
    }
  }

  lemma FreezeKeeps(b: Buffer)
    requires Wf(b)
    ensures Wf(FreezeReadings(b)) && Evolves(b, FreezeReadings(b))
    ensures b.entries != [] && HasUncomposedReading(b.entries) ==> FreezeReadings(b).revision > b.revision
  {
    if HasUncomposedReading(b.entries) {
      var r := FreezeReadings(b);
      FrozenWf(b.entries, b.nextId);
      FrozenComposed(b.entries, b.nextId);
      if CaretOnEntry(b) {
        FrozenPrefix(b.entries, b.nextId, b.idx + 1);
      }
    }
  }

  lemma AcceptLocalKeeps(b: Buffer)
    requires Wf(b)
    ensures var r := b.(entries := AcceptLocal(b.entries));
            Wf(r) && Evolves(b, r) && !HasPendingConversion(r.entries)
            && (HasUncomposedReading(r.entries) <==> HasUncomposedReading(b.entries))
  {
    var r := AcceptLocal(b.entries);
    forall e <- r ensures e.Wf() && e.id < b.nextId && (!e.compositable ==> IsOpen(b, e.id)) && !e.conversionPending {
      var i :| 0 <= i < |r| && r[i] == e;
      assert b.entries[i] in b.entries;
    }
    if HasUncomposedReading(b.entries) {
      var i :| 0 <= i < |r| && !b.entries[i].compositable;
      assert r[i] in r;
    }
  }

  // ---- merging -------------------------------------------------------------------

  lemma ConvertedKeeps(b: Buffer, i: nat, sequence: nat, output: Output)
    requires Wf(b) && i < |b.entries| && b.entries[i].compositable && Convertible(output)
    ensures var r := b.(entries := b.entries[i := Converted(b.entries[i], sequence, output)]);
            && Wf(r) && Evolves(b, r)
            && (HasUncomposedReading(r.entries) <==> HasUncomposedReading(b.entries))
  {
    var r := b.(entries := b.entries[i := Converted(b.entries[i], sequence, output)]);
    assert r.entries[i].Wf();
    forall e <- r.entries ensures e.Wf() && e.id < b.nextId && (!e.compositable ==> e in b.entries) {
      var j :| 0 <= j < |r.entries| && r.entries[j] == e;
      if j != i {
        assert e == b.entries[j];
      }
    }
    if HasUncomposedReading(b.entries) {
      var j :| 0 <= j < |b.entries| && !b.entries[j].compositable;
      assert r.entries[j] in r.entries;
    }
  }

  // A merge changes outputs only: no entry comes, goes or becomes a reading.
  lemma {:induction false} MergeFromKeeps(b: Buffer, sequence: nat, requested: seq<Entry>, converted: seq<Output>,
                                          locked: Option<nat>, k: nat, changed: bool, held: Option<(Entry, Output)>)
    requires Wf(b) && NoneOpen(requested, b) && |requested| == |converted| && k <= |requested|
    ensures var m := MergeFrom(b, sequence, requested, converted, locked, k, changed, held);
            && Wf(m.buffer) && Evolves(b, m.buffer)
            && m.buffer == b.(entries := m.buffer.entries) && |m.buffer.entries| == |b.entries|
            && (HasUncomposedReading(m.buffer.entries) <==> HasUncomposedReading(b.entries))
            && (!m.changed ==> m.buffer == b && !changed)
            && (m.held.Some? ==> m.held == held || m.held.value.0 in requested)
    decreases |requested| - k
  {
    if k < |requested| {
      var position := IndexOf(b.entries, requested[k].id);
      if position == |b.entries| || !Lands(b.entries[position], sequence, requested[k], converted[k]) {
        MergeFromKeeps(b, sequence, requested, converted, locked, k + 1, changed, held);
      } else if locked == Some(requested[k].id) {
        MergeFromKeeps(b, sequence, requested, converted, locked, k + 1, changed, Some((requested[k], converted[k])));
      } else {
        var r := b.(entries := b.entries[position := Converted(b.entries[position], sequence, converted[k])]);
        assert requested[k] in requested && b.entries[position] in b.entries;
        ConvertedKeeps(b, position, sequence, converted[k]);
        assert NoneOpen(requested, r);
        MergeFromKeeps(r, sequence, requested, converted, locked, k + 1, true, held);
        EvolvesTransitive(b, r, MergeFrom(r, sequence, requested, converted, locked, k + 1, true, held).buffer);
      }
    }
  }

  lemma MergeKeeps(b: Buffer, sequence: nat, requested: seq<Entry>, converted: seq<Output>, locked: Option<nat>)
    requires Wf(b) && NoneOpen(requested, b)
    ensures var m := MergeConversion(b, sequence, requested, converted, locked);
            && Wf(m.buffer) && Evolves(b, m.buffer)
            && m.buffer == b.(entries := m.buffer.entries) && |m.buffer.entries| == |b.entries|
            && (HasUncomposedReading(m.buffer.entries) <==> HasUncomposedReading(b.entries))
            && (!m.changed ==> m.buffer == b)
            && (m.held.Some? ==> m.held.value.0 in requested)
  {
    if |requested| == |converted| {
      MergeFromKeeps(b, sequence, requested, converted, locked, 0, false, None);
    }
  }

  // ---- picking a candidate ----------------------------------------------------------

  // What is picked is what appears: the entry's text becomes the candidate as
  // listed, the text around it stays.
  lemma PickedAppears(b: Buffer, id: nat, index: nat) returns (position: nat, picked: seq<Entry>)
    requires Wf(b) && SelectCandidate(b, id, index).Some?
    ensures position == IndexOf(b.entries, id) < |b.entries|
    ensures SelectCandidate(b, id, index).value.entries == b.entries[..position] + picked + b.entries[position + 1..]
    ensures AllChosen(picked) && picked != []
    ensures Shown(picked, b.immediate) == FinalText(picked) == b.entries[position].GetCandidateTexts()[index]
  {
    position := IndexOf(b.entries, id);
    var item := b.entries[position];
    var reading := item.MultiReadingLiteral();
    if reading.Some? && index == |item.GetCandidates()| {
      picked := Literals(reading.value, b.nextId, true);
      SpelledShows(item, index, b.nextId, b.immediate);
    } else {
      var e := item.SetChooseIndex(index);
      picked := [e.(version := e.version + 1)];
      ListedShows(item, index, b.immediate);
      SingleReplaced(b.entries, position, picked[0]);
    }
  }

  lemma SingleReplaced(s: seq<Entry>, i: nat, e: Entry)
    requires i < |s|
    ensures s[i := e] == s[..i] + [e] + s[i + 1..]
  {
  }

  lemma SpelledShows(item: Entry, index: nat, firstId: nat, immediate: bool)
    requires item.MultiReadingLiteral().Some? && index == |item.GetCandidates()|
    ensures index < |item.GetCandidateTexts()|
    ensures var picked := Literals(item.MultiReadingLiteral().value, firstId, true);
            && AllChosen(picked) && picked != []
            && Shown(picked, immediate) == FinalText(picked) == item.GetCandidateTexts()[index]
  {
    LiteralsShow(item.MultiReadingLiteral().value, firstId, true, immediate);
  }

  lemma ListedShows(item: Entry, index: nat, immediate: bool)
    requires item.compositable && index < |item.GetCandidateTexts()|
    requires !(item.MultiReadingLiteral().Some? && index == |item.GetCandidates()|)
    ensures index < |item.GetCandidates()|
    ensures var e := item.SetChooseIndex(index).(version := item.SetChooseIndex(index).version + 1);
            e.chosen && Shown([e], immediate) == FinalText([e]) == item.GetCandidateTexts()[index]
  {
    var e := item.SetChooseIndex(index);
    ChoiceShows(item, index);
    SingleShows(e.(version := e.version + 1), immediate);
  }

  // Stepping once after the pick leaves the caret right after what was picked,
  // wherever it stood before: in front of the candidate target or behind it.
  lemma CaretFollowsPick(b: Buffer, index: nat)
    requires Wf(b) && CandidateTargetIndex(b) >= 0
    requires SelectCandidate(b, b.entries[CandidateTargetIndex(b)].id, index).Some?
    ensures var target := CandidateTargetIndex(b);
            var r := NextOrStay(SelectCandidate(b, b.entries[target].id, index).value);
            CaretOffset(r) == |Shown(b.entries[..target], b.immediate)| + |b.entries[target].GetCandidateTexts()[index]|
  {
    var target := CandidateTargetIndex(b);
    var id := b.entries[target].id;
    var position, picked := PickedAppears(b, id, index);
    assert position == target;
    var s := SelectCandidate(b, id, index).value;
    var r := NextOrStay(s);
    var before := b.entries[..target];
    assert r.idx == target + |picked| - 1 by {
      var item := b.entries[position];
      var reading := item.MultiReadingLiteral();
      if reading.Some? && index == |item.GetCandidates()| {
        assert s.entries == before + Literals(reading.value, b.nextId, true) + b.entries[position + 1..];
        assert |picked| == |reading.value|;
      } else {
        assert |s.entries| == |b.entries|;
      }
    }
    assert r.entries[..r.idx + 1] == before + picked;
    ShownConcat(before, picked, b.immediate);
  }
}
