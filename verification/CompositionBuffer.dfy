/** The composition buffer as it runs: its operations in place, its loops as loops. */
module CompositionBuffers {
  import opened Wrappers
  import opened Text
  import opened Bopomofo
  import opened Buffers
  import opened BufferProofs

  // One entry more is shown.
  lemma ShownSnoc(s: seq<Entry>, i: nat, immediate: bool)
    requires i < |s|
    ensures Shown(s[..i + 1], immediate) == Shown(s[..i], immediate) + s[i].Display(immediate)
    ensures FinalText(s[..i + 1]) == FinalText(s[..i]) + s[i].Current()
  {
    assert s[..i + 1] == s[..i] + [s[i]];
    ShownConcat(s[..i], [s[i]], immediate);
    SingleShows(s[i], immediate);
  }

  lemma RemovedIs(b: Buffer)
    requires Wf(b) && CaretOnEntry(b)
    ensures var item := b.entries[b.idx];
            var r := if item.compositable || item.PopLast().None? || item.PopLast().value.IsNull() then ClampCaret(EraseAtCaret(b))
                     else Edit(b, b.idx, item.PopLast().value);
            RemoveLast(b) == Some(r) && Wf(r) && ClampCaret(r) == r
  {
    RemoveLastKeeps(b);
  }

  // One entry more is frozen.
  lemma FrozenSnoc(s: seq<Entry>, i: nat, firstId: nat)
    requires i < |s|
    ensures var (front, nextId) := Frozen(s[..i], firstId);
            Frozen(s[..i + 1], firstId) ==
              if s[i].compositable then (front + [s[i]], nextId)
              else (front + Literals(s[i].Reading(), nextId, false), nextId + |s[i].Reading()|)
  {
    assert s[..i + 1][..i] == s[..i];
  }

  // Where the caret is once i entries are frozen.
  function FrozenCaret(s: seq<Entry>, idx: int, i: nat, firstId: nat): int
    requires i <= |s|
  {
    if 0 <= idx < i then |Frozen(s[..idx + 1], firstId).0| - 1 else -1
  }

  // i entries are frozen.
  predicate FrozenSoFar(s: seq<Entry>, idx: int, i: nat, firstId: nat, frozen: seq<Entry>, nextId: nat, caret: int) {
    && i <= |s|
    && Frozen(s[..i], firstId) == (frozen, nextId)
    && caret == FrozenCaret(s, idx, i, firstId)
  }

  lemma FreezeIs(b: Buffer, frozen: seq<Entry>, nextId: nat, caret: int)
    requires HasUncomposedReading(b.entries) && Frozen(b.entries, b.nextId) == (frozen, nextId)
    requires caret == FrozenCaret(b.entries, b.idx, |b.entries|, b.nextId)
    ensures FreezeReadings(b) == Buffer(frozen, caret, b.immediate, b.revision + 1, nextId)
  {
  }

  class CompositionBuffer {
    var entries: seq<Entry>
    var idx: int
    var immediate: bool
    var revision: nat
    var nextId: nat

    function Value(): Buffer
      reads this
    {
      Buffer(entries, idx, immediate, revision, nextId)
    }

    constructor (immediateConversion: bool)
      ensures Value() == EmptyBuffer(immediateConversion) && Wf(Value())
    {
      entries, idx, immediate, revision, nextId := [], -1, immediateConversion, 0, 1;
    }

    // ---- queries ------------------------------------------------------------------

    method Text() returns (text: string)
      ensures text == ToText(Value())
    {
      text := "";
      for i := 0 to |entries|
        invariant text == Shown(entries[..i], immediate)
      {
        ShownSnoc(entries, i, immediate);
        text := text + entries[i].Display(immediate);
      }
      assert entries[..|entries|] == entries;
    }

    method Final() returns (text: string)
      ensures text == FinalText(entries)
    {
      text := "";
      for i := 0 to |entries|
        invariant text == FinalText(entries[..i])
      {
        ShownSnoc(entries, i, immediate);
        text := text + entries[i].Current();
      }
      assert entries[..|entries|] == entries;
    }

    method Caret() returns (offset: nat)
      requires Wf(Value())
      ensures offset == CaretOffset(Value())
    {
      offset := 0;
      var i := 0;
      while i <= idx && i < |entries|
        invariant 0 <= i <= |entries| && i <= (if idx < 0 then 0 else idx + 1)
        invariant offset == |Shown(entries[..i], immediate)|
      {
        ShownSnoc(entries, i, immediate);
        offset := offset + |entries[i].Display(immediate)|;
        i := i + 1;
      }
      if idx < 0 {
        assert entries[..0] == [];
      }
    }

    method InvalidSpan() returns (span: Option<(nat, nat)>)
      requires Wf(Value())
      ensures span == CurrentInvalidSpan(Value())
    {
      if !(0 <= idx < |entries| && entries[idx].invalid) {
        return None;
      }
      var start := 0;
      for i := 0 to idx
        invariant start == |Shown(entries[..i], immediate)|
      {
        ShownSnoc(entries, i, immediate);
        start := start + |entries[i].Display(immediate)|;
      }
      span := Some((start, |entries[idx].Display(immediate)|));
    }

    // Position of the entry, or the length.
    method Locate(id: nat) returns (position: nat)
      ensures position == IndexOf(entries, id)
    {
      position := 0;
      while position < |entries| && entries[position].id != id
        invariant position <= |entries| && forall j :: 0 <= j < position ==> entries[j].id != id
      {
        position := position + 1;
      }
    }

    // ---- edits -----------------------------------------------------------------------

    method Edited(position: nat, item: Entry)
      requires position < |entries|
      modifies this
      ensures Value() == Edit(old(Value()), position, item)
    {
      entries := entries[position := item.(version := item.version + 1)];
      revision := revision + 1;
    }

    method InsertEntry(item: Entry)
      requires Wf(Value())
      modifies this
      ensures Value() == InsertAfterCaret(old(Value()), item)
    {
      idx := idx + 1;
      entries := entries[..idx] + [item.(id := nextId)] + entries[idx..];
      nextId := nextId + 1;
      revision := revision + 1;
    }

    method EraseEntry()
      requires CaretOnEntry(Value())
      modifies this
      ensures Value() == EraseAtCaret(old(Value()))
    {
      entries := entries[..idx] + entries[idx + 1..];
      idx := idx - 1;
      revision := revision + 1;
    }

    method AddSymbol(c: char, table: Table)
      requires Wf(Value())
      modifies this
      ensures Value() == Add(old(Value()), c, table) && Wf(Value())
    {
      AddKeeps(Value(), c, table);
      if CurrentInvalid(Value()) {
        EraseKeeps(Value());
        EraseEntry();
      }
      if CaretOnEntry(Value()) {
        var accepted := entries[idx].Accept(c, table);
        if accepted.Some? {
          Edited(idx, accepted.value);
          return;
        }
      }
      InsertEntry(FreshEntry(0).Accept(c, table).value);
    }

    method AddChosenCandidate(c: char)
      requires Wf(Value())
      modifies this
      ensures Value() == AddChosen(old(Value()), c) && Wf(Value())
    {
      AddChosenKeeps(Value(), c);
      if CurrentInvalid(Value()) {
        EraseKeeps(Value());
        EraseEntry();
      }
      InsertEntry(FreshEntry(0).SetChosenCandidate(c));
    }

    method AddText(text: string)
      requires Wf(Value())
      modifies this
      ensures Value() == AddAllChosen(old(Value()), text) && Wf(Value())
    {
      for i := 0 to |text|
        invariant Wf(Value()) && Value() == AddAllChosen(old(Value()), text[..i])
      {
        assert text[..i + 1][..i] == text[..i];
        AddChosenCandidate(text[i]);
      }
      assert text[..|text|] == text;
    }

    method Remove() returns (removed: bool)
      requires Wf(Value())
      modifies this
      ensures removed == RemoveLast(old(Value())).Some?
      ensures Value() == if removed then RemoveLast(old(Value())).value else old(Value())
      ensures Wf(Value())
    {
      if !CaretOnEntry(Value()) {
        return false;
      }
      ghost var was := Value();
      var item := entries[idx];
      var popped := item.PopLast();
      RemovedIs(was);
      if item.compositable || popped.None? || popped.value.IsNull() {
        EraseEntry();
      } else {
        Edited(idx, popped.value);
      }
      idx := if entries == [] then -1 else if idx >= |entries| then |entries| - 1 else idx;
      return true;
    }

    method DiscardReading() returns (discarded: bool)
      requires Wf(Value())
      modifies this
      ensures discarded == DiscardCurrentReading(old(Value())).Some?
      ensures Value() == if discarded then DiscardCurrentReading(old(Value())).value else old(Value())
      ensures Wf(Value())
    {
      if !CaretOnEntry(Value()) || entries[idx].compositable {
        return false;
      }
      EraseKeeps(Value());
      EraseEntry();
      return true;
    }

    method Step(forward: bool) returns (moved: bool)
      requires Wf(Value())
      modifies this`idx
      ensures var stepped := if forward then Next(old(Value())) else Pre(old(Value()));
              moved == stepped.Some? && Value() == if moved then stepped.value else old(Value())
      ensures Wf(Value())
    {
      if forward {
        if idx + 1 >= |entries| {
          return false;
        }
        idx := idx + 1;
      } else {
        if idx < 0 {
          return false;
        }
        idx := idx - 1;
      }
      return true;
    }

    // One step, or as many as there are.
    method Move(forward: bool, toEdge: bool) returns (moved: bool)
      requires Wf(Value())
      modifies this`idx
      ensures moved == MoveCaret(old(Value()), forward, toEdge).Some?
      ensures Value() == if moved then MoveCaret(old(Value()), forward, toEdge).value else old(Value())
      ensures Wf(Value())
    {
      moved := Step(forward);
      if !moved || !toEdge {
        return;
      }
      var more := true;
      while more
        invariant Wf(Value()) && (!more ==> idx == if forward then |entries| - 1 else -1)
        decreases if forward then |entries| - idx else idx + 1, more
      {
        more := Step(forward);
      }
    }

    // ---- picking --------------------------------------------------------------------------

    // The symbols of a reading, as fixed text.
    method SpellOut(before: seq<Entry>, reading: string, manual: bool) returns (r: seq<Entry>)
      modifies this`nextId
      ensures r == before + Literals(reading, old(nextId), manual) && nextId == old(nextId) + |reading|
    {
      var literals: seq<Entry> := [];
      for i := 0 to |reading|
        invariant nextId == old(nextId) + i && |literals| == i
        invariant forall j :: 0 <= j < i ==> literals[j] == Literals(reading, old(nextId), manual)[j]
      {
        literals := literals + [FreshEntry(nextId).SetChosenCandidate(reading[i]).(manuallySelected := manual)];
        nextId := nextId + 1;
      }
      assert literals == Literals(reading, old(nextId), manual);
      r := before + literals;
    }

    // Each symbol of the entry's reading becomes an entry of its own.
    method SpellEntry(position: nat, reading: string)
      requires position < |entries|
      modifies this
      ensures Value() == old(Value()).(
                entries := old(entries)[..position] + Literals(reading, old(nextId), true) + old(entries)[position + 1..],
                idx := if old(idx) >= position - 1 then old(idx) + |reading| - 1 else old(idx),
                revision := old(revision) + 1, nextId := old(nextId) + |reading|)
    {
      var literals := SpellOut([], reading, true);
      assert [] + Literals(reading, old(nextId), true) == Literals(reading, old(nextId), true);
      entries := entries[..position] + literals + entries[position + 1..];
      if idx + 1 >= position {
        idx := idx + |literals| - 1;
      }
      revision := revision + 1;
    }

    method Select(id: nat, index: nat) returns (selected: bool)
      requires Wf(Value())
      modifies this
      ensures selected == SelectCandidate(old(Value()), id, index).Some?
      ensures Value() == if selected then SelectCandidate(old(Value()), id, index).value else old(Value())
      ensures Wf(Value())
    {
      if SelectCandidate(Value(), id, index).Some? {
        SelectKeeps(Value(), id, index);
      }
      var position := Locate(id);
      if position == |entries| || !entries[position].compositable || index >= |entries[position].GetCandidateTexts()| {
        return false;
      }
      var item := entries[position];
      var reading := item.MultiReadingLiteral();
      if reading.Some? && index == |item.GetCandidates()| {
        SpellEntry(position, reading.value);
      } else {
        Edited(position, item.SetChooseIndex(index));
      }
      return true;
    }

    // ---- conversions -----------------------------------------------------------------------

    method Merge(sequence: nat, requested: seq<Entry>, converted: seq<Output>, locked: Option<nat>)
      returns (changed: bool, held: Option<(Entry, Output)>)
      modifies this
      ensures MergeOutcome(Value(), changed, held) == MergeConversion(old(Value()), sequence, requested, converted, locked)
      ensures Wf(old(Value())) && NoneOpen(requested, old(Value())) ==> Wf(Value())
    {
      if Wf(Value()) && NoneOpen(requested, Value()) {
        MergeKeeps(Value(), sequence, requested, converted, locked);
      }
      changed, held := false, None;
      if |requested| != |converted| {
        return;
      }
      for k := 0 to |requested|
        invariant MergeFrom(Value(), sequence, requested, converted, locked, k, changed, held) ==
                  MergeFrom(old(Value()), sequence, requested, converted, locked, 0, false, None)
      {
        var output := converted[k];
        if !output.predicted || (!output.chosen && output.candidates == []) {
          continue;
        }
        var position := Locate(requested[k].id);
        if position == |entries| || entries[position].version != requested[k].version || entries[position].chosen
           || entries[position].convertedBy > sequence {
          continue;
        }
        if locked == Some(entries[position].id) {
          held := Some((requested[k], output));
          continue;
        }
        entries := entries[position := Converted(entries[position], sequence, output)];
        changed := true;
      }
    }

    method AcceptLocally() returns (changed: bool)
      modifies this`entries
      ensures entries == AcceptLocal(old(entries)) && changed == HasPendingConversion(old(entries))
      ensures Wf(old(Value())) ==> Wf(Value())
    {
      if Wf(Value()) {
        AcceptLocalKeeps(Value());
      }
      changed := false;
      for i := 0 to |entries|
        invariant |entries| == |old(entries)|
        invariant forall j :: 0 <= j < i ==> entries[j] == old(entries)[j].(conversionPending := false)
        invariant forall j :: i <= j < |entries| ==> entries[j] == old(entries)[j]
        invariant changed <==> exists j :: 0 <= j < i && old(entries)[j].conversionPending
      {
        if entries[i].conversionPending {
          entries := entries[i := entries[i].(conversionPending := false)];
          changed := true;
        }
      }
    }

    // ---- sealing -----------------------------------------------------------------------------

    // The entries with every unfinished reading spelled out, and the caret among them.
    method SpellOutAll() returns (frozen: seq<Entry>, caret: int)
      modifies this`nextId
      ensures Frozen(entries, old(nextId)) == (frozen, nextId)
      ensures caret == FrozenCaret(entries, idx, |entries|, old(nextId))
    {
      frozen, caret := [], -1;
      for i := 0 to |entries|
        invariant FrozenSoFar(entries, idx, i, old(nextId), frozen, nextId, caret)
      {
        FrozenSnoc(entries, i, old(nextId));
        if entries[i].compositable {
          frozen := frozen + [entries[i]];
        } else {
          frozen := SpellOut(frozen, entries[i].Reading(), false);
        }
        if i == idx {
          caret := |frozen| - 1;
        }
      }
      assert entries[..|entries|] == entries;
    }

    method Freeze() returns (changed: bool)
      modifies this
      ensures Value() == FreezeReadings(old(Value())) && changed == HasUncomposedReading(old(entries))
      ensures Wf(old(Value())) ==> Wf(Value())
    {
      if Wf(Value()) {
        FreezeKeeps(Value());
      }
      if !HasUncomposedReading(entries) {
        return false;
      }
      var frozen, caret := SpellOutAll();
      FreezeIs(old(Value()), frozen, nextId, caret);
      entries, idx, revision := frozen, caret, revision + 1;
      return true;
    }
  }
}
