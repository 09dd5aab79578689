/** Every key keeps the invariant. */
module KeyProofs {
  import opened Wrappers
  import opened Bopomofo
  import opened Buffers
  import opened BufferProofs
  import opened CandidateLocks
  import opened Conversions
  import opened Documents
  import opened DocumentProofs
  import opened DocumentInv
  import opened DocumentSteps
  import opened Controller
  import opened ControllerInv
  import opened GrantProofs
  import opened SegmentGrants
  import opened MovingProofs
  import opened CallProofs
  import opened SealProofs

  // ---- the composition's buffer changes ----------------------------------------------------

  predicate BufferStep(s: State, buffer: Buffer) {
    s.comp.Some? && Wf(buffer) && Evolves(s.comp.value.buffer, buffer)
  }

  lemma ChangedBuffer(s: State, r: State)
    requires Safe(s) && s.comp.Some? && r.comp.Some? && r == WithComp(s, r.comp.value)
    requires var c, x := s.comp.value, r.comp.value;
             && x == c.(buffer := x.buffer, candidates := x.candidates) && BufferStep(s, x.buffer)
             && (x.candidates.held.Some? ==> x.candidates.held == c.candidates.held)
    ensures Behindhand(r)
  {
    var d := s.comp.value.document;
    CompEvolves(s, r, d);
    forall x <- r.docs ensures DocOk(r, x) && (x != d ==> UpToDate(r.docs[x], LiveOf(r, x))) {
      assert DocOk(s, x) && UpToDate(s.docs[x], LiveOf(s, x));
    }
  }

  // A change of the buffer alone: the document shows it or is going to, and it is sent.
  lemma UpdateKeeps(s: State, buffer: Buffer, granted: bool)
    requires Safe(s) && BufferStep(s, buffer) && !s.conversions.dropped
    ensures Good(Update(s, buffer, granted))
  {
    var t := WithComp(s, s.comp.value.(buffer := buffer));
    ChangedBuffer(s, t);
    if buffer.entries == [] {
      DiscardKeeps(t, granted);
    } else {
      ShowKeeps(t, granted);
      RequestSafe(ShowComposition(t, granted));
    }
  }

  // ---- opening ----------------------------------------------------------------------------------

  lemma NothingSentYet(s: State, d: DocId)
    requires d in s.docs && Base(s) && s.comp.None?
    ensures forall q <- s.conversions.pending :: s.conversions.pending[q].epoch < s.nextEpoch
    ensures forall e <- s.docs[d].queue :: e.ApplyResult? ==> e.request.epoch < s.nextEpoch
  {
    assert DocOk(s, d);
    EpochsBelow(s.docs[d].queue, s.docs[d].view, s.docs[d].segments);
    assert forall e <- s.docs[d].queue :: e.ApplyResult? ==> EpochOf(e) == Some(e.request.epoch);
  }

  function OpenedComp(s: State, d: DocId): Composition {
    Composition(s.nextEpoch, d, None, EmptyBuffer(s.immediate), UNLOCKED, None, None, [], false)
  }

  function OpenQueued(s: State, d: DocId): State
    requires d in s.docs
  {
    WithDoc(s, d, Enqueue(s.docs[d], ReadContext(s.nextEpoch))).(comp := Some(OpenedComp(s, d)), nextEpoch := s.nextEpoch + 1)
  }

  lemma OpenedOk(s: State, d: DocId)
    requires d in s.docs && Safe(s) && s.comp.None?
    ensures var r := OpenQueued(s, d);
            DocOk(r, d) && UpToDate(r.docs[d], LiveOf(r, d)) && CompOk(r) && TrackerOk(r)
  {
    var doc, r, e := s.docs[d], OpenQueued(s, d), ReadContext(s.nextEpoch);
    assert DocOk(s, d);
    NothingSentYet(s, d);
    EnqueueKeeps(doc, d, e);
    ViewAppend(doc.queue, e, doc.view);
    assert r.docs[d].queue[|doc.queue|] == e;
    assert forall x <- doc.queue :: x in r.docs[d].queue;
  }

  lemma OpenSafe(s: State, d: DocId)
    requires d in s.docs && Safe(s) && s.comp.None?
    ensures Safe(OpenQueued(s, d))
  {
    var r := OpenQueued(s, d);
    OpenedOk(s, d);
    forall x <- r.docs ensures DocOk(r, x) && UpToDate(r.docs[x], LiveOf(r, x)) {
      if x != d {
        assert DocOk(s, x);
      }
    }
    assert forall e <- s.docs[d].queue :: e in r.docs[d].queue;
    QueueMoves(s, r, d);
  }

  lemma OpenKeeps(s: State, d: DocId, granted: bool)
    requires Safe(s)
    ensures Safe(Open(s, d, granted)) && Open(s, d, granted).conversions.dropped == s.conversions.dropped
    ensures !(s.comp.None? && d in s.docs) ==> Open(s, d, granted) == s
  {
    if s.comp.None? && d in s.docs {
      OpenSafe(s, d);
      GrantKeeps(OpenQueued(s, d), d, granted);
      OpenIs(s, d, granted);
    }
  }

  lemma OpenIs(s: State, d: DocId, granted: bool)
    requires s.comp.None? && d in s.docs
    ensures Open(s, d, granted) == Granting(OpenQueued(s, d), d, granted)
  {
  }

  // An open composition is in a document.
  lemma OpenElsewhere(s: State, d: DocId, granted: bool)
    requires Good(s)
    ensures !Owns(Open(s, d, granted), d) ==> Good(Open(s, d, granted))
  {
    OpenKeeps(s, d, granted);
    if s.comp.None? && d in s.docs {
      OpenIs(s, d, granted);
      OpenSafe(s, d);
      GrantKeeps(OpenQueued(s, d), d, granted);
    }
  }

  // ---- typing ----------------------------------------------------------------------------------------

  lemma TypeReadingKeeps(s: State, d: DocId, symbol: char, table: Table, g: Grants)
    requires Good(s)
    ensures Good(TypeReading(s, d, symbol, table, g))
  {
    var ready := Open(s, d, g.first);
    OpenKeeps(s, d, g.first);
    OpenElsewhere(s, d, g.first);
    if Owns(ready, d) {
      AddKeeps(ready.comp.value.buffer, symbol, table);
      UpdateKeeps(ready, Add(ready.comp.value.buffer, symbol, table), g.second);
    }
  }

  lemma TypeTextKeeps(s: State, d: DocId, text: string, g: Grants)
    requires Good(s)
    ensures Good(TypeText(s, d, text, g))
  {
    var ready := Open(s, d, g.first);
    OpenKeeps(s, d, g.first);
    OpenElsewhere(s, d, g.first);
    if text != "" && Owns(ready, d) {
      AddAllChosenKeeps(ready.comp.value.buffer, text);
      UpdateKeeps(ready, AddAllChosen(ready.comp.value.buffer, text), g.second);
    }
  }

  lemma DiscardReadingKeeps(s: State, d: DocId, g: Grants)
    requires Good(s)
    ensures Good(DiscardReading(s, d, g))
  {
    if Owns(s, d) && DiscardCurrentReading(s.comp.value.buffer).Some? {
      EraseKeeps(s.comp.value.buffer);
      UpdateKeeps(s, DiscardCurrentReading(s.comp.value.buffer).value, g.first);
    }
  }

  lemma BackspaceKeyKeeps(s: State, d: DocId, g: Grants)
    requires Good(s)
    ensures Good(BackspaceKey(s, d, g))
  {
    if Owns(s, d) && RemoveLast(s.comp.value.buffer).Some? {
      RemoveLastKeeps(s.comp.value.buffer);
      UpdateKeeps(s, RemoveLast(s.comp.value.buffer).value, g.first);
    }
  }

  lemma ShowGood(t: State, granted: bool)
    requires Behindhand(t) && t.comp.value.buffer.entries != [] && !t.conversions.dropped
    ensures Good(ShowComposition(t, granted))
  {
    ShowKeeps(t, granted);
  }

  lemma MoveCaretKeeps(s: State, d: DocId, forward: bool, toEdge: bool, g: Grants)
    requires Good(s)
    ensures Good(MoveCaretKey(s, d, forward, toEdge, g))
  {
    hide DocInv, DocOk, TrackerOk, UpToDate, Moving;
    if Owns(s, d) && MoveCaret(s.comp.value.buffer, forward, toEdge).Some? {
      var t := WithComp(s, s.comp.value.(buffer := MoveCaret(s.comp.value.buffer, forward, toEdge).value));
      ChangedBuffer(s, t);
      ShowGood(t, g.first);
    }
  }

  // ---- ending -----------------------------------------------------------------------------------------

  lemma GoodIsShown(s: State)
    requires Good(s) && s.comp.Some?
    ensures Behindhand(s) && TextShown(s)
  {
    var d := s.comp.value.document;
    assert UpToDate(s.docs[d], LiveOf(s, d));
  }

  lemma EnterKeeps(s: State, d: DocId, g: Grants)
    requires Good(s)
    ensures Good(Enter(s, d, g))
  {
    if Owns(s, d) && !HasUncomposedReading(s.comp.value.buffer.entries) {
      if Settled(s.comp.value) {
        GoodIsShown(s);
        CommitKeeps(s, g.first);
      } else {
        RequestSafe(s);
        SealKeeps(RequestConversion(s), g);
      }
    }
  }

  lemma EscapeKeeps(s: State, d: DocId, g: Grants)
    requires Good(s)
    ensures Good(Escape(s, d, g))
  {
    if Owns(s, d) {
      DiscardKeeps(s, g.first);
    }
  }

  lemma EraseQueued(s: State, d: DocId)
    requires Good(s) && d in s.docs && !Owns(s, d)
    ensures var doc := s.docs[d];
            Good(WithDoc(s, d, Enqueue(doc.(intents := doc.intents + [Erased]), Backspace)))
  {
    var doc := s.docs[d];
    var r := WithDoc(s, d, Enqueue(doc.(intents := doc.intents + [Erased]), Backspace));
    assert DocOk(s, d);
    EnqueueErase(doc, d);
    ViewAppend(doc.queue, Backspace, doc.view);
    assert forall e <- doc.queue :: e in r.docs[d].queue;
    CompUntouched(s, r);
    Assembled(s, r, d);
    QueueMoves(s, r, d);
  }

  lemma EraseKeyKeeps(s: State, d: DocId, g: Grants)
    requires Good(s)
    ensures Good(BackspaceInOrder(s, d, g))
  {
    if !Owns(s, d) && d in s.docs {
      var doc := s.docs[d];
      var erased := doc.(intents := doc.intents + [Erased]);
      EraseQueued(s, d);
      WithDocTwice(s, d, erased, Enqueue(erased, Backspace));
      GrantKeeps(WithDoc(s, d, Enqueue(erased, Backspace)), d, g.first);
    }
  }

  // ---- the candidate list --------------------------------------------------------------------------------

  // Nothing that is shown or asked for changes.
  lemma SameShown(s: State, r: State)
    requires Good(s) && s.comp.Some? && r.comp.Some? && r == WithComp(s, r.comp.value)
    requires var c, x := s.comp.value, r.comp.value;
             x == c.(candidates := x.candidates) && (x.candidates.held.Some? ==> x.candidates.held == c.candidates.held)
    ensures Good(r)
  {
    var d := s.comp.value.document;
    ChangedBuffer(s, r);
    assert UpToDate(s.docs[d], LiveOf(s, d));
    assert UpToDate(r.docs[d], LiveOf(r, d));
  }

  lemma PickKeeps(s: State, d: DocId, entry: nat, index: nat, g: Grants)
    requires Good(s)
    ensures Good(Pick(s, d, entry, index, g))
  {
    hide DocInv, CallsOk;
    if Owns(s, d) {
      var b := s.comp.value.buffer;
      var picked := SelectCandidate(b, entry, index);
      var chosen := if picked.Some? then picked.value else b;
      if picked.Some? {
        SelectKeeps(b, entry, index);
      }
      assert Evolves(b, chosen);
      EvolvesTransitive(b, chosen, NextOrStay(chosen));
      UpdateKeeps(s, NextOrStay(chosen), g.first);
    }
  }

  lemma ClosedKeeps(s: State, d: DocId, g: Grants)
    requires Good(s)
    ensures Good(CandidatesClosed(s, d, g))
  {
    if Owns(s, d) {
      var c := s.comp.value;
      var held := c.candidates.held;
      if held.None? {
        SameShown(s, WithComp(s, c.(candidates := UNLOCKED)));
      } else {
        MergeKeeps(c.buffer, held.value.sequence, [held.value.requested], [held.value.converted], None);
        var outcome := MergeConversion(c.buffer, held.value.sequence, [held.value.requested], [held.value.converted], None);
        var t := WithComp(s, c.(candidates := UNLOCKED, buffer := outcome.buffer));
        if outcome.changed {
          ChangedBuffer(s, t);
          ShowGood(t, g.first);
        } else {
          SameShown(s, t);
        }
      }
    }
  }
}
