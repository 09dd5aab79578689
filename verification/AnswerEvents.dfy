/** Every event keeps where text comes from. */
module AnswerEvents {
  import opened Wrappers
  import opened Bopomofo
  import opened Buffers
  import opened BufferProofs
  import opened BufferHistory
  import opened CandidateLocks
  import opened Merging
  import opened Absorbing
  import opened Conversions
  import opened Documents
  import opened DocumentProofs
  import opened DocumentInv
  import opened DocumentSteps
  import opened Controller
  import opened ControllerInv
  import opened GrantProofs
  import opened SegmentGrants
  import opened CallProofs
  import opened SealProofs
  import opened KeyProofs
  import opened ResultProofs
  import opened AnswerInv
  import opened AnswerSteps
  import opened AnswerLive
  import opened AnswerRequests
  import opened AnswerGrants
  import opened AnswerPresence

  lemma SafeApart(s: State)
    requires Safe(s)
    ensures Apart(s)
  {
    BaseApart(s);
  }

  // ---- the composition changes --------------------------------------------------------

  // The composition alone changes.
  lemma ComposedTold(s: State, c: Composition)
    requires Told(s) && s.comp.Some? && c.document == s.comp.value.document
    requires CompositionTold(s.conversions, c, s.docs[c.document].queue)
    ensures Told(WithComp(s, c))
  {
    hide CompositionTold, DocumentTold;
  }

  lemma RevisedStateTold(s: State, c: Composition)
    requires Told(s) && s.comp.Some? && Revises(s.comp.value.buffer, c.buffer)
    requires c == s.comp.value.(buffer := c.buffer, candidates := c.candidates) && c.candidates.held == s.comp.value.candidates.held
    ensures Told(WithComp(s, c))
  {
    hide DocumentTold;
    RevisedTold(s.conversions, s.comp.value, c, s.docs[c.document].queue);
    ComposedTold(s, c);
  }

  // The composition is gone.
  lemma EndedStateTold(s: State)
    requires Told(s)
    ensures Told(s.(comp := None))
  {
    hide CompositionTold, DocumentTold;
  }

  lemma ShowTold(t: State, granted: bool)
    requires Told(t) && Behindhand(t)
    ensures Told(ShowComposition(t, granted))
  {
    hide Told;
    var d, c := t.comp.value.document, t.comp.value;
    var queued := WithDoc(t, d, Enqueue(t.docs[d], Show(c.epoch, Render(c.buffer))));
    ShowQueued(t);
    WriteQueuedTold(t, d, Show(c.epoch, Render(c.buffer)));
    GrantTold(queued, d, granted);
  }

  lemma DiscardTold(t: State, granted: bool)
    requires Told(t) && Behindhand(t)
    ensures Told(DiscardComposition(t, granted))
  {
    hide Told;
    var d, e := t.comp.value.document, Discard(t.comp.value.epoch);
    DiscardQueued(t);
    EndedStateTold(t);
    WriteQueuedTold(t.(comp := None), d, e);
    GrantTold(WithDoc(t.(comp := None), d, Enqueue(t.docs[d], e)), d, granted);
  }

  lemma SafeRequestTold(s: State)
    requires Told(s) && Safe(s) && s.comp.Some?
    ensures Told(RequestConversion(s))
  {
    SafeApart(s);
    RequestTold(s);
  }

  lemma UpdateTold(s: State, buffer: Buffer, granted: bool)
    requires Told(s) && Safe(s) && BufferStep(s, buffer) && Revises(s.comp.value.buffer, buffer)
    ensures Told(Update(s, buffer, granted))
  {
    hide Told, Safe, ShowComposition, DiscardComposition, RequestConversion, Drain;
    var t := WithComp(s, s.comp.value.(buffer := buffer));
    ChangedBuffer(s, t);
    RevisedStateTold(s, s.comp.value.(buffer := buffer));
    if buffer.entries == [] {
      DiscardTold(t, granted);
    } else {
      ShowTold(t, granted);
      ShowKeeps(t, granted);
      SafeRequestTold(ShowComposition(t, granted));
    }
  }

  // ---- opening --------------------------------------------------------------------------

  lemma NothingAskedYet(s: State)
    requires LogOk(s.conversions) && TrackerOk(s)
    ensures s.nextEpoch !in s.conversions.newest
    ensures forall q <- s.conversions.asked :: s.conversions.asked[q].epoch != s.nextEpoch
  {
  }

  lemma NothingAcceptedYet(s: State, d: DocId)
    requires d in s.docs && Base(s) && s.comp.None?
    ensures AcceptLocally(s.nextEpoch) !in s.docs[d].queue
  {
    assert DocOk(s, d);
    EpochsBelow(s.docs[d].queue, s.docs[d].view, s.docs[d].segments);
    assert EpochOf(AcceptLocally(s.nextEpoch)) == Some(s.nextEpoch);
  }

  lemma OpenedTold(t: Tracker, c: Composition, queue: seq<Edit>)
    requires LogOk(t) && c.epoch !in t.newest && (forall q <- t.asked :: t.asked[q].epoch != c.epoch)
    requires c.buffer.entries == [] && c.candidates == UNLOCKED && c.sent.None? && c.converted.None? && c.applied == [] && !c.lost
    requires AcceptLocally(c.epoch) !in queue
    ensures CompositionTold(t, c, queue)
  {
  }

  lemma OpenTold(s: State, d: DocId, granted: bool)
    requires Told(s) && Safe(s)
    ensures Told(Open(s, d, granted))
  {
    if s.comp.None? && d in s.docs {
      OpenNow(s, d, granted);
    }
  }

  lemma OpenNow(s: State, d: DocId, granted: bool)
    requires Told(s) && Safe(s) && s.comp.None? && d in s.docs
    ensures Told(Open(s, d, granted))
  {
    var e := ReadContext(s.nextEpoch);
    NothingAskedYet(s);
    NothingAcceptedYet(s, d);
    WriteQueuedTold(s, d, e);
    OpenSafe(s, d);
    OpenIs(s, d, granted);
    hide DocumentTold, CompositionTold, Safe, Base;
    var r := OpenQueued(s, d);
    OpenedTold(s.conversions, OpenedComp(s, d), r.docs[d].queue);
    assert r.docs == WithDoc(s, d, Enqueue(s.docs[d], e)).docs;
    assert Told(r);
    GrantTold(r, d, granted);
  }

  // ---- keys ---------------------------------------------------------------------------------

  lemma TypingTold(s: State, d: DocId, symbol: char, text: string, table: Table, g: Grants)
    requires Told(s) && Good(s)
    ensures Told(TypeReading(s, d, symbol, table, g)) && Told(TypeText(s, d, text, g))
  {
    hide Told, Inv, Moving;
    var ready := Open(s, d, g.first);
    OpenKeeps(s, d, g.first);
    OpenTold(s, d, g.first);
    if Owns(ready, d) {
      var b := ready.comp.value.buffer;
      BufferIsWf(ready);
      AddKeeps(b, symbol, table);
      AddRevises(b, symbol, table);
      UpdateTold(ready, Add(b, symbol, table), g.second);
      AddAllChosenKeeps(b, text);
      AddAllChosenRevises(b, text);
      UpdateTold(ready, AddAllChosen(b, text), g.second);
    }
  }

  lemma BufferIsWf(s: State)
    requires Safe(s) && s.comp.Some?
    ensures Wf(s.comp.value.buffer)
  {
  }

  lemma ErasingTold(s: State, d: DocId, g: Grants)
    requires Told(s) && Good(s)
    ensures Told(DiscardReading(s, d, g)) && Told(BackspaceKey(s, d, g))
  {
    hide Told, Inv, Moving;
    if Owns(s, d) {
      var b := s.comp.value.buffer;
      BufferIsWf(s);
      if DiscardCurrentReading(b).Some? {
        EraseKeeps(b);
        DiscardRevises(b);
        UpdateTold(s, DiscardCurrentReading(b).value, g.first);
      }
      if RemoveLast(b).Some? {
        RemoveLastKeeps(b);
        RemoveLastRevises(b);
        UpdateTold(s, RemoveLast(b).value, g.first);
      }
    }
  }

  lemma CaretTold(s: State, d: DocId, forward: bool, toEdge: bool, g: Grants)
    requires Told(s) && Good(s)
    ensures Told(MoveCaretKey(s, d, forward, toEdge, g))
  {
    hide Told, Inv, Moving;
    if Owns(s, d) && MoveCaret(s.comp.value.buffer, forward, toEdge).Some? {
      var c := s.comp.value.(buffer := MoveCaret(s.comp.value.buffer, forward, toEdge).value);
      BufferIsWf(s);
      MoveRevises(s.comp.value.buffer, forward, toEdge);
      RevisedStateTold(s, c);
      ChangedBuffer(s, WithComp(s, c));
      ShowTold(WithComp(s, c), g.first);
    }
  }

  lemma EscapeTold(s: State, d: DocId, g: Grants)
    requires Told(s) && Good(s)
    ensures Told(Escape(s, d, g))
  {
    hide Told;
    if Owns(s, d) {
      DiscardTold(s, g.first);
    }
  }

  lemma IntendedErase(s: State, d: DocId)
    requires Told(s) && d in s.docs
    ensures Told(WithDoc(s, d, s.docs[d].(intents := s.docs[d].intents + [Erased])))
  {
    hide CompositionTold, SegmentTold, EndedTold;
    var doc := s.docs[d];
    var after := doc.(intents := doc.intents + [Erased]);
    assert forall intent <- after.intents :: intent == Erased || intent in doc.intents;
    SameQueue(doc.queue);
    forall intent <- after.intents ensures IntentTold(s.conversions, after, intent) {
      assert intent == Erased || IntentTold(s.conversions, doc, intent);
    }
    OneDocument(s, WithDoc(s, d, after), d);
  }

  lemma EraseKeyTold(s: State, d: DocId, g: Grants)
    requires Told(s) && Good(s)
    ensures Told(BackspaceInOrder(s, d, g))
  {
    hide Told, DocInv;
    if !Owns(s, d) && d in s.docs {
      var doc := s.docs[d];
      var erased := doc.(intents := doc.intents + [Erased]);
      IntendedErase(s, d);
      WriteQueuedTold(WithDoc(s, d, erased), d, Backspace);
      EraseQueued(s, d);
      WithDocTwice(s, d, erased, Enqueue(erased, Backspace));
      GrantTold(WithDoc(s, d, Enqueue(erased, Backspace)), d, g.first);
    }
  }

  // ---- the candidate list ----------------------------------------------------------------------

  lemma ListOpenedTold(s: State, entry: nat)
    requires Told(s)
    ensures Told(CandidatesOpened(s, entry))
  {
    if s.comp.Some? {
      RevisedStateTold(s, s.comp.value.(candidates := Opened(s.comp.value.candidates, entry)));
    }
  }

  lemma PickTold(s: State, d: DocId, entry: nat, index: nat, g: Grants)
    requires Told(s) && Good(s)
    ensures Told(Pick(s, d, entry, index, g))
  {
    hide Told, Inv, Moving;
    if Owns(s, d) {
      var b := s.comp.value.buffer;
      var picked := SelectCandidate(b, entry, index);
      var chosen := if picked.Some? then picked.value else b;
      BufferIsWf(s);
      if picked.Some? {
        SelectKeeps(b, entry, index);
        SelectRevises(b, entry, index);
      }
      assert Evolves(b, chosen) && Revises(b, chosen);
      EvolvesTransitive(b, chosen, NextOrStay(chosen));
      RevisesTransitive(b, chosen, NextOrStay(chosen));
      UpdateTold(s, NextOrStay(chosen), g.first);
    }
  }

  lemma ListClosedTold(s: State, d: DocId, g: Grants)
    requires Told(s) && Good(s)
    ensures Told(CandidatesClosed(s, d, g))
  {
    hide CompositionTold, DocumentTold, Inv, Moving, LogOk;
    if Owns(s, d) {
      var c := s.comp.value;
      BufferIsWf(s);
      if c.candidates.held.None? {
        RevisedStateTold(s, c.(candidates := UNLOCKED));
      } else {
        ReleasedStateTold(s, d, g);
      }
    }
  }

  lemma ReleasedStateTold(s: State, d: DocId, g: Grants)
    requires Told(s) && Good(s) && Owns(s, d) && s.comp.value.candidates.held.Some?
    ensures Told(CandidatesClosed(s, d, g))
  {
    hide CompositionTold, DocumentTold, Inv, Moving;
    var c, held := s.comp.value, s.comp.value.candidates.held.value;
    var t := WithComp(s, Released(c));
    BufferIsWf(s);
    ReleasedTold(s.conversions, c, s.docs[d].queue);
    ComposedTold(s, Released(c));
    if MergeConversion(c.buffer, held.sequence, [held.requested], [held.converted], None).changed {
      ReleasedBehind(s, d);
      ShowTold(t, g.first);
    }
  }

  lemma ReleasedBehind(s: State, d: DocId)
    requires Good(s) && Owns(s, d) && s.comp.value.candidates.held.Some?
    ensures Behindhand(WithComp(s, Released(s.comp.value)))
  {
    var c, held := s.comp.value, s.comp.value.candidates.held.value;
    MergeKeeps(c.buffer, held.sequence, [held.requested], [held.converted], None);
    ChangedBuffer(s, WithComp(s, Released(c)));
  }
}
