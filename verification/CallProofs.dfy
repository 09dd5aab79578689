/** What a call that ends or shows the composition keeps. */
module CallProofs {
  import opened Wrappers
  import opened Bopomofo
  import opened Buffers
  import opened BufferProofs
  import opened CandidateLocks
  import opened Conversions
  import opened Documents
  import opened DocumentProofs
  import opened DocumentInv
  import opened DocumentSteps
  import opened Controller
  import opened ControllerInv
  import opened GrantProofs
  import opened SegmentGrants
  import opened MovingProofs

  // Between calls, with every segment on its way.
  ghost predicate Safe(s: State) {
    Inv(s) && Moving(s)
  }

  // Between keys: a composition is never empty.
  ghost predicate Good(s: State) {
    Safe(s) && (s.comp.Some? ==> s.comp.value.buffer.entries != []) && !s.conversions.dropped
  }

  // ---- queueing and granting --------------------------------------------------------------

  function Granting(s: State, d: DocId, granted: bool): State {
    if granted then Drain(s, d) else s
  }

  lemma GrantKeeps(s: State, d: DocId, granted: bool)
    requires Safe(s)
    ensures Safe(Granting(s, d, granted)) && SameComposition(s, Granting(s, d, granted), d)
  {
    if granted {
      assert GrantInv(s, d);
      DrainKeeps(s, d);
      DrainMoves(s, d);
    }
  }

  lemma QueueMoves(s: State, r: State, d: DocId)
    requires Moving(s) && d in s.docs && d in r.docs && r.docs == s.docs[d := r.docs[d]] && r.conversions == s.conversions
    requires r.docs[d].segments == s.docs[d].segments && (forall e <- s.docs[d].queue :: e in r.docs[d].queue)
    ensures Moving(r)
  {
    forall x <- r.docs[d].segments ensures MovesOn(x, r.docs[d].queue, r.conversions, d) {
      assert MovesOn(x, s.docs[d].queue, s.conversions, d);
    }
    OthersMove(s, r, d, 0);
  }

  // ---- the composition changes, its document follows ------------------------------------------

  // Document d, where the composition is open or is not, goes from one state to the other.
  lemma Assembled(s: State, r: State, d: DocId)
    requires Base(s) && (forall x <- s.docs :: x != d ==> UpToDate(s.docs[x], LiveOf(s, x)))
    requires OnlyDocument(s, r, d) && SameLive(s, r, d)
    requires DocOk(r, d) && UpToDate(r.docs[d], LiveOf(r, d)) && CompOk(r) && TrackerOk(r)
    ensures Inv(r)
  {
    StillApart(s, r, d);
    forall x <- r.docs ensures DocOk(r, x) && UpToDate(r.docs[x], LiveOf(r, x)) {
      if x != d {
        assert DocOk(s, x) && LiveOf(r, x) == LiveOf(s, x) && Limit(r) == Limit(s);
      }
    }
  }

  // The composition of document d is still the same one.
  predicate SameLive(s: State, r: State, d: DocId) {
    if Owns(s, d) then Owns(r, d) && r.comp.value.epoch == s.comp.value.epoch else r.comp == s.comp
  }

  lemma ViewAppend(queue: seq<Edit>, e: Edit, v: View)
    ensures ViewAfter(queue + [e], v) == NextView(e, ViewAfter(queue, v))
  {
    QueueAppend(queue, e, v, []);
  }

  // ---- showing the composition -----------------------------------------------------------------

  // The composition is open and its document behind: what it showed earlier still stands there.
  ghost predicate Behindhand(s: State) {
    && Base(s) && Moving(s) && s.comp.Some?
    && (forall x <- s.docs :: x != s.comp.value.document ==> UpToDate(s.docs[x], LiveOf(s, x)))
  }

  lemma ShowQueued(s: State)
    requires Behindhand(s)
    ensures var d, c := s.comp.value.document, s.comp.value;
            Safe(WithDoc(s, d, Enqueue(s.docs[d], Show(c.epoch, Render(c.buffer)))))
  {
    var d, c := s.comp.value.document, s.comp.value;
    var doc, e := s.docs[d], Show(c.epoch, Render(c.buffer));
    var r := WithDoc(s, d, Enqueue(doc, e));
    EnqueueKeeps(doc, d, e);
    ViewAppend(doc.queue, e, doc.view);
    assert forall x <- doc.queue :: x in r.docs[d].queue;
    CompUntouched(s, r);
    Assembled(s, r, d);
    QueueMoves(s, r, d);
  }

  lemma ShowKeeps(s: State, granted: bool)
    requires Behindhand(s)
    ensures var r := ShowComposition(s, granted);
            Safe(r) && r.comp.Some? && SameComposition(s, r, s.comp.value.document)
  {
    var d, c := s.comp.value.document, s.comp.value;
    var queued := WithDoc(s, d, Enqueue(s.docs[d], Show(c.epoch, Render(c.buffer))));
    ShowQueued(s);
    GrantKeeps(queued, d, granted);
  }

  // ---- sending it --------------------------------------------------------------------------------

  lemma GrowthMovesAll(s: State, r: State, epoch: nat)
    requires Moving(s) && r.docs == s.docs && TrackerGrows(s.conversions, r.conversions, epoch)
    requires forall a <- s.docs :: forall x <- s.docs[a].segments :: x.epoch != epoch
    ensures Moving(r)
  {
    forall a <- r.docs, x <- r.docs[a].segments ensures MovesOn(x, r.docs[a].queue, r.conversions, a) {
      GrowthMoves(x, r.docs[a].queue, s.conversions, r.conversions, epoch, a);
    }
  }

  lemma RequestSafe(s: State)
    requires Safe(s) && s.comp.Some?
    ensures var r := RequestConversion(s);
            && Safe(r) && r.comp.Some? && r.comp.value == s.comp.value.(sent := r.comp.value.sent)
            && r.conversions.dropped == s.conversions.dropped
  {
    hide Send, Submit;
    hide DocInv, CallsOk, WritesQueued;
    var r := RequestConversion(s);
    RequestKeeps(s);
    LiveElsewhere(s);
    GrowthMovesAll(s, r, s.comp.value.epoch);
    forall x <- r.docs ensures DocOk(r, x) && UpToDate(r.docs[x], LiveOf(r, x)) {
      assert DocOk(s, x) && UpToDate(s.docs[x], LiveOf(s, x));
    }
  }

  // ---- ending it ------------------------------------------------------------------------------------

  // The composition of document d ends there.
  lemma CompositionEnds(s: State, r: State, d: DocId)
    requires Base(s) && Owns(s, d) && d in s.docs && r.comp.None? && r.nextEpoch == s.nextEpoch && TrackerOk(r)
    requires d in r.docs && r.docs == s.docs[d := r.docs[d]] && DocOk(r, d)
    requires forall e <- Epochs(r.docs[d].segments) :: e in Epochs(s.docs[d].segments) || e == s.comp.value.epoch
    ensures Inv(r)
  {
    LiveElsewhere(s);
    forall a <- r.docs, b <- r.docs | a != b
      ensures forall e <- Epochs(r.docs[a].segments) :: e !in Epochs(r.docs[b].segments)
    {
      assert a in s.docs && b in s.docs;
      assert a != d ==> r.docs[a] == s.docs[a];
      assert b != d ==> r.docs[b] == s.docs[b];
    }
    forall x <- r.docs ensures DocOk(r, x) {
      if x != d {
        assert DocOk(s, x);
      }
    }
  }

  lemma DiscardQueued(s: State)
    requires Behindhand(s)
    ensures var d := s.comp.value.document;
            Safe(WithDoc(s.(comp := None), d, Enqueue(s.docs[d], Discard(s.comp.value.epoch))))
  {
    var d, e := s.comp.value.document, Discard(s.comp.value.epoch);
    var doc := s.docs[d];
    var r := WithDoc(s.(comp := None), d, Enqueue(doc, e));
    EnqueueKeeps(doc, d, e);
    ViewAppend(doc.queue, e, doc.view);
    assert forall x <- doc.queue :: x in r.docs[d].queue;
    CompositionEnds(s, r, d);
    QueueMoves(s, r, d);
  }

  lemma DiscardKeeps(s: State, granted: bool)
    requires Behindhand(s)
    ensures var r := DiscardComposition(s, granted);
            Safe(r) && r.comp.None? && r.conversions.dropped == s.conversions.dropped
  {
    var d := s.comp.value.document;
    var queued := WithDoc(s.(comp := None), d, Enqueue(s.docs[d], Discard(s.comp.value.epoch)));
    DiscardQueued(s);
    GrantKeeps(queued, d, granted);
  }

  // What is shown, or going to be, is the text of the buffer.
  predicate TextShown(s: State) {
    && s.comp.Some? && s.comp.value.document in s.docs
    && var c, doc := s.comp.value, s.docs[s.comp.value.document];
    var v := ViewAfter(doc.queue, doc.view);
    Composes(v, c.epoch) && v.shown.Some? && v.shown.value.text == ToText(c.buffer)
  }

  function CommitEdit(c: Composition): Edit {
    Commit(c.epoch, TrainingSample(c.buffer, c.preceding), c.buffer.entries)
  }

  function CommitQueuedState(s: State): State
    requires s.comp.Some? && s.comp.value.document in s.docs
  {
    var c := s.comp.value;
    var doc := s.docs[c.document];
    WithDoc(s.(comp := None), c.document, Enqueue(doc.(intents := doc.intents + [Typed(EndedAs(c))]), CommitEdit(c)))
  }

  lemma CommitQueued(s: State)
    requires Behindhand(s) && TextShown(s) && ReadyToCommit(s.comp.value.buffer)
    ensures Safe(CommitQueuedState(s))
  {
    var c, d := s.comp.value, s.comp.value.document;
    var doc, e, r := s.docs[d], CommitEdit(c), CommitQueuedState(s);
    ShownIsFinal(c.buffer.entries, c.buffer.immediate);
    EnqueueCommit(doc, d, e, EndedAs(c));
    ViewAppend(doc.queue, e, doc.view);
    assert forall x <- doc.queue :: x in r.docs[d].queue;
    CompositionEnds(s, r, d);
    QueueMoves(s, r, d);
  }

  lemma CommitKeeps(s: State, granted: bool)
    requires Behindhand(s) && TextShown(s) && ReadyToCommit(s.comp.value.buffer)
    ensures var r := CommitComposition(s, granted);
            Safe(r) && r.comp.None? && r.conversions.dropped == s.conversions.dropped
  {
    var d := s.comp.value.document;
    CommitQueued(s);
    GrantKeeps(CommitQueuedState(s), d, granted);
    CommitIs(s, granted);
  }

  lemma CommitIs(s: State, granted: bool)
    requires s.comp.Some? && s.comp.value.document in s.docs
    ensures CommitComposition(s, granted) == Granting(CommitQueuedState(s), s.comp.value.document, granted)
  {
    var c, d := s.comp.value, s.comp.value.document;
    var ended := s.docs[d].(intents := s.docs[d].intents + [Typed(EndedAs(c))]);
    WithDocTwice(s, d, ended, Enqueue(ended, CommitEdit(c)));
  }
}
