/** Answers, a lost backend, the shutdown and documents that come and go keep where text comes from. */
module AnswerResults {
  import opened Wrappers
  import opened Bopomofo
  import opened Buffers
  import opened BufferProofs
  import opened BufferHistory
  import opened CandidateLocks
  import opened Merging
  import opened Absorbing
  import opened Conversions
  import opened Documents
  import opened DocumentProofs
  import opened DocumentInv
  import opened DocumentSteps
  import opened Controller
  import opened ControllerInv
  import opened GrantProofs
  import opened SegmentGrants
  import opened CallProofs
  import opened SealProofs
  import opened ResultProofs
  import opened AnswerInv
  import opened AnswerSteps
  import opened AnswerLive
  import opened AnswerRequests
  import opened AnswerGrants
  import opened AnswerPresence
  import opened AnswerEvents
  import opened AnswerEndings

  // ---- the tracker goes on ---------------------------------------------------------------

  // Nothing is asked; an answer may have come back.
  lemma TrackerTold(s: State, r: State)
    requires Told(s) && r == s.(conversions := r.conversions) && LogOk(r.conversions) && LogGrows(s.conversions, r.conversions)
    requires forall epoch :: EpochQuiet(s.conversions, r.conversions, epoch)
    ensures Told(r)
  {
    hide CompositionTold, DocumentTold, LogGrows, EpochQuiet;
    if s.comp.Some? {
      var queue := s.docs[s.comp.value.document].queue;
      SameQueue(queue);
      CompositionStays(s.conversions, r.conversions, s.comp.value, queue, queue);
    }
    forall d <- r.docs ensures DocumentTold(r.conversions, r.docs[d], d) {
      DocumentStays(s.conversions, r.conversions, s.docs[d], d);
    }
  }

  lemma TakenTold(s: State, sequence: nat)
    requires Told(s)
    ensures Told(Taken(s, sequence))
  {
    hide Receive;
    ReceivedGrows(s.conversions, sequence);
    TrackerTold(s, Taken(s, sequence));
  }

  lemma ClearedTold(s: State)
    requires Told(s)
    ensures Told(s.(conversions := Cleared(s.conversions)))
    ensures Told(s.(conversions := Cleared(s.conversions).(backend := false, worker := IDLE_WORKER)))
  {
    hide DocumentTold, CompositionTold;
    TrackerTold(s, s.(conversions := Cleared(s.conversions)));
    TrackerTold(s, s.(conversions := Cleared(s.conversions).(backend := false, worker := IDLE_WORKER)));
  }

  // ---- an answer --------------------------------------------------------------------------

  // The answer to the pending request, as it comes back.
  function AnswerOf(s: State, sequence: nat): Result
    requires sequence in s.conversions.pending && sequence in s.conversions.worker.answers
    requires s.conversions.worker.answers[sequence].Converted?
  {
    Result(sequence, s.conversions.pending[sequence].snapshot, s.conversions.worker.answers[sequence].padding)
  }

  predicate CameBack(s: State, sequence: nat) {
    && sequence in s.conversions.pending && sequence in s.conversions.worker.answers
    && s.conversions.worker.answers[sequence].Converted?
  }

  lemma AnswerIsTruthful(s: State, sequence: nat)
    requires LogOk(s.conversions) && CameBack(s, sequence)
    ensures var t, request := Taken(s, sequence).conversions, s.conversions.pending[sequence];
            && Truthful(t, AnswerOf(s, sequence), request.epoch) && t.asked[sequence] == request
            && sequence !in s.conversions.answered
  {
  }

  lemma ResultQueued(t: Tracker, doc: Doc, d: DocId, e: Edit)
    requires LogOk(t) && DocumentTold(t, doc, d) && e.ApplyResult? && EditTold(t, e, d) && e.sequence !in Carries(doc.queue)
    requires forall x <- doc.segments :: forall r <- x.answers :: r.sequence != e.sequence
    ensures DocumentTold(t, Enqueue(doc, e), d)
  {
    hide EndedTold, EditTold;
    AppendedCarries(doc.queue, e);
    var after := Enqueue(doc, e);
    forall x <- after.segments ensures SegmentTold(t, x, after.queue) && AskedBefore(t, x.epoch, x.origin) {
      assert SegmentTold(t, x, doc.queue);
    }
    forall intent <- after.intents ensures IntentTold(t, after, intent) {
      assert IntentTold(t, doc, intent);
    }
  }

  lemma ResultQueuedFor(t: Tracker, c: Composition, queue: seq<Edit>, e: Edit)
    requires CompositionTold(t, c, queue) && e.ApplyResult? && forall r <- c.applied :: r.sequence != e.sequence
    ensures CompositionTold(t, c, queue + [e])
  {
    hide RequestsTold, NewestMerged, ConvertedTold;
    AppendedCarries(queue, e);
  }

  lemma NotGivenYet(t: Tracker, c: Composition, queue: seq<Edit>, q: nat)
    requires CompositionTold(t, c, queue) && q !in t.answered
    ensures forall r <- c.applied :: r.sequence != q
  {
  }

  lemma LiveAnswerTold(s: State, sequence: nat, granted: bool)
    requires Told(s) && Good(s) && CameBack(s, sequence) && LiveEpoch(s, s.conversions.pending[sequence].epoch)
    ensures var request, r := s.conversions.pending[sequence], AnswerOf(s, sequence);
            Told(RunEdit(Taken(s, sequence), request.document, ApplyResult(sequence, request, r.converted), granted))
  {
    hide CompositionTold, DocumentTold, EditTold, Receive, Drain, Good;
    var request, r, c := s.conversions.pending[sequence], AnswerOf(s, sequence), s.comp.value;
    var taken, e := Taken(s, sequence), ApplyResult(sequence, request, r.converted);
    var t, d := taken.conversions, request.document;
    TakenTold(s, sequence);
    AnswerIsTruthful(s, sequence);
    LiveIsHere(t, c, s.docs[c.document].queue, sequence);
    NotGivenYet(s.conversions, c, s.docs[d].queue, sequence);
    Fresh(s.conversions, s.docs[d], d, sequence);
    AnswerFits(t, e, d);
    ResultQueued(t, s.docs[d], d, e);
    ResultQueuedFor(t, c, s.docs[d].queue, e);
    var queued := WithDoc(taken, d, Enqueue(s.docs[d], e));
    assert Told(queued);
    LiveAnswerQueued(s, sequence, e);
    GrantTold(queued, d, granted);
  }

  lemma AnswerFits(t: Tracker, e: Edit, d: DocId)
    requires e.ApplyResult? && Truthful(t, Result(e.sequence, e.request.snapshot, e.converted), e.request.epoch)
    requires t.asked[e.sequence] == e.request && e.request.document == d
    ensures EditTold(t, e, d)
  {
  }

  lemma LiveAnswerQueued(s: State, sequence: nat, e: Edit)
    requires Good(s) && CameBack(s, sequence) && LiveEpoch(s, s.conversions.pending[sequence].epoch)
    requires e == ApplyResult(sequence, s.conversions.pending[sequence], AnswerOf(s, sequence).converted)
    ensures var taken, d := Taken(s, sequence), s.comp.value.document;
            d in taken.docs && Safe(WithDoc(taken, d, Enqueue(taken.docs[d], e)))
  {
    var answer := s.conversions.worker.answers[sequence];
    MovingElsewhere(s);
    NobodyAwaits(s, sequence);
    LiveQueued(Taken(s, sequence), e);
  }

  lemma MovingElsewhere(s: State)
    requires Good(s) && s.comp.Some?
    ensures forall d <- s.docs :: forall x <- s.docs[d].segments :: x.epoch != s.comp.value.epoch
  {
    LiveApartFrom(s);
  }

  lemma LiveApartFrom(s: State)
    requires Good(s)
    ensures LiveApart(s)
  {
    SafeApart(s);
  }

  lemma SealedAnswerTold(s: State, sequence: nat, granted: seq<DocId>, g: Grants)
    requires Told(s) && Good(s) && CameBack(s, sequence) && !LiveEpoch(s, s.conversions.pending[sequence].epoch)
    ensures Told(Deliver(s, sequence, granted, g))
  {
    hide CompositionTold, DocumentTold, EditTold, Receive, Drain, Deliver, Good, MergeSegment;
    var request, r := s.conversions.pending[sequence], AnswerOf(s, sequence);
    var taken, d := Taken(s, sequence), request.document;
    TakenTold(s, sequence);
    AnswerIsTruthful(s, sequence);
    var written := SealedAnswerIs(s, sequence, granted, g);
    if d in s.docs {
      Fresh(s.conversions, s.docs[d], d, sequence);
      var doc, after := s.docs[d], MergedDoc(s, sequence, r.converted);
      SegmentsAreWf(s, d);
      QueueContinues(taken.conversions, doc, d);
      MergedDocument(taken.conversions, doc, after, d, r, request.epoch);
      OneDocument(taken, WithDoc(taken, d, after), d);
      MergedGood(s, sequence, r.converted);
      GrantTold(WithDoc(taken, d, after), d, written && g.first);
    }
  }

  lemma MergedGood(s: State, sequence: nat, padding: seq<Output>)
    requires Good(s) && sequence in s.conversions.pending && s.conversions.pending[sequence].document in s.docs
    requires !LiveEpoch(s, s.conversions.pending[sequence].epoch)
    ensures Safe(WithDoc(Taken(s, sequence), s.conversions.pending[sequence].document, MergedDoc(s, sequence, padding)))
  {
    MergedKeeps(s, sequence, padding);
  }

  lemma SegmentsAreWf(s: State, d: DocId)
    requires Good(s) && d in s.docs
    ensures forall x <- s.docs[d].segments :: Wf(x.buffer)
  {
    SafeApart(s);
    assert DocApart(s.docs[d], d);
  }

  lemma QueueContinues(t: Tracker, doc: Doc, d: DocId)
    requires DocumentTold(t, doc, d)
    ensures QueueTold(t, doc.queue, d) && NothingMore(doc.queue, doc.queue)
    ensures QueueTold(t, doc.queue + [WriteFinished], d) && NothingMore(doc.queue, doc.queue + [WriteFinished])
    ensures Carries(doc.queue + [WriteFinished]) == Carries(doc.queue)
  {
    QueuedTold(t, doc.queue, WriteFinished, d);
  }

  // ---- the backend is gone: every segment ends here -------------------------------------------

  lemma FinishedDocument(t: Tracker, doc: Doc, d: DocId)
    requires LogOk(t) && !t.present && DocumentTold(t, doc, d)
    ensures DocumentTold(t, FinishAll(doc), d)
  {
    hide SegmentTold, EndedTold, QueueTold, FinishSegment;
    var after := FinishAll(doc);
    QueueContinues(t, doc, d);
    if doc.segments != [] {
      forall y <- after.segments ensures SegmentTold(t, y, doc.queue) {
        var i :| 0 <= i < |after.segments| && after.segments[i] == y;
        assert doc.segments[i] in doc.segments;
        FinishedTold(t, doc.segments[i], doc.queue);
      }
      forall y <- after.segments ensures Descends(t, doc, y) {
        var i :| 0 <= i < |after.segments| && after.segments[i] == y;
        assert doc.segments[i] in doc.segments;
        FinishedFields(doc.segments[i]);
      }
      DocumentGoesOn(t, doc, after, d);
    }
  }

  lemma FinishedFields(s: Segment)
    ensures FinishSegment(s).epoch == s.epoch && FinishSegment(s).origin == s.origin
  {
  }

  lemma FinishedQueue(doc: Doc)
    ensures NothingMore(doc.queue, FinishAll(doc).queue)
  {
    AppendedCarries(doc.queue, WriteFinished);
  }

  lemma FinishedEverywhereTold(s: State)
    requires Told(s) && !s.conversions.present
    ensures Told(FinishEverywhere(s))
  {
    hide CompositionTold, DocumentTold, FinishAll;
    var r := FinishEverywhere(s);
    var settled := s.(conversions := r.conversions);
    TrackerTold(s, settled);
    forall d <- s.docs ensures DocumentTold(r.conversions, r.docs[d], d) {
      FinishedDocument(r.conversions, s.docs[d], d);
    }
    if s.comp.Some? {
      var d := s.comp.value.document;
      FinishedQueue(s.docs[d]);
      assert LogGrows(r.conversions, r.conversions) && EpochQuiet(r.conversions, r.conversions, s.comp.value.epoch);
      CompositionStays(r.conversions, r.conversions, s.comp.value, s.docs[d].queue, r.docs[d].queue);
    }
  }

  lemma {:induction false} DrainAllTold(s: State, granted: seq<DocId>)
    requires Told(s) && Safe(s)
    ensures Told(DrainAll(s, granted))
    decreases |granted|
  {
    hide Told, Safe;
    if granted != [] {
      GrantTold(s, granted[0], true);
      GrantKeeps(s, granted[0], true);
      DrainAllTold(Drain(s, granted[0]), granted[1..]);
    }
  }

  // ---- the backend is lost ------------------------------------------------------------------------

  lemma UnsentTold(t: Tracker, c: Composition, queue: seq<Edit>)
    requires CompositionTold(t, c, queue) && !t.present
    ensures CompositionTold(t, c.(sent := None, lost := true), queue)
  {
    hide NewestMerged, Given;
    var x := c.(sent := None, lost := true);
    assert RequestsTold(t, x) by {
      forall p <- t.asked, q <- t.asked | p < q && t.asked[p].epoch == c.epoch && t.asked[q].epoch == c.epoch
        ensures t.asked[p].revision <= t.asked[q].revision && Succeeds(t.asked[p].snapshot, t.asked[q].snapshot)
      {
      }
    }
  }

  lemma AcceptQueued(s: State)
    requires Told(s) && s.comp.Some? && s.comp.value.lost
    ensures var d, e := s.comp.value.document, AcceptLocally(s.comp.value.epoch);
            d in s.docs && Told(WithDoc(s, d, Enqueue(s.docs[d], e)))
  {
    hide SegmentTold, IntentTold;
    var c, d, e := s.comp.value, s.comp.value.document, AcceptLocally(s.comp.value.epoch);
    var doc, t := s.docs[d], s.conversions;
    TellsDocument(s, d);
    QueuedTold(t, doc.queue, e, d);
    AcceptQueuedDocument(t, doc, d, e);
    AcceptQueuedFor(t, c, doc.queue);
  }

  lemma AcceptQueuedDocument(t: Tracker, doc: Doc, d: DocId, e: Edit)
    requires DocumentTold(t, doc, d) && QueueTold(t, doc.queue + [e], d) && Carries(doc.queue + [e]) == Carries(doc.queue)
    ensures DocumentTold(t, Enqueue(doc, e), d)
  {
    hide EndedTold, QueueTold;
    var after := Enqueue(doc, e);
    forall x <- after.segments ensures SegmentTold(t, x, after.queue) && AskedBefore(t, x.epoch, x.origin) {
      assert SegmentTold(t, x, doc.queue);
    }
    forall intent <- after.intents ensures IntentTold(t, after, intent) {
      assert IntentTold(t, doc, intent);
    }
  }

  lemma AcceptQueuedFor(t: Tracker, c: Composition, queue: seq<Edit>)
    requires CompositionTold(t, c, queue) && c.lost
    ensures CompositionTold(t, c, queue + [AcceptLocally(c.epoch)])
  {
    hide RequestsTold, NewestMerged, ConvertedTold;
    AppendedCarries(queue, AcceptLocally(c.epoch));
  }

  lemma LoseBackendTold(s: State, granted: seq<DocId>, g: Grants)
    requires Told(s) && Inv(s) && (s.comp.Some? ==> s.comp.value.buffer.entries != [])
    ensures Told(LoseBackend(s, granted, g))
  {
    hide Told, Inv, Moving, FinishEverywhere, DrainAll, Drain;
    var cleared := s.(conversions := Cleared(s.conversions));
    ClearedTold(s);
    FinishedEverywhereTold(cleared);
    ClearedFinished(s);
    DrainAllKeeps(FinishEverywhere(cleared), granted);
    DrainAllTold(FinishEverywhere(cleared), granted);
    DrainAllPresence(FinishEverywhere(cleared), granted);
    FinishedPresence(cleared);
    var finished := DrainAll(FinishEverywhere(cleared), granted);
    if finished.comp.Some? {
      AcceptsLocally(finished, g);
    }
  }

  lemma FinishedPresence(s: State)
    ensures SamePresence(s, FinishEverywhere(s))
  {
  }

  lemma AcceptsLocally(s: State, g: Grants)
    requires Told(s) && Good(s) && s.comp.Some? && !s.conversions.present
    ensures var c := s.comp.value.(sent := None, lost := true);
            Told(RunEdit(WithComp(s, c), c.document, AcceptLocally(c.epoch), g.first))
  {
    hide CompositionTold, DocumentTold, Drain;
    var c := s.comp.value.(sent := None, lost := true);
    UnsentTold(s.conversions, s.comp.value, s.docs[c.document].queue);
    ComposedTold(s, c);
    UnsentKeeps(s);
    AcceptQueued(WithComp(s, c));
    LiveQueued(WithComp(s, c), AcceptLocally(c.epoch));
    GrantTold(WithDoc(WithComp(s, c), c.document, Enqueue(s.docs[c.document], AcceptLocally(c.epoch))), c.document, g.first);
  }

  lemma DeliverTold(s: State, sequence: nat, granted: seq<DocId>, g: Grants)
    requires Told(s) && Good(s)
    ensures Told(Deliver(s, sequence, granted, g))
  {
    hide Told, LoseBackend, Receive, Drain, RunEdit, Inv, Moving;
    if sequence in s.conversions.worker.answers {
      TakenTold(s, sequence);
      if sequence in s.conversions.pending {
        var answer := s.conversions.worker.answers[sequence];
        if answer.BackendLost? {
          TakenKeeps(s, sequence);
          LoseBackendTold(Taken(s, sequence), granted, g);
        } else if answer.Converted? {
          ToldLog(s);
          if LiveEpoch(s, s.conversions.pending[sequence].epoch) {
            LiveAnswerTold(s, sequence, g.first);
          } else {
            SealedAnswerTold(s, sequence, granted, g);
          }
        }
      }
    }
  }

  lemma ToldLog(s: State)
    requires Told(s)
    ensures LogOk(s.conversions)
  {
  }

  lemma ShutdownTold(s: State, granted: seq<DocId>, g: Grants)
    requires Told(s) && Good(s)
    ensures Told(Shutdown(s, granted, g))
  {
    hide Told, Inv, Moving, FinishEverywhere, SealComposition, DrainAll;
    var stopped := s.(conversions := Cleared(s.conversions).(backend := false, worker := IDLE_WORKER));
    ClearedTold(s);
    StoppedSafe(s);
    SealKeeps(stopped, g);
    SealingTold(stopped, g);
    SealPresence(stopped, g);
    var sealed := SealComposition(stopped, g);
    FinishEverywhereKeeps(sealed);
    FinishedEverywhereTold(sealed);
    DrainAllTold(FinishEverywhere(sealed), granted);
  }

  // ---- documents come and go, the worker goes on ---------------------------------------------------------

  lemma OpenedDocumentTold(s: State, d: DocId, text: string)
    requires Told(s) && d !in s.docs
    ensures Told(WithDoc(s, d, NewDoc(text)))
  {
    hide CompositionTold, SegmentTold;
  }

  lemma ClosedDocumentTold(s: State, d: DocId)
    requires Told(s)
    ensures Told(s.(comp := if Owns(s, d) then None else s.comp, docs := s.docs - {d}))
  {
    hide CompositionTold, DocumentTold;
  }

  lemma WorkerTold(s: State, r: State)
    requires Told(s) && r == s.(conversions := r.conversions)
    requires r.conversions == s.conversions.(worker := r.conversions.worker, backend := r.conversions.backend)
    requires s.conversions.backend ==> r.conversions.backend
    ensures Told(r)
  {
    TrackerTold(s, r);
  }
}
