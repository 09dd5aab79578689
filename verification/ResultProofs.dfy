/** Results, lost backends, shutdown and documents that come and go keep the invariant. */
module ResultProofs {
  import opened Wrappers
  import opened Bopomofo
  import opened Buffers
  import opened BufferProofs
  import opened CandidateLocks
  import opened Conversions
  import opened Documents
  import opened DocumentProofs
  import opened DocumentInv
  import opened DocumentSteps
  import opened Controller
  import opened ControllerInv
  import opened GrantProofs
  import opened SegmentGrants
  import opened MovingProofs
  import opened CallProofs
  import opened SealProofs

  // ---- the tracker --------------------------------------------------------------------------

  // Conversions may be answered, nothing new is asked for.
  predicate TrackerShrinks(t: Tracker, r: Tracker) {
    && r.newest == t.newest && (forall q <- r.pending :: q in t.pending && r.pending[q] == t.pending[q])
  }

  lemma ShrinkKeeps(s: State, r: State)
    requires Inv(s) && r == s.(conversions := r.conversions) && TrackerInv(r.conversions)
    requires TrackerShrinks(s.conversions, r.conversions)
    ensures Inv(r)
  {
    if s.comp.Some? {
      CompUntouched(s, r);
    }
    forall d <- r.docs ensures DocOk(r, d) && UpToDate(r.docs[d], LiveOf(r, d)) {
      assert DocOk(s, d) && UpToDate(s.docs[d], LiveOf(s, d));
    }
  }

  // The worker goes on; nothing is answered.
  lemma WorkerKeeps(s: State, r: State)
    requires Good(s) && r == s.(conversions := r.conversions) && TrackerInv(r.conversions)
    requires r.conversions == s.conversions.(worker := r.conversions.worker, backend := r.conversions.backend)
    ensures Good(r)
  {
    ShrinkKeeps(s, r);
    forall d <- r.docs, x <- r.docs[d].segments ensures MovesOn(x, r.docs[d].queue, r.conversions, d) {
      assert MovesOn(x, s.docs[d].queue, s.conversions, d);
    }
  }

  // ---- the backend is gone: every segment ends here ------------------------------------------

  lemma FinishAllKeeps(doc: Doc, d: DocId)
    requires DocInv(doc, d)
    ensures var r := FinishAll(doc);
            && DocInv(r, d) && WritesQueued(r) && Epochs(r.segments) == Epochs(doc.segments)
            && (EndsAlike(doc, r) || r == doc)
            && (forall x <- r.segments :: x.stage.Finished?)
  {
    if doc.segments != [] {
      var segments := seq(|doc.segments|, i requires 0 <= i < |doc.segments| => FinishSegment(doc.segments[i]));
      forall i | 0 <= i < |segments| ensures SegmentOk(segments[i], d) && SameText(doc.segments[i], segments[i]) {
        assert doc.segments[i] in doc.segments;
        FinishKeeps(doc.segments[i], d);
      }
      ChangeSegments(doc, d, segments);
      EnqueueKeeps(doc.(segments := segments), d, WriteFinished);
      assert Epochs(segments) == Epochs(doc.segments);
      assert FinishAll(doc).queue[|doc.queue|] == WriteFinished;
    }
  }

  lemma FinishAllDoc(s: State, d: DocId)
    requires d in s.docs && DocOk(s, d)
    ensures var r := FinishEverywhere(s); d in r.docs && DocOk(r, d) && r.docs[d] == FinishAll(s.docs[d])
    ensures Epochs(FinishEverywhere(s).docs[d].segments) == Epochs(s.docs[d].segments)
    ensures NoNewResults(s.docs[d].queue, FinishEverywhere(s).docs[d].queue)
    ensures UpToDate(s.docs[d], LiveOf(s, d)) ==> UpToDate(FinishEverywhere(s).docs[d], LiveOf(FinishEverywhere(s), d))
  {
    var doc := s.docs[d];
    FinishAllKeeps(doc, d);
    if FinishAll(doc) != doc {
      AlikeEnds(doc, FinishAll(doc), LiveOf(s, d), Limit(s));
      ViewAppend(doc.queue, WriteFinished, doc.view);
    }
  }

  lemma FinishEverywhereKeeps(s: State)
    requires Inv(s)
    ensures Safe(FinishEverywhere(s)) && !FinishEverywhere(s).conversions.dropped
  {
    var r := FinishEverywhere(s);
    FinishedDocs(s);
    if s.comp.Some? {
      CompUntouched(s, r);
    }
    FinishedApart(s, r);
  }

  lemma FinishedApart(s: State, r: State)
    requires EpochsApart(s) && r.docs.Keys == s.docs.Keys
    requires forall d <- s.docs :: Epochs(r.docs[d].segments) == Epochs(s.docs[d].segments)
    ensures EpochsApart(r)
  {
  }

  lemma FinishedDocs(s: State)
    requires Inv(s)
    ensures var r := FinishEverywhere(s);
            && r.docs.Keys == s.docs.Keys && Moving(r)
            && (forall d <- s.docs :: DocOk(r, d) && UpToDate(r.docs[d], LiveOf(r, d)))
            && (forall d <- s.docs :: Epochs(r.docs[d].segments) == Epochs(s.docs[d].segments))
            && (forall d <- s.docs :: NoNewResults(s.docs[d].queue, r.docs[d].queue))
  {
    hide DocInv, CallsOk, WritesQueued, EndsIn;
    var r := FinishEverywhere(s);
    forall d <- s.docs
      ensures DocOk(r, d) && UpToDate(r.docs[d], LiveOf(r, d)) && DocMoves(r.docs[d], d, r.conversions)
      ensures Epochs(r.docs[d].segments) == Epochs(s.docs[d].segments) && NoNewResults(s.docs[d].queue, r.docs[d].queue)
    {
      FinishedDoc(s, d);
    }
  }

  lemma FinishedDoc(s: State, d: DocId)
    requires d in s.docs && DocOk(s, d) && UpToDate(s.docs[d], LiveOf(s, d))
    ensures var r := FinishEverywhere(s);
            && d in r.docs && DocOk(r, d) && UpToDate(r.docs[d], LiveOf(r, d)) && DocMoves(r.docs[d], d, r.conversions)
            && Epochs(r.docs[d].segments) == Epochs(s.docs[d].segments) && NoNewResults(s.docs[d].queue, r.docs[d].queue)
  {
    FinishAllDoc(s, d);
    FinishAllKeeps(s.docs[d], d);
  }

  lemma {:induction false} DrainAllKeeps(s: State, granted: seq<DocId>)
    requires Safe(s)
    ensures Safe(DrainAll(s, granted)) && (Good(s) ==> Good(DrainAll(s, granted)))
    decreases |granted|
  {
    if granted != [] {
      GrantKeeps(s, granted[0], true);
      DrainAllKeeps(Drain(s, granted[0]), granted[1..]);
    }
  }

  // ---- a lost backend ----------------------------------------------------------------------

  lemma ClearedFinished(s: State)
    requires Inv(s) && (s.comp.Some? ==> s.comp.value.buffer.entries != [])
    ensures Good(FinishEverywhere(s.(conversions := Cleared(s.conversions))))
  {
    var r := s.(conversions := Cleared(s.conversions));
    TakeKeeps(s.conversions, 0);
    ShrinkKeeps(s, r);
    FinishEverywhereKeeps(r);
  }

  // An edit that changes the live composition when it runs.
  lemma LiveQueued(s: State, e: Edit)
    requires Good(s) && s.comp.Some?
    requires (e.AcceptLocally? && e.epoch == s.comp.value.epoch) || (e.ApplyResult? && e.request.epoch == s.comp.value.epoch)
    requires e.ApplyResult? ==> RequestFits(e.request.snapshot, s.comp.value.buffer)
    ensures var d := s.comp.value.document; d in s.docs && Good(WithDoc(s, d, Enqueue(s.docs[d], e)))
  {
    var c, d := s.comp.value, s.comp.value.document;
    var doc := s.docs[d];
    var r := WithDoc(s, d, Enqueue(doc, e));
    assert DocOk(s, d) && UpToDate(doc, LiveOf(s, d));
    EnqueueKeeps(doc, d, e);
    ViewAppend(doc.queue, e, doc.view);
    assert forall x <- doc.queue :: x in r.docs[d].queue;
    Assembled(s, r, d);
    QueueMoves(s, r, d);
  }

  lemma LiveQueuedKeeps(s: State, e: Edit, granted: bool)
    requires Good(s) && s.comp.Some?
    requires (e.AcceptLocally? && e.epoch == s.comp.value.epoch) || (e.ApplyResult? && e.request.epoch == s.comp.value.epoch)
    requires e.ApplyResult? ==> RequestFits(e.request.snapshot, s.comp.value.buffer)
    ensures Good(RunEdit(s, s.comp.value.document, e, granted))
  {
    var d := s.comp.value.document;
    LiveQueued(s, e);
    GrantKeeps(WithDoc(s, d, Enqueue(s.docs[d], e)), d, granted);
  }

  lemma UnsentKeeps(s: State)
    requires Good(s) && s.comp.Some?
    ensures Good(WithComp(s, s.comp.value.(sent := None, lost := true)))
  {
    var r := WithComp(s, s.comp.value.(sent := None, lost := true));
    forall d <- r.docs ensures DocOk(r, d) && UpToDate(r.docs[d], LiveOf(r, d)) {
      assert DocOk(s, d) && UpToDate(s.docs[d], LiveOf(s, d));
    }
  }

  lemma LoseBackendKeeps(s: State, granted: seq<DocId>, g: Grants)
    requires Inv(s) && (s.comp.Some? ==> s.comp.value.buffer.entries != [])
    ensures Good(LoseBackend(s, granted, g))
  {
    ClearedFinished(s);
    var finished := DrainAll(FinishEverywhere(s.(conversions := Cleared(s.conversions))), granted);
    DrainAllKeeps(FinishEverywhere(s.(conversions := Cleared(s.conversions))), granted);
    if finished.comp.Some? {
      UnsentKeeps(finished);
      var unsent := WithComp(finished, finished.comp.value.(sent := None, lost := true));
      LiveQueuedKeeps(unsent, AcceptLocally(unsent.comp.value.epoch), g.first);
    }
  }

  // ---- an answer ------------------------------------------------------------------------------

  function Taken(s: State, sequence: nat): State {
    s.(conversions := Receive(s.conversions, sequence))
  }

  lemma TakenKeeps(s: State, sequence: nat)
    requires Inv(s)
    ensures Inv(Taken(s, sequence))
  {
    DeliverKeeps(s.conversions, sequence);
    ShrinkKeeps(s, Taken(s, sequence));
  }

  // Only a segment awaiting the answer may have nothing to wait for any more.
  predicate Answers(x: Segment, s: State, sequence: nat, d: DocId) {
    && sequence in s.conversions.pending && x.stage == Converting(sequence)
    && s.conversions.pending[sequence].epoch == x.epoch && s.conversions.pending[sequence].document == d
    && x.epoch in s.conversions.newest && s.conversions.newest[x.epoch] == sequence
  }

  lemma TakenMoves(s: State, sequence: nat, d: DocId, x: Segment)
    requires Moving(s) && !s.conversions.dropped && d in s.docs && x in s.docs[d].segments
    ensures MovesOn(x, s.docs[d].queue, Taken(s, sequence).conversions, d) || Answers(x, s, sequence, d)
  {
    assert MovesOn(x, s.docs[d].queue, s.conversions, d);
  }

  lemma NobodyAwaits(s: State, sequence: nat)
    requires Good(s)
    requires forall d <- s.docs :: forall x <- s.docs[d].segments :: !Answers(x, s, sequence, d)
    ensures Good(Taken(s, sequence))
  {
    var r := Taken(s, sequence);
    TakenKeeps(s, sequence);
    forall d <- r.docs, x <- r.docs[d].segments ensures MovesOn(x, r.docs[d].queue, r.conversions, d) {
      TakenMoves(s, sequence, d, x);
    }
  }

  lemma SupersededKeeps(s: State, sequence: nat)
    requires Good(s) && sequence in s.conversions.worker.answers && s.conversions.worker.answers[sequence].Superseded?
    ensures Good(Taken(s, sequence))
  {
    forall d <- s.docs, x <- s.docs[d].segments ensures !Answers(x, s, sequence, d) {
      assert sequence in s.conversions.pending ==>
          s.conversions.pending[sequence].epoch in s.conversions.newest && sequence < s.conversions.newest[s.conversions.pending[sequence].epoch];
    }
    NobodyAwaits(s, sequence);
  }

  lemma LiveAnswerKeeps(s: State, sequence: nat, padding: seq<Output>, granted: bool)
    requires Good(s) && sequence in s.conversions.pending && LiveEpoch(s, s.conversions.pending[sequence].epoch)
    ensures var request := s.conversions.pending[sequence];
            Good(RunEdit(Taken(s, sequence), request.document, ApplyResult(sequence, request, padding), granted))
  {
    var request := s.conversions.pending[sequence];
    LiveElsewhere(s);
    NobodyAwaits(s, sequence);
    LiveQueuedKeeps(Taken(s, sequence), ApplyResult(sequence, request, padding), granted);
  }

  // ---- an answer for a sealed segment --------------------------------------------------------------

  lemma MergedMoves(s: State, sequence: nat, padding: seq<Output>, after: Doc)
    requires Good(s) && sequence in s.conversions.pending && s.conversions.pending[sequence].document in s.docs
    requires var request := s.conversions.pending[sequence];
             var merged := MergeSealed(s.docs[request.document], request.epoch, sequence, request.snapshot, padding);
             after.segments == merged.segments && s.docs[request.document].queue <= after.queue
    ensures Moving(WithDoc(Taken(s, sequence), s.conversions.pending[sequence].document, after))
  {
    var request, d := s.conversions.pending[sequence], s.conversions.pending[sequence].document;
    var doc := s.docs[d];
    var r := WithDoc(Taken(s, sequence), d, after);
    assert forall e <- doc.queue :: e in after.queue;
    assert DocOk(s, d);
    forall a <- r.docs, x <- r.docs[a].segments ensures MovesOn(x, r.docs[a].queue, r.conversions, a) {
      if a == d {
        MergedMovesOn(s, sequence, padding, after, x);
      } else {
        TakenMoves(s, sequence, a, x);
      }
    }
  }

  lemma MergedMovesOn(s: State, sequence: nat, padding: seq<Output>, after: Doc, x: Segment)
    requires Moving(s) && !s.conversions.dropped && sequence in s.conversions.pending
    requires s.conversions.pending[sequence].document in s.docs
    requires var request := s.conversions.pending[sequence];
             var merged := MergeSealed(s.docs[request.document], request.epoch, sequence, request.snapshot, padding);
             && after.segments == merged.segments && (forall e <- s.docs[request.document].queue :: e in after.queue)
             && x in merged.segments && Increasing(Epochs(s.docs[request.document].segments))
    ensures MovesOn(x, after.queue, Taken(s, sequence).conversions, s.conversions.pending[sequence].document)
  {
    var request, d := s.conversions.pending[sequence], s.conversions.pending[sequence].document;
    var doc := s.docs[d];
    var i := SegmentOf(doc.segments, request.epoch);
    var j :| 0 <= j < |after.segments| && after.segments[j] == x;
    TakenMoves(s, sequence, d, doc.segments[j]);
    if j != i {
      assert Answers(doc.segments[j], s, sequence, d) ==> doc.segments[j].epoch == request.epoch;
      SegmentFound(doc.segments, j);
    }
  }

  function MergedDoc(s: State, sequence: nat, padding: seq<Output>): Doc
    requires sequence in s.conversions.pending && s.conversions.pending[sequence].document in s.docs
  {
    var request := s.conversions.pending[sequence];
    var merged := MergeSealed(s.docs[request.document], request.epoch, sequence, request.snapshot, padding);
    if EpochFinished(merged, request.epoch) then Enqueue(merged, WriteFinished) else merged
  }

  lemma MergedKeeps(s: State, sequence: nat, padding: seq<Output>)
    requires Good(s) && sequence in s.conversions.pending && s.conversions.pending[sequence].document in s.docs
    requires !LiveEpoch(s, s.conversions.pending[sequence].epoch)
    ensures Good(WithDoc(Taken(s, sequence), s.conversions.pending[sequence].document, MergedDoc(s, sequence, padding)))
  {
    hide MergeSealed, EpochFinished;
    hide DocInv, TrackerInv, RequestsFit, SentOk, DocMoves;
    var request, d := s.conversions.pending[sequence], s.conversions.pending[sequence].document;
    var doc, after, t := s.docs[d], MergedDoc(s, sequence, padding), Taken(s, sequence);
    var r := WithDoc(t, d, after);
    TakenKeeps(s, sequence);
    assert DocOk(t, d) && UpToDate(doc, LiveOf(t, d));
    MergeSealedKeeps(doc, d, request.epoch, sequence, request.snapshot, padding);
    AlikeEnds(doc, after, LiveOf(t, d), Limit(t));
    ViewAppend(doc.queue, WriteFinished, doc.view);
    CompUntouched(t, r);
    Assembled(t, r, d);
    MergedMoves(s, sequence, padding, after);
  }

  lemma SealedAnswerIs(s: State, sequence: nat, granted: seq<DocId>, g: Grants) returns (written: bool)
    requires sequence in s.conversions.worker.answers && s.conversions.worker.answers[sequence].Converted?
    requires sequence in s.conversions.pending && !LiveEpoch(s, s.conversions.pending[sequence].epoch)
    ensures var d, padding := s.conversions.pending[sequence].document, s.conversions.worker.answers[sequence].padding;
            Deliver(s, sequence, granted, g) ==
              if d in s.docs then Granting(WithDoc(Taken(s, sequence), d, MergedDoc(s, sequence, padding)), d, written && g.first)
              else Taken(s, sequence)
  {
    var request, d := s.conversions.pending[sequence], s.conversions.pending[sequence].document;
    written := false;
    if d in s.docs {
      var merged := MergeSealed(s.docs[d], request.epoch, sequence, request.snapshot, s.conversions.worker.answers[sequence].padding);
      written := EpochFinished(merged, request.epoch);
      WithDocTwice(Taken(s, sequence), d, merged, Enqueue(merged, WriteFinished));
    }
  }

  lemma SealedAnswerKeeps(s: State, sequence: nat, granted: seq<DocId>, g: Grants)
    requires Good(s) && sequence in s.conversions.worker.answers && s.conversions.worker.answers[sequence].Converted?
    requires sequence in s.conversions.pending && !LiveEpoch(s, s.conversions.pending[sequence].epoch)
    ensures Good(Deliver(s, sequence, granted, g))
  {
    var d, padding := s.conversions.pending[sequence].document, s.conversions.worker.answers[sequence].padding;
    var written := SealedAnswerIs(s, sequence, granted, g);
    if d in s.docs {
      MergedKeeps(s, sequence, padding);
      GrantKeeps(WithDoc(Taken(s, sequence), d, MergedDoc(s, sequence, padding)), d, written && g.first);
    } else {
      NobodyAwaits(s, sequence);
    }
  }

  lemma DeliverGood(s: State, sequence: nat, granted: seq<DocId>, g: Grants)
    requires Good(s)
    ensures Good(Deliver(s, sequence, granted, g))
  {
    if sequence in s.conversions.worker.answers {
      var answer := s.conversions.worker.answers[sequence];
      if sequence !in s.conversions.pending {
        NobodyAwaits(s, sequence);
      } else if answer.Superseded? {
        SupersededKeeps(s, sequence);
      } else if answer.BackendLost? {
        TakenKeeps(s, sequence);
        LoseBackendKeeps(Taken(s, sequence), granted, g);
      } else if LiveEpoch(s, s.conversions.pending[sequence].epoch) {
        LiveAnswerKeeps(s, sequence, answer.padding, g.first);
      } else {
        SealedAnswerKeeps(s, sequence, granted, g);
      }
    }
  }

  // ---- shutdown -------------------------------------------------------------------------------------

  lemma StoppedSafe(s: State)
    requires Good(s)
    ensures var stopped := s.(conversions := Cleared(s.conversions).(backend := false, worker := IDLE_WORKER)); Safe(stopped)
  {
    var r := s.(conversions := Cleared(s.conversions).(backend := false, worker := IDLE_WORKER));
    ShrinkKeeps(s, r);
    forall d <- r.docs, x <- r.docs[d].segments ensures MovesOn(x, r.docs[d].queue, r.conversions, d) {
      assert MovesOn(x, s.docs[d].queue, s.conversions, d);
    }
  }

  lemma ShutdownKeeps(s: State, granted: seq<DocId>, g: Grants)
    requires Good(s)
    ensures Good(Shutdown(s, granted, g))
  {
    var stopped := s.(conversions := Cleared(s.conversions).(backend := false, worker := IDLE_WORKER));
    StoppedSafe(s);
    SealKeeps(stopped, g);
    FinishEverywhereKeeps(SealComposition(stopped, g));
    DrainAllKeeps(FinishEverywhere(SealComposition(stopped, g)), granted);
  }

  // ---- documents come and go ---------------------------------------------------------------------------

  lemma OpenedDocument(s: State, d: DocId, text: string)
    requires Good(s) && d !in s.docs
    ensures Good(WithDoc(s, d, NewDoc(text)))
  {
    hide DocInv;
    var r := WithDoc(s, d, NewDoc(text));
    NewDocInv(text, d);
    forall x <- r.docs ensures DocOk(r, x) && UpToDate(r.docs[x], LiveOf(r, x)) && DocMoves(r.docs[x], x, r.conversions) {
      if x != d {
        assert DocOk(s, x) && UpToDate(s.docs[x], LiveOf(s, x)) && DocMoves(s.docs[x], x, s.conversions);
      }
    }
    forall a <- r.docs, b <- r.docs | a != b
      ensures forall e <- Epochs(r.docs[a].segments) :: e !in Epochs(r.docs[b].segments)
    {
      assert Epochs(r.docs[d].segments) == [];
    }
  }

  lemma NewDocInv(text: string, d: DocId)
    ensures DocInv(NewDoc(text), d)
  {
    var doc := NewDoc(text);
    assert [Plain(text)][..0] == [];
    forall f: map<nat, string> | Agrees(f, doc.written) ensures FutureText(doc, f) == Replay(doc.initial, doc.intents, f) {
      TargetOne("", Plain(text), [], f);
    }
  }

  lemma ClosedDocument(s: State, d: DocId)
    requires Good(s)
    ensures Good(s.(comp := if Owns(s, d) then None else s.comp, docs := s.docs - {d}))
  {
    var r := s.(comp := if Owns(s, d) then None else s.comp, docs := s.docs - {d});
    forall x <- r.docs ensures DocOk(r, x) && UpToDate(r.docs[x], LiveOf(r, x)) && DocMoves(r.docs[x], x, r.conversions) {
      assert DocOk(s, x) && UpToDate(s.docs[x], LiveOf(s, x)) && DocMoves(s.docs[x], x, s.conversions);
    }
    forall a <- r.docs, b <- r.docs | a != b
      ensures forall e <- Epochs(r.docs[a].segments) :: e !in Epochs(r.docs[b].segments)
    {
      assert a in s.docs && b in s.docs;
    }
  }
}
