/** Running the edits of a granted document keeps where text comes from. */
module AnswerGrants {
  import opened Wrappers
  import opened Bopomofo
  import opened Buffers
  import opened BufferProofs
  import opened CandidateLocks
  import opened Merging
  import opened Conversions
  import opened Documents
  import opened DocumentProofs
  import opened DocumentInv
  import opened DocumentSteps
  import opened Controller
  import opened ControllerInv
  import opened GrantProofs
  import opened SegmentGrants
  import opened MovingProofs
  import opened CallProofs
  import opened SealProofs
  import opened AnswerInv
  import opened AnswerSteps
  import opened AnswerLive
  import opened AnswerRequests

  // ---- epochs are apart --------------------------------------------------------------

  predicate DocApart(doc: Doc, d: DocId) {
    Increasing(Epochs(doc.segments)) && forall x <- doc.segments :: SegmentOk(x, d) && x.epoch !in doc.written
  }

  // Each epoch is of the open composition, of one segment, or of what was written.
  predicate Apart(s: State) {
    && LiveApart(s) && (s.comp.Some? ==> Wf(s.comp.value.buffer))
    && (forall d <- s.docs :: DocApart(s.docs[d], d)) && EpochsApart(s)
  }

  lemma ShapeApart(doc: Doc, d: DocId)
    requires Shape(doc, d)
    ensures DocApart(doc, d)
  {
    forall x <- doc.segments ensures x.epoch !in doc.written {
      var i :| 0 <= i < |doc.segments| && doc.segments[i] == x;
      assert Epochs(doc.segments)[i] == x.epoch;
    }
  }

  lemma BaseApart(s: State)
    requires Base(s)
    ensures Apart(s)
  {
    hide TextInv, RecordsOk, CallsOk, WritesQueued, TrackerInv;
    forall d <- s.docs ensures DocApart(s.docs[d], d) {
      assert DocOk(s, d);
      ShapeApart(s.docs[d], d);
    }
    if s.comp.Some? {
      LiveElsewhere(s);
      forall d <- s.docs ensures s.comp.value.epoch !in s.docs[d].written {
        assert DocOk(s, d) && Shape(s.docs[d], d);
      }
    }
  }

  lemma PromisedApart(s: State, d: DocId, epoch: nat)
    requires d in s.docs && s.comp.None? && Base(Promised(s, d, epoch))
    ensures Apart(s)
  {
    var p := Promised(s, d, epoch);
    BaseApart(p);
    forall x <- s.docs ensures DocApart(s.docs[x], x) {
      assert DocApart(p.docs[x], x);
    }
    forall a <- s.docs, b <- s.docs | a != b
      ensures forall e <- Epochs(s.docs[a].segments) :: e !in Epochs(s.docs[b].segments)
    {
      assert p.docs[a].segments == s.docs[a].segments && p.docs[b].segments == s.docs[b].segments;
    }
  }

  lemma ApartFrame(s: State, r: State)
    requires Apart(s) && r.comp == s.comp && r.docs.Keys == s.docs.Keys
    requires forall d <- s.docs :: r.docs[d].segments == s.docs[d].segments && r.docs[d].written == s.docs[d].written
    ensures Apart(r)
  {
    forall d <- r.docs ensures DocApart(r.docs[d], d) {
      assert DocApart(s.docs[d], d);
    }
  }

  // ---- one document changes ------------------------------------------------------------

  lemma OneDocument(s: State, r: State, d: DocId)
    requires Told(s) && d in s.docs && d in r.docs && r == WithDoc(s, d, r.docs[d])
    requires DocumentTold(s.conversions, r.docs[d], d) && NothingMore(s.docs[d].queue, r.docs[d].queue)
    ensures Told(r)
  {
    hide CompositionTold, DocumentTold;
    if s.comp.Some? && s.comp.value.document == d {
      CompositionStays(s.conversions, s.conversions, s.comp.value, s.docs[d].queue, r.docs[d].queue);
    }
  }

  // A segment of the document, erased from, placed or given a result perhaps.
  predicate Descends(t: Tracker, doc: Doc, y: Segment) {
    SegmentTold(t, y, doc.queue) && exists x <- doc.segments :: x.epoch == y.epoch && x.origin == y.origin
  }

  lemma DescendsItself(t: Tracker, doc: Doc, d: DocId)
    requires DocumentTold(t, doc, d)
    ensures forall y <- doc.segments :: Descends(t, doc, y)
  {
  }

  lemma DocumentGoesOn(t: Tracker, doc: Doc, after: Doc, d: DocId)
    requires LogOk(t) && DocumentTold(t, doc, d) && QueueTold(t, after.queue, d) && NothingMore(doc.queue, after.queue)
    requires after.written == doc.written && after.intents == doc.intents && forall y <- after.segments :: Descends(t, doc, y)
    ensures DocumentTold(t, after, d)
  {
    hide SegmentTold, EndedTold;
    forall y <- after.segments ensures SegmentTold(t, y, after.queue) && AskedBefore(t, y.epoch, y.origin) {
      assert Descends(t, doc, y);
      SegmentStays(t, t, y, doc.queue, after.queue);
    }
    forall intent <- after.intents ensures IntentTold(t, after, intent) {
      assert IntentTold(t, doc, intent);
      if intent.TypedSealed? {
        forall y <- after.segments | y.epoch == intent.epoch ensures y.origin == intent.content {
          assert Descends(t, doc, y);
        }
      }
    }
  }

  // The front edit has run, and queued a write perhaps.
  lemma FrontGone(s: State, r: State, d: DocId)
    requires Told(s) && d in s.docs && d in r.docs && r == WithDoc(s, d, r.docs[d]) && Continued(s.docs[d].queue, r.docs[d].queue)
    requires r.docs[d].written == s.docs[d].written && r.docs[d].intents == s.docs[d].intents
    requires forall y <- r.docs[d].segments :: Descends(s.conversions, s.docs[d], y)
    ensures Told(r)
  {
    hide CompositionTold, SegmentTold, IntentTold;
    ContinuedTold(s.conversions, s.docs[d].queue, r.docs[d].queue, d);
    DocumentGoesOn(s.conversions, s.docs[d], r.docs[d], d);
    OneDocument(s, r, d);
  }

  lemma EndedEditTold(s: State, d: DocId)
    requires Told(s) && d in s.docs && s.docs[d].queue != [] && ForEnded(s, s.docs[d].queue[0])
    ensures Told(RunFront(s, d))
  {
    hide Told;
    EndedEditRuns(s, d);
    DescendsAll(s, d);
    FrontGone(s, RunFront(s, d), d);
  }

  lemma DescendsAll(s: State, d: DocId)
    requires Told(s) && d in s.docs
    ensures forall y <- s.docs[d].segments :: Descends(s.conversions, s.docs[d], y)
  {
    assert DocumentTold(s.conversions, s.docs[d], d);
    DescendsItself(s.conversions, s.docs[d], d);
  }

  // ---- segments in the document ------------------------------------------------------------

  lemma PlacedTold(t: Tracker, s: Segment, queue: seq<Edit>)
    requires SegmentTold(t, s, queue)
    ensures SegmentTold(t, s.(inDocument := true), queue)
  {
  }

  lemma TouchedDescends(t: Tracker, doc: Doc, d: DocId, i: nat, x: Segment)
    requires DocumentTold(t, doc, d) && i < |doc.segments| && SegmentTold(t, x, doc.queue)
    requires x.epoch == doc.segments[i].epoch && x.origin == doc.segments[i].origin
    ensures forall y <- doc.segments[i := x] :: Descends(t, doc, y)
  {
    hide SegmentTold, IntentTold;
    DescendsItself(t, doc, d);
    assert doc.segments[i] in doc.segments;
    assert forall y <- doc.segments[i := x] :: y == x || y in doc.segments;
  }

  lemma PlacedDescends(t: Tracker, doc: Doc, d: DocId, epoch: nat)
    requires DocumentTold(t, doc, d)
    ensures forall y <- Placed(doc, epoch).segments :: Descends(t, doc, y)
  {
    hide SegmentTold, IntentTold, Descends;
    var i := SegmentOf(doc.segments, epoch);
    DescendsItself(t, doc, d);
    if i < |doc.segments| {
      assert doc.segments[i] in doc.segments;
      PlacedTold(t, doc.segments[i], doc.queue);
      TouchedDescends(t, doc, d, i, doc.segments[i].(inDocument := true));
    }
  }

  lemma ErasedDescends(t: Tracker, doc: Doc, d: DocId)
    requires DocumentTold(t, doc, d)
    ensures forall y <- EraseInOrder(doc).segments :: Descends(t, doc, y)
  {
    hide SegmentTold, IntentTold, Descends;
    var i := NewestAtCaret(doc);
    DescendsItself(t, doc, d);
    if i >= 0 {
      assert doc.segments[i] in doc.segments;
      ErasedTold(t, doc.segments[i], doc.queue);
      TouchedDescends(t, doc, d, i, EraseLast(doc.segments[i]));
    }
  }

  lemma SealTold(s: State, d: DocId)
    requires Told(s) && d in s.docs && s.docs[d].queue != [] && s.docs[d].queue[0].Seal?
    ensures Told(RunFront(s, d))
  {
    hide Descends, DocumentTold, RunFront;
    hide Told;
    var epoch := s.docs[d].queue[0].epoch;
    SealIs(s, d);
    TellsDocument(s, d);
    PlacedDescends(s.conversions, s.docs[d], d, epoch);
    assert Placed(HostSeals(Rest(s.docs[d]), epoch), epoch).segments == Placed(s.docs[d], epoch).segments;
    FrontGone(s, RunFront(s, d), d);
  }

  lemma EraseTold(s: State, d: DocId)
    requires Told(s) && d in s.docs && s.docs[d].queue != [] && s.docs[d].queue[0].Backspace?
    ensures Told(RunFront(s, d))
  {
    hide Descends, DocumentTold, RunFront;
    hide Told;
    EraseIs(s, d);
    TellsDocument(s, d);
    ErasedDescends(s.conversions, s.docs[d], d);
    assert NewestAtCaret(Rest(s.docs[d])) == NewestAtCaret(s.docs[d]);
    FrontGone(s, RunFront(s, d), d);
  }

  // ---- writing -------------------------------------------------------------------------------

  lemma WrittenFields(doc: Doc, i: nat)
    requires i < |doc.segments|
    ensures var r, x := Written(doc, i), doc.segments[i];
            && r.queue == doc.queue && r.intents == doc.intents && r.written == doc.written[x.epoch := x]
            && r.segments == WithoutSegment(doc.segments, i)
  {
  }

  lemma WrittenDocument(t: Tracker, doc: Doc, d: DocId, i: nat)
    requires DocumentTold(t, doc, d) && i < |doc.segments| && doc.segments[i].stage.Finished? && SegmentOk(doc.segments[i], d)
    ensures DocumentTold(t, Written(doc, i), d)
  {
    hide SegmentTold, EndedTold;
    var r, x := Written(doc, i), doc.segments[i];
    WrittenFields(doc, i);
    assert x in doc.segments && forall y <- r.segments :: y in doc.segments;
    WrittenIsTold(t, x, doc.queue);
    forall intent <- r.intents ensures IntentTold(t, r, intent) {
      assert IntentTold(t, doc, intent);
    }
  }

  lemma {:induction false} WriteFromTold(t: Tracker, doc: Doc, d: DocId, i: nat, earlierWaiting: bool)
    requires DocumentTold(t, doc, d) && i <= |doc.segments| && forall x <- doc.segments :: SegmentOk(x, d)
    ensures DocumentTold(t, WriteFrom(doc, i, earlierWaiting), d)
    decreases |doc.segments| - i
  {
    hide DocumentTold;
    if i < |doc.segments| {
      if Writable(doc.segments[i], earlierWaiting) {
        WrittenFields(doc, i);
        WrittenDocument(t, doc, d, i);
        assert forall x <- Written(doc, i).segments :: x in doc.segments;
        WriteFromTold(t, Written(doc, i), d, i, earlierWaiting);
      } else {
        WriteFromTold(t, doc, d, i + 1, true);
      }
    }
  }

  lemma WriteTold(s: State, d: DocId)
    requires Told(s) && d in s.docs && DocApart(s.docs[d], d) && s.docs[d].queue != [] && s.docs[d].queue[0].WriteFinished?
    ensures Told(RunFront(s, d))
  {
    hide Told, SegmentTold, IntentTold;
    var doc, rest := s.docs[d], Rest(s.docs[d]);
    TellsDocument(s, d);
    WriteIs(s, d);
    ContinuedTold(s.conversions, doc.queue, rest.queue, d);
    DescendsAll(s, d);
    DocumentGoesOn(s.conversions, doc, rest, d);
    WriteFromTold(s.conversions, rest, d, 0, false);
    WriteFromQueue(rest, 0, false);
    OneDocument(s, RunFront(s, d), d);
  }

  lemma TellsDocument(s: State, d: DocId)
    requires Told(s) && d in s.docs
    ensures LogOk(s.conversions) && DocumentTold(s.conversions, s.docs[d], d)
  {
  }

  // ---- a result --------------------------------------------------------------------------------

  // The result the front edit carries.
  function ResultIn(e: Edit): Result
    requires e.ApplyResult?
  {
    Result(e.sequence, e.request.snapshot, e.converted)
  }

  lemma CarriedIsNew(t: Tracker, doc: Doc, d: DocId)
    requires DocumentTold(t, doc, d) && doc.queue != [] && doc.queue[0].ApplyResult?
    ensures Truthful(t, ResultIn(doc.queue[0]), doc.queue[0].request.epoch) && t.asked[doc.queue[0].sequence] == doc.queue[0].request
    ensures doc.queue[0].request.document == d && doc.queue[0].sequence in Carries(doc.queue)
    ensures forall x <- doc.segments :: forall r <- x.answers :: r.sequence != doc.queue[0].sequence
  {
    var q := doc.queue[0].sequence;
    assert EditTold(t, doc.queue[0], d);
    forall x <- doc.segments, r <- x.answers ensures r.sequence != q {
      assert SegmentTold(t, x, doc.queue);
    }
  }

  lemma LiveApplyTold(s: State, d: DocId)
    requires Told(s) && Apart(s) && d in s.docs && s.docs[d].queue != []
    requires s.docs[d].queue[0].ApplyResult? && LiveEpoch(s, s.docs[d].queue[0].request.epoch)
    ensures Told(RunFront(s, d))
  {
    hide Descends, RunFront;
    hide CompositionTold, SegmentTold, IntentTold;
    var t, c, doc, e := s.conversions, s.comp.value, s.docs[d], s.docs[d].queue[0];
    var r := ResultIn(e);
    TellsDocument(s, d);
    CarriedIsNew(t, doc, d);
    LiveIsHere(t, c, s.docs[c.document].queue, e.sequence);
    ContinuedTold(t, doc.queue, Rest(doc).queue, d);
    LiveApplyIs(s, d);
    AppliedTold(t, c, r, e.request, doc.queue, Rest(doc).queue);
    DescendsAll(s, d);
    DocumentGoesOn(t, doc, RunFront(s, d).docs[d], d);
    assert Apply(c, r.sequence, e.request, r.converted).0.document == d;
  }

  // What was asked for the composition is of its document.
  lemma LiveIsHere(t: Tracker, c: Composition, queue: seq<Edit>, q: nat)
    requires CompositionTold(t, c, queue) && AskedFor(t, q, c.epoch)
    ensures t.asked[q].document == c.document
  {
  }

  lemma MergedDocument(t: Tracker, doc: Doc, after: Doc, d: DocId, r: Result, epoch: nat)
    requires LogOk(t) && DocumentTold(t, doc, d) && Truthful(t, r, epoch) && (forall x <- doc.segments :: Wf(x.buffer))
    requires r.sequence !in Carries(after.queue) && (forall x <- doc.segments :: forall y <- x.answers :: y.sequence != r.sequence)
    requires QueueTold(t, after.queue, d) && NothingMore(doc.queue, after.queue)
    requires var m := MergeSealed(doc, epoch, r.sequence, r.requested, r.converted);
             after.segments == m.segments && after.written == doc.written && after.intents == doc.intents
    ensures DocumentTold(t, after, d)
  {
    hide SegmentTold, IntentTold, MergeSegment, Truthful, QueueTold, Descends, LogOk, NothingMore;
    var rest := doc.(queue := after.queue);
    DescendsItself(t, doc, d);
    DocumentGoesOn(t, doc, rest, d);
    DescendsItself(t, rest, d);
    SameQueue(after.queue);
    var i := SegmentOf(doc.segments, epoch);
    if i < |doc.segments| {
      assert rest.segments[i] in rest.segments;
      MergedTold(t, rest.segments[i], r, rest.queue);
      MergedFields(doc.segments[i], r);
      TouchedDescends(t, rest, d, i, MergeSegment(rest.segments[i], r.sequence, r.requested, r.converted));
    }
    DocumentGoesOn(t, rest, after, d);
  }

  lemma MergedFields(s: Segment, r: Result)
    ensures var x := MergeSegment(s, r.sequence, r.requested, r.converted); x.epoch == s.epoch && x.origin == s.origin
  {
  }

  lemma SealedApplyTold(s: State, d: DocId)
    requires Told(s) && Apart(s) && d in s.docs && s.docs[d].queue != []
    requires s.docs[d].queue[0].ApplyResult? && !LiveEpoch(s, s.docs[d].queue[0].request.epoch)
    ensures Told(RunFront(s, d))
  {
    hide DocumentTold, LogOk, QueueTold;
    hide Told, SegmentTold, IntentTold, MergeSegment, Truthful, EditTold;
    var t, doc, e := s.conversions, s.docs[d], s.docs[d].queue[0];
    var after := RunFront(s, d).docs[d];
    TellsDocument(s, d);
    CarriedIsNew(t, doc, d);
    SealedApplyIs(s, d);
    ContinuedTold(t, doc.queue, after.queue, d);
    assert DocApart(doc, d) && forall x <- doc.segments :: Wf(x.buffer);
    MergedDocument(t, doc, after, d, ResultIn(e), e.request.epoch);
    OneDocument(s, RunFront(s, d), d);
  }

  // ---- the text before is known ----------------------------------------------------------------

  lemma KnownComposition(t: Tracker, c: Composition, queue: seq<Edit>, preceding: string)
    requires CompositionTold(t, c, queue)
    ensures CompositionTold(t, c.(preceding := Some(preceding)), queue)
  {
    hide RequestsTold, Given;
    RequestsOfBuffer(t, c, c.(preceding := Some(preceding)));
  }

  lemma LiveReadTold(s: State, d: DocId)
    requires Told(s) && Apart(s) && d in s.docs && s.docs[d].queue != []
    requires s.docs[d].queue[0].ReadContext? && LiveEpoch(s, s.docs[d].queue[0].epoch)
    ensures Told(RunFront(s, d))
  {
    hide CompositionTold, SegmentTold, IntentTold, Descends, RunFront, RequestConversion;
    var epoch, c := s.docs[d].queue[0].epoch, s.comp.value;
    var read := WithDoc(s, d, HostReads(Rest(s.docs[d]), epoch));
    DescendsAll(s, d);
    FrontGone(s, read, d);
    LiveReadIs(s, d);
    KnownComposition(read.conversions, c, read.docs[c.document].queue, ContextBefore(s.docs[d]));
    RequestTold(WithComp(read, c.(preceding := Some(ContextBefore(s.docs[d])))));
  }

  // Everything is told but segment i of d, which asks now.
  predicate AsksNow(s: State, d: DocId, i: nat) {
    && LogOk(s.conversions) && d in s.docs && ToldBut(s.conversions, s.docs[d], d, i)
    && (s.comp.Some? ==> s.comp.value.document in s.docs && s.comp.value.epoch != s.docs[d].segments[i].epoch
                         && CompositionTold(s.conversions, s.comp.value, s.docs[s.comp.value.document].queue))
    && AloneIn(s.conversions, s.docs[d], s.docs[d].segments[i].epoch, i)
    && forall a <- s.docs :: a != d ==>
         DocumentTold(s.conversions, s.docs[a], a) && AloneIn(s.conversions, s.docs[a], s.docs[d].segments[i].epoch, -1)
  }

  lemma ConvertTold(s: State, d: DocId, i: nat)
    requires AsksNow(s, d, i)
    ensures Told(ConvertSegment(s, d, i))
  {
    hide LogOk, LogGrows, EpochQuiet, Send;
    hide CompositionTold, SegmentTold, IntentTold, Unasked, AloneIn, QueueTold;
    var t, x := s.conversions, s.docs[d].segments[i];
    UnaskedOrigin(t, x);
    ConvertIs(s, d, i);
    if t.backend && x.buffer.entries != [] {
      var request := SegmentRequest(x, d);
      SentGrows(t, request);
      AskingDocument(t, s.docs[d], d, i);
      forall a <- s.docs | a != d ensures DocumentTold(Send(t, request), s.docs[a], a) {
        AskingElsewhere(t, request, s.docs[a], a);
      }
      if s.comp.Some? {
        SentQuiet(t, request, s.comp.value.epoch);
        var queue := s.docs[s.comp.value.document].queue;
        CompositionStays(t, Send(t, request), s.comp.value, queue, queue);
      }
    } else {
      WithoutBackendDocument(t, s.docs[d], d, i);
    }
  }

  lemma UnaskedOrigin(t: Tracker, x: Segment)
    requires Unasked(t, x)
    ensures x.buffer == x.origin && OriginOk(x.buffer) && UniqueIds(x.buffer.entries)
  {
  }

  lemma WithoutBackendDocument(t: Tracker, doc: Doc, d: DocId, i: nat)
    requires LogOk(t) && ToldBut(t, doc, d, i) && (!t.backend || doc.segments[i].origin.entries == [])
    ensures DocumentTold(t, SetSegment(doc, i, FinishSegment(doc.segments[i])), d)
  {
    hide SegmentTold, EndedTold, QueueTold;
    var x := FinishSegment(doc.segments[i]);
    WithoutBackendTold(t, doc.segments[i], doc.queue);
    assert doc.segments[i] in doc.segments;
    forall y <- doc.segments[i := x] ensures SegmentTold(t, y, doc.queue) && AskedBefore(t, y.epoch, y.origin) {
      var j :| 0 <= j < |doc.segments| && doc.segments[i := x][j] == y;
    }
    IntentsFollow(t, t, doc, i, x);
  }

  // A write is queued.
  lemma WriteQueuedTold(s: State, d: DocId, e: Edit)
    requires Told(s) && d in s.docs && !e.ApplyResult? && !e.AcceptLocally?
    ensures Told(WithDoc(s, d, Enqueue(s.docs[d], e)))
  {
    hide Told, SegmentTold, IntentTold;
    TellsDocument(s, d);
    QueuedTold(s.conversions, s.docs[d].queue, e, d);
    DescendsAll(s, d);
    DocumentGoesOn(s.conversions, s.docs[d], Enqueue(s.docs[d], e), d);
    OneDocument(s, WithDoc(s, d, Enqueue(s.docs[d], e)), d);
  }

  lemma KnownTold(t: Tracker, doc: Doc, d: DocId, i: nat, preceding: string)
    requires LogOk(t) && DocumentTold(t, doc, d) && i < |doc.segments|
    ensures DocumentTold(t, SetSegment(doc, i, doc.segments[i].(preceding := Some(preceding))), d)
  {
    hide IntentTold;
    var x := doc.segments[i].(preceding := Some(preceding));
    assert doc.segments[i] in doc.segments;
    assert SegmentTold(t, x, doc.queue);
    hide SegmentTold;
    TouchedDescends(t, doc, d, i, x);
    DocumentGoesOn(t, doc, SetSegment(doc, i, x), d);
  }

  // Where the waiting segment stands.
  lemma WaitingAsks(s: State, d: DocId, i: nat)
    requires Told(s) && Apart(s) && d in s.docs && i < |s.docs[d].segments| && s.docs[d].segments[i].stage.WaitingForContext?
    ensures AsksNow(s, d, i)
  {
    hide CompositionTold, SegmentTold, IntentTold, Unasked;
    var doc, x := s.docs[d], s.docs[d].segments[i];
    assert x in doc.segments;
    WaitingIsUnasked(s.conversions, x, doc.queue);
    WaitingWasNotAsked(s.conversions, x, doc.queue);
    forall j | 0 <= j < |doc.segments| && j != i ensures doc.segments[j].epoch != x.epoch {
      assert Epochs(doc.segments)[j] == doc.segments[j].epoch && Epochs(doc.segments)[i] == x.epoch;
    }
    forall a <- s.docs | a != d ensures AloneIn(s.conversions, s.docs[a], x.epoch, -1) {
      assert x.epoch in Epochs(doc.segments) by {
        assert Epochs(doc.segments)[i] == x.epoch;
      }
      forall j | 0 <= j < |s.docs[a].segments| ensures s.docs[a].segments[j].epoch != x.epoch {
        assert Epochs(s.docs[a].segments)[j] == s.docs[a].segments[j].epoch;
      }
    }
  }

  lemma WaitingWasNotAsked(t: Tracker, x: Segment, queue: seq<Edit>)
    requires SegmentTold(t, x, queue) && x.stage.WaitingForContext?
    ensures x.epoch !in t.newest
  {
  }

  lemma SealedContextTold(s: State, d: DocId, epoch: nat, preceding: string)
    requires Told(s) && Apart(s) && d in s.docs
    ensures Told(SealedContextReady(s, d, epoch, preceding))
  {
    hide Told, Apart, AsksNow, DocumentTold, ConvertSegment;
    var i := SegmentOf(s.docs[d].segments, epoch);
    SealedContextIs(s, d, epoch, preceding);
    if i < |s.docs[d].segments| {
      var known := Known(s, d, i, preceding);
      TellsDocument(s, d);
      KnownTold(s.conversions, s.docs[d], d, i, preceding);
      SameQueue(s.docs[d].queue);
      OneDocument(s, known, d);
      if s.docs[d].segments[i].stage.WaitingForContext? {
        KnownApart(s, d, i, preceding);
        WaitingAsks(known, d, i);
        ConvertTold(known, d, i);
        var asked := ConvertSegment(known, d, i);
        if asked.docs[d].segments[i].stage.Finished? {
          WriteQueuedTold(asked, d, WriteFinished);
        } else {
          assert WithDoc(asked, d, asked.docs[d]) == asked;
        }
      }
    }
  }

  lemma SameQueue(queue: seq<Edit>)
    ensures NothingMore(queue, queue)
  {
  }

  lemma KnownApart(s: State, d: DocId, i: nat, preceding: string)
    requires Apart(s) && d in s.docs && i < |s.docs[d].segments|
    ensures Apart(Known(s, d, i, preceding))
  {
    var doc, known := s.docs[d], Known(s, d, i, preceding);
    var after := known.docs[d];
    ReplacedSegment(doc.segments, i, after.segments[i]);
    assert doc.segments[i] in doc.segments;
    assert forall y <- after.segments :: y == after.segments[i] || y in doc.segments;
  }

  lemma SealedReadTold(s: State, d: DocId)
    requires Told(s) && Apart(s) && d in s.docs && s.docs[d].queue != []
    requires s.docs[d].queue[0].ReadContext? && !LiveEpoch(s, s.docs[d].queue[0].epoch)
    ensures Told(RunFront(s, d))
  {
    hide Told, Apart, RunFront, Descends;
    var epoch := s.docs[d].queue[0].epoch;
    var read := WithDoc(s, d, HostReads(Rest(s.docs[d]), epoch));
    DescendsAll(s, d);
    FrontGone(s, read, d);
    SealedReadIs(s, d);
    ApartFrame(s, read);
    SealedContextTold(read, d, epoch, ContextBefore(Rest(s.docs[d])));
  }

  // ---- accepting locally, showing -----------------------------------------------------------------

  lemma LiveAcceptTold(s: State, d: DocId)
    requires Told(s) && Apart(s) && Owns(s, d) && s.docs[d].queue != []
    requires s.docs[d].queue[0].AcceptLocally? && LiveEpoch(s, s.docs[d].queue[0].epoch)
    ensures Told(RunFront(s, d))
  {
    hide Descends, RunFront;
    hide CompositionTold, SegmentTold, IntentTold;
    var t, c, doc := s.conversions, s.comp.value, s.docs[d];
    TellsDocument(s, d);
    ContinuedTold(t, doc.queue, Rest(doc).queue, d);
    LiveAcceptIs(s, d);
    assert doc.queue[0] in doc.queue && doc.queue[0] == AcceptLocally(c.epoch);
    LostIsTold(t, c, doc.queue);
    AcceptedTold(t, c, doc.queue, Rest(doc).queue);
    DescendsAll(s, d);
    DocumentGoesOn(t, doc, RunFront(s, d).docs[d], d);
  }

  lemma LostIsTold(t: Tracker, c: Composition, queue: seq<Edit>)
    requires CompositionTold(t, c, queue) && AcceptLocally(c.epoch) in queue
    ensures c.lost
  {
  }

  lemma LiveShowTold(s: State, d: DocId)
    requires Told(s) && Owns(s, d) && s.docs[d].queue != []
    requires s.docs[d].queue[0].Show? && LiveEpoch(s, s.docs[d].queue[0].epoch)
    ensures Told(RunFront(s, d))
  {
    LiveShowIs(s, d);
    DescendsAll(s, d);
    hide Told;
    FrontGone(s, RunFront(s, d), d);
  }

  // ---- a grant ----------------------------------------------------------------------------------------

  // An edit of the open composition is queued in its document, and does not end it.
  lemma LiveEdits(s: State, d: DocId)
    requires GrantInv(s, d) && d in s.docs && s.docs[d].queue != []
    ensures var e := s.docs[d].queue[0];
            EpochOf(e).Some? && LiveEpoch(s, EpochOf(e).value) ==> Owns(s, d) && !e.Commit? && !e.Discard?
  {
    var e := s.docs[d].queue[0];
    assert DocOk(s, d);
    if EpochOf(e).Some? {
      LiveIsOwned(s, d, EpochOf(e).value);
    }
    if e.Commit? || e.Discard? {
      EndedNotLive(s, d);
    }
  }

  lemma RunFrontTold(s: State, d: DocId)
    requires Told(s) && Apart(s) && d in s.docs && s.docs[d].queue != [] && (s.comp.Some? ==> GrantInv(s, d))
    ensures Told(RunFront(s, d))
  {
    hide Told, GrantInv;
    var e := s.docs[d].queue[0];
    if s.comp.Some? {
      LiveEdits(s, d);
    }
    match e
    case ReadContext(epoch) => if LiveEpoch(s, epoch) { LiveReadTold(s, d); } else { SealedReadTold(s, d); }
    case Show(epoch, _) => if LiveEpoch(s, epoch) { LiveShowTold(s, d); } else { EndedEditTold(s, d); }
    case ApplyResult(_, request, _) => if LiveEpoch(s, request.epoch) { LiveApplyTold(s, d); } else { SealedApplyTold(s, d); }
    case AcceptLocally(epoch) => if LiveEpoch(s, epoch) { LiveAcceptTold(s, d); } else { EndedEditTold(s, d); }
    case Commit(_, _, _) => EndedEditTold(s, d);
    case Discard(_) => EndedEditTold(s, d);
    case Seal(_) => SealTold(s, d);
    case Backspace => EraseTold(s, d);
    case WriteFinished => WriteTold(s, d);
  }

  lemma {:induction false} DrainTold(s: State, d: DocId)
    requires Told(s) && GrantInv(s, d)
    ensures Told(Drain(s, d))
    decreases if d in s.docs then Weight(s.docs[d].queue) else 0
  {
    hide Told, Base;
    if d in s.docs && s.docs[d].queue != [] {
      BaseApart(s);
      RunFrontTold(s, d);
      RunFrontKeeps(s, d);
      RunFrontQueue(s, d);
      DrainTold(RunFront(s, d), d);
    }
  }

  // A grant before the seal of the epoch is queued.
  lemma {:induction false} DrainPromisedTold(s: State, d: DocId, epoch: nat)
    requires Told(s) && d in s.docs && s.comp.None? && Safe(Promised(s, d, epoch))
    ensures Told(Drain(s, d))
    decreases Weight(s.docs[d].queue)
  {
    hide Told, Base;
    if s.docs[d].queue != [] {
      PromisedApart(s, d, epoch);
      RunFrontTold(s, d);
      RunFrontQueue(s, d);
      PromisedRuns(s, d, epoch);
      DrainPromisedTold(RunFront(s, d), d, epoch);
    }
  }

  lemma GrantTold(s: State, d: DocId, granted: bool)
    requires Told(s) && Safe(s)
    ensures Told(Granting(s, d, granted))
  {
    if granted {
      assert GrantInv(s, d);
      DrainTold(s, d);
    }
  }
}
