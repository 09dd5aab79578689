/** Ending a composition, an answer and a lost backend keep where text comes from. */
module AnswerEndings {
  import opened Wrappers
  import opened Bopomofo
  import opened Buffers
  import opened BufferProofs
  import opened BufferHistory
  import opened CandidateLocks
  import opened Merging
  import opened Absorbing
  import opened Conversions
  import opened Documents
  import opened DocumentProofs
  import opened DocumentInv
  import opened DocumentSteps
  import opened Controller
  import opened ControllerInv
  import opened GrantProofs
  import opened SegmentGrants
  import opened MovingProofs
  import opened CallProofs
  import opened SealProofs
  import opened KeyProofs
  import opened ResultProofs
  import opened AnswerInv
  import opened AnswerSteps
  import opened AnswerLive
  import opened AnswerRequests
  import opened AnswerGrants
  import opened AnswerPresence
  import opened AnswerEvents

  // ---- a commit -----------------------------------------------------------------------

  // The newest result given is of the revision that is converted.
  lemma NewestIsConverted(t: Tracker, c: Composition, queue: seq<Edit>)
    requires LogOk(t) && CompositionTold(t, c, queue) && !c.lost && c.converted == Some(c.buffer.revision)
    ensures IsConverted(t, c.buffer.entries, c.applied, c.candidates.held)
  {
    var r :| r in c.applied && r.sequence in t.asked && t.asked[r.sequence].revision == c.converted.value;
    LastIsNewest(c.applied);
    var w :| w in c.applied && w.sequence == LastSequence(c.applied);
    assert Truthful(t, w, c.epoch) && Truthful(t, r, c.epoch);
    assert SentOf(t, w.sequence, c.buffer);
    assert r.sequence == w.sequence;
    assert OfContent(t, w.sequence, c.buffer.entries);
  }

  lemma SettledEnds(t: Tracker, c: Composition, queue: seq<Edit>)
    requires LogOk(t) && CompositionTold(t, c, queue) && Wf(c.buffer) && Settled(c)
    ensures EndedTold(t, EndedAs(c))
  {
    if !AllChosen(c.buffer.entries) && !c.lost {
      NewestIsConverted(t, c, queue);
    }
    hide RequestsTold, NewestMerged, OfContent;
    GivenStays(t, t, c.applied, c.epoch, queue, []);
  }

  // An intent is noted.
  lemma NotedTold(t: Tracker, doc: Doc, d: DocId, intent: Intent)
    requires DocumentTold(t, doc, d) && IntentTold(t, doc, intent)
    ensures DocumentTold(t, doc.(intents := doc.intents + [intent]), d)
  {
    hide SegmentTold, EndedTold;
    var after := doc.(intents := doc.intents + [intent]);
    forall x <- after.intents ensures IntentTold(t, after, x) {
      assert x == intent || x in doc.intents;
      assert IntentTold(t, doc, x);
    }
  }

  lemma CommitTold(s: State, granted: bool)
    requires Told(s) && Behindhand(s) && TextShown(s) && Settled(s.comp.value)
    ensures Told(CommitComposition(s, granted))
  {
    hide CompositionTold, DocumentTold, LogOk, EndedTold;
    var c, d := s.comp.value, s.comp.value.document;
    var doc := s.docs[d];
    var noted := doc.(intents := doc.intents + [Typed(EndedAs(c))]);
    ComposedIsWf(s);
    SettledEnds(s.conversions, c, doc.queue);
    NotedTold(s.conversions, doc, d, Typed(EndedAs(c)));
    EndedStateTold(s);
    var ended := WithDoc(s.(comp := None), d, noted);
    WriteQueuedTold(ended, d, CommitEdit(c));
    WithDocTwice(s, d, noted, Enqueue(noted, CommitEdit(c)));
    CommitQueued(s);
    CommitIs(s, granted);
    GrantTold(CommitQueuedState(s), d, granted);
  }

  lemma ComposedIsWf(s: State)
    requires Behindhand(s)
    ensures Wf(s.comp.value.buffer)
  {
  }

  // ---- sealing --------------------------------------------------------------------------

  lemma UnsettledOrigin(c: Composition)
    requires Wf(c.buffer) && !HasUncomposedReading(c.buffer.entries) && !Settled(c)
    ensures OriginOk(c.buffer)
  {
    ChosenWaitsForNothing(c.buffer.entries);
  }

  lemma ChosenWaitsForNothing(s: seq<Entry>)
    requires forall e <- s :: e.Wf()
    ensures AllChosen(s) ==> !HasPendingConversion(s)
  {
  }

  lemma EarlierConversions(t: Tracker, c: Composition, queue: seq<Edit>, x: Segment)
    requires LogOk(t) && CompositionTold(t, c, queue) && x.epoch == c.epoch && x.origin == c.buffer
    ensures ConvertedEarlier(t, x)
  {
    hide RequestsTold, NewestMerged;
    LastIsNewest(c.applied);
    if c.applied != [] {
      var w :| w in c.applied && w.sequence == LastSequence(c.applied);
      assert Truthful(t, w, c.epoch);
    }
  }

  lemma AskedOfContent(t: Tracker, c: Composition, queue: seq<Edit>)
    requires CompositionTold(t, c, queue)
    ensures AskedBefore(t, c.epoch, c.buffer)
  {
    forall q <- t.asked | t.asked[q].epoch == c.epoch ensures Succeeds(t.asked[q].snapshot, c.buffer.entries) {
      assert SentOf(t, q, c.buffer);
    }
  }

  // The conversion in flight was asked for exactly what is sealed.
  lemma InFlightIsOf(t: Tracker, c: Composition, queue: seq<Edit>, x: Segment)
    requires LogOk(t) && CompositionTold(t, c, queue) && c.sent.Some? && c.sent.value.revision == c.buffer.revision
    requires x.epoch == c.epoch && x.origin == c.buffer
    ensures NewestIsOf(t, x) && t.newest[x.epoch] == c.sent.value.sequence
  {
    assert SentOf(t, c.sent.value.sequence, c.buffer);
  }

  // The segment a composition becomes that has its conversion in flight, or waits for the text before it.
  lemma NewSegmentTold(t: Tracker, c: Composition, queue: seq<Edit>, x: Segment)
    requires LogOk(t) && CompositionTold(t, c, queue) && OriginOk(c.buffer)
    requires x.epoch == c.epoch && x.origin == c.buffer == x.buffer && x.answers == [] && !x.local
    requires (x.stage.WaitingForContext? && c.preceding.None?)
          || (c.sent.Some? && c.sent.value.revision == c.buffer.revision && x.stage == Converting(c.sent.value.sequence))
    ensures SegmentTold(t, x, queue)
  {
    hide RequestsTold, NewestMerged, NewestIsOf, ConvertedEarlier;
    EarlierConversions(t, c, queue, x);
    if x.stage.Converting? {
      InFlightIsOf(t, c, queue, x);
    }
    NothingMerged(t, x, queue);
  }

  // Nothing was sealed under the epoch before.
  lemma IntentsElsewhere(doc: Doc, x: Segment)
    requires Accounted(doc) && x.epoch !in doc.written && (forall y <- doc.segments :: y.epoch != x.epoch)
    ensures forall intent <- doc.intents :: intent.TypedSealed? ==> intent.epoch != x.epoch
  {
  }

  function Extended(doc: Doc, x: Segment): Doc {
    doc.(segments := doc.segments + [x], intents := doc.intents + [TypedSealed(x.epoch, x.origin)])
  }

  lemma ExtendedIntents(t: Tracker, doc: Doc, d: DocId, x: Segment)
    requires DocumentTold(t, doc, d) && Accounted(doc) && x.epoch !in doc.written && (forall y <- doc.segments :: y.epoch != x.epoch)
    ensures forall intent <- Extended(doc, x).intents :: IntentTold(t, Extended(doc, x), intent)
  {
    hide SegmentTold, EndedTold;
    var after := Extended(doc, x);
    IntentsElsewhere(doc, x);
    forall intent <- after.intents ensures IntentTold(t, after, intent) {
      assert intent == TypedSealed(x.epoch, x.origin) || intent in doc.intents;
      assert intent in doc.intents ==> IntentTold(t, doc, intent);
      forall y <- after.segments ensures y == x || y in doc.segments {
      }
    }
  }

  lemma ExtendedTold(t: Tracker, doc: Doc, d: DocId, x: Segment)
    requires DocumentTold(t, doc, d) && Accounted(doc) && x.epoch !in doc.written && (forall y <- doc.segments :: y.epoch != x.epoch)
    requires SegmentTold(t, x, doc.queue) && AskedBefore(t, x.epoch, x.origin)
    ensures DocumentTold(t, Extended(doc, x), d)
  {
    hide SegmentTold, IntentTold;
    ExtendedIntents(t, doc, d, x);
    assert forall y <- Extended(doc, x).segments :: y == x || y in doc.segments;
  }

  lemma ExtendedBut(t: Tracker, doc: Doc, d: DocId, x: Segment)
    requires DocumentTold(t, doc, d) && Accounted(doc) && x.epoch !in doc.written && (forall y <- doc.segments :: y.epoch != x.epoch)
    requires Unasked(t, x) && AskedBefore(t, x.epoch, x.origin)
    ensures ToldBut(t, Extended(doc, x), d, |doc.segments|) && AloneIn(t, Extended(doc, x), x.epoch, |doc.segments|)
  {
    hide SegmentTold, IntentTold, Unasked;
    var after := Extended(doc, x);
    ExtendedIntents(t, doc, d, x);
    forall j | 0 <= j < |after.segments| && j != |doc.segments| ensures SegmentTold(t, after.segments[j], doc.queue) {
      assert after.segments[j] == doc.segments[j] && doc.segments[j] in doc.segments;
    }
  }

  // Sealing, up to the seal in the document.
  lemma AddedTold(s: State, inFlight: Option<nat>)
    requires Told(s) && Base(s) && s.comp.Some? && OriginOk(s.comp.value.buffer)
    requires inFlight.Some? ==> s.comp.value.sent == Some(Sent(s.comp.value.buffer.revision, inFlight.value))
    ensures var c := s.comp.value;
            Told(AddSegment(Intend(s.(comp := None), c.document, TypedSealed(c.epoch, c.buffer)), c, inFlight))
  {
    hide CompositionTold, DocumentTold, LogOk, ConvertSegment, OriginOk;
    var c, d := s.comp.value, s.comp.value.document;
    var doc, x := s.docs[d], Sealed0(c);
    BaseApart(s);
    SealableDocument(s, d);
    AddSegmentIs(s, inFlight);
    if inFlight.Some? || c.preceding.None? {
      var y := if inFlight.Some? then x.(stage := Converting(inFlight.value)) else x;
      NewSegmentTold(s.conversions, c, doc.queue, y);
      AskedOfContent(s.conversions, c, doc.queue);
      ExtendedTold(s.conversions, doc, d, y);
      EndedStateTold(s);
      assert WithSegment(s, y) == WithDoc(s.(comp := None), d, Extended(doc, y));
    } else {
      NewSegmentAsks(s);
      ConvertTold(WithSegment(s, x), d, |doc.segments|);
    }
  }

  lemma SealableDocument(s: State, d: DocId)
    requires Base(s) && Apart(s) && s.comp.Some? && d == s.comp.value.document
    ensures d in s.docs && Accounted(s.docs[d]) && s.comp.value.epoch !in s.docs[d].written
    ensures forall y <- s.docs[d].segments :: y.epoch != s.comp.value.epoch
  {
    assert DocOk(s, d);
  }

  lemma NewSegmentAsks(s: State)
    requires Told(s) && Apart(s) && Base(s) && s.comp.Some? && OriginOk(s.comp.value.buffer)
    ensures s.comp.value.document in s.docs
    ensures AsksNow(WithSegment(s, Sealed0(s.comp.value)), s.comp.value.document, |s.docs[s.comp.value.document].segments|)
  {
    hide Accounted, AskedBefore, Intend;
    var c, d := s.comp.value, s.comp.value.document;
    var doc, x := s.docs[d], Sealed0(c);
    SealableDocument(s, d);
    EarlierConversions(s.conversions, c, doc.queue, x);
    AskedOfContent(s.conversions, c, doc.queue);
    hide CompositionTold, SegmentTold, IntentTold, LogOk, ConvertedEarlier, Base;
    ExtendedBut(s.conversions, doc, d, x);
    var r := WithSegment(s, x);
    assert r.docs[d] == Extended(doc, x);
    forall a <- r.docs | a != d ensures DocumentTold(r.conversions, r.docs[a], a) && AloneIn(r.conversions, r.docs[a], x.epoch, -1) {
    }
  }

  lemma SealStepsTold(s: State, added: State, d: DocId, epoch: nat, g: Grants)
    requires Told(added) && d in added.docs && added.comp.None? && Safe(Promised(added, d, epoch))
    ensures Told(SealSteps(s, added, d, epoch, g))
  {
    hide Told, Safe, Drain;
    var written := added;
    if EpochFinished(added.docs[d], epoch) {
      var queued := WithDoc(added, d, Enqueue(added.docs[d], WriteFinished));
      WriteQueuedTold(added, d, WriteFinished);
      WritePromised(added, d, epoch);
      if g.first {
        DrainPromised(queued, d, epoch);
        DrainPromisedTold(queued, d, epoch);
      }
      written := if g.first then Drain(queued, d) else queued;
    }
    WriteQueuedTold(written, d, Seal(epoch));
    GrantTold(Promised(written, d, epoch), d, g.second);
  }

  lemma SealingTold(s: State, g: Grants)
    requires Told(s) && Safe(s) && (s.comp.Some? ==> s.comp.value.buffer.entries != [])
    ensures Told(SealComposition(s, g))
  {
    hide Told, Inv, Moving, Promised, SealSteps, Drain, AddSegment, Settled;
    if s.comp.Some? {
      var c, d := FrozenComp(s), s.comp.value.document;
      FrozenState(s);
      FrozenTold(s);
      if Settled(c) {
        CommitTold(WithComp(s, c), g.first);
      } else {
        var r := WithComp(s, c);
        var inFlight := InFlight(r, HasUncomposedReading(s.comp.value.buffer.entries));
        var added := AddSegment(Intend(s.(comp := None), d, TypedSealed(c.epoch, c.buffer)), c, inFlight);
        FrozenIsWf(r);
        UnsettledOrigin(c);
        AddedTold(r, inFlight);
        var x := AddSegmentAdds(r, inFlight);
        AddedKeeps(r, added, x);
        SealIsSteps(s, g);
        SealStepsTold(s, added, d, c.epoch, g);
      }
    }
  }

  lemma FrozenIsWf(s: State)
    requires Behindhand(s)
    ensures Base(s) && Wf(s.comp.value.buffer) && CompOk(s) && TrackerOk(s)
  {
  }

  lemma FrozenTold(s: State)
    requires Told(s) && s.comp.Some?
    ensures Told(WithComp(s, FrozenComp(s)))
  {
    hide Told;
    FreezeRevises(s.comp.value.buffer);
    RevisedStateTold(s, FrozenComp(s));
  }

  lemma EnterTold(s: State, d: DocId, g: Grants)
    requires Told(s) && Good(s)
    ensures Told(Enter(s, d, g))
  {
    hide Told, CommitComposition, SealComposition, RequestConversion, Settled, Inv, Moving;
    if Owns(s, d) && !HasUncomposedReading(s.comp.value.buffer.entries) {
      if Settled(s.comp.value) {
        GoodIsShown(s);
        CommitTold(s, g.first);
      } else {
        SafeRequestTold(s);
        RequestSafe(s);
        SealingTold(RequestConversion(s), g);
      }
    }
  }
}
