/** Sending a request and taking its answer keep where text comes from. */
module AnswerRequests {
  import opened Wrappers
  import opened Bopomofo
  import opened Buffers
  import opened BufferProofs
  import opened BufferHistory
  import opened CandidateLocks
  import opened Merging
  import opened Absorbing
  import opened Conversions
  import opened Documents
  import opened Controller
  import opened AnswerInv
  import opened AnswerSteps

  // ---- a request -----------------------------------------------------------------------

  lemma SentGrows(t: Tracker, request: Request)
    requires LogOk(t) && t.backend && UniqueIds(request.snapshot)
    ensures var r := Send(t, request);
            && LogOk(r) && LogGrows(t, r) && (AllRegular(t) <==> AllRegular(r))
            && r.sequence == t.sequence + 1 && r.asked == t.asked[r.sequence := request]
            && r.newest == t.newest[request.epoch := r.sequence] && r.answered == t.answered && r.present == t.present
            && r.sequence !in t.asked
  {
    hide Submit, LogOk;
    var r := Send(t, request);
    SentLog(t, request);
    if AllRegular(t) {
      forall q <- r.answered ensures Regular(r.asked[q].snapshot, r.answered[q]) {
        assert q in t.answered && q in t.asked;
      }
    }
    if AllRegular(r) {
      RegularBefore(t, r);
    }
  }

  // The fields of the tracker a request changes.
  predicate SentIs(t: Tracker, r: Tracker, request: Request) {
    && r.sequence == t.sequence + 1 && r.pending == t.pending[r.sequence := request] && r.asked == t.asked[r.sequence := request]
    && r.newest == t.newest[request.epoch := r.sequence] && r.answered == t.answered && r.present == t.present && r.backend == t.backend
  }

  lemma SendIs(t: Tracker, request: Request)
    requires t.backend
    ensures SentIs(t, Send(t, request), request)
  {
    hide Submit;
  }

  lemma NotAskedYet(t: Tracker)
    requires AskedLogged(t) && AnsweredLogged(t)
    ensures t.sequence + 1 !in t.asked && t.sequence + 1 !in t.answered
  {
  }

  lemma SentLog(t: Tracker, request: Request)
    requires LogOk(t) && t.backend && UniqueIds(request.snapshot)
    ensures var r := Send(t, request);
            && LogOk(r) && LogGrows(t, r) && r.sequence !in t.asked && forall q <- t.answered :: q in t.asked
  {
    hide Send, AskedLogged, PendingLogged, NewestLogged, LogGrows;
    var r := Send(t, request);
    SendIs(t, request);
    NotAskedYet(t);
    SentAsked(t, r, request);
    SentPending(t, r, request);
    SentGrowsOnly(t, r, request);
  }

  lemma SentAsked(t: Tracker, r: Tracker, request: Request)
    requires AskedLogged(t) && NewestLogged(t) && UniqueIds(request.snapshot) && SentIs(t, r, request)
    ensures AskedLogged(r) && NewestLogged(r)
  {
  }

  lemma SentPending(t: Tracker, r: Tracker, request: Request)
    requires PendingLogged(t) && AskedLogged(t) && AnsweredLogged(t) && SentIs(t, r, request)
    ensures PendingLogged(r)
  {
  }

  lemma SentGrowsOnly(t: Tracker, r: Tracker, request: Request)
    requires AskedLogged(t) && SentIs(t, r, request)
    ensures LogGrows(t, r)
  {
  }

  lemma SentQuiet(t: Tracker, request: Request, epoch: nat)
    requires LogOk(t) && t.backend && UniqueIds(request.snapshot) && epoch != request.epoch
    ensures EpochQuiet(t, Send(t, request), epoch)
  {
  }

  lemma SentDocument(t: Tracker, request: Request, doc: Doc, d: DocId)
    requires LogOk(t) && t.backend && UniqueIds(request.snapshot) && DocumentTold(t, doc, d)
    requires (forall x <- doc.segments :: x.epoch != request.epoch) && request.epoch !in doc.written
    ensures DocumentTold(Send(t, request), doc, d)
  {
    SentGrows(t, request);
    forall epoch | epoch != request.epoch ensures EpochQuiet(t, Send(t, request), epoch) {
      SentQuiet(t, request, epoch);
    }
    DocumentStays(t, Send(t, request), doc, d);
  }

  lemma NothingFixedSince(s: seq<Entry>)
    requires UniqueIds(s)
    ensures NoneFixed(s, s)
  {
    forall e <- s, x <- s | e.id == x.id ensures e == x {
      var i :| 0 <= i < |s| && s[i] == e;
      var j :| 0 <= j < |s| && s[j] == x;
      SameIndex(s, i, j);
    }
  }

  // The composition as it is may be asked for.
  predicate MayAsk(c: Composition) {
    && Wf(c.buffer) && c.preceding.Some? && ConversionSnapshot(c.buffer).Some?
    && !(c.sent.Some? && c.sent.value.revision == c.buffer.revision)
  }

  function AskedNow(c: Composition, sequence: nat): Composition {
    c.(sent := Some(Sent(c.buffer.revision, sequence)))
  }

  // Every request sent before is of an earlier revision, unless the backend was lost.
  lemma EarlierRevision(t: Tracker, c: Composition, p: nat)
    requires LogOk(t) && RequestsTold(t, c) && SentTold(t, c) && MayAsk(c) && AskedFor(t, p, c.epoch)
    ensures t.asked[p].revision <= c.buffer.revision && (!c.lost ==> t.asked[p].revision < c.buffer.revision)
  {
    assert SentOf(t, p, c.buffer);
    if !c.lost {
      var last := c.sent.value.sequence;
      assert p <= last && SentOf(t, last, c.buffer);
      assert p < last ==> t.asked[p].revision < t.asked[last].revision;
    }
  }

  lemma AskedRequests(t: Tracker, c: Composition)
    requires LogOk(t) && t.backend && RequestsTold(t, c) && SentTold(t, c) && MayAsk(c)
    ensures var r := Send(t, RequestFor(c, ConversionSnapshot(c.buffer).value));
            RequestsTold(r, AskedNow(c, r.sequence))
  {
    var request := RequestFor(c, ConversionSnapshot(c.buffer).value);
    var r := Send(t, request);
    SentGrows(t, request);
    TakenNow(c.buffer);
    NothingFixedSince(c.buffer.entries);
    forall q <- r.asked | r.asked[q].epoch == c.epoch ensures SentOf(r, q, c.buffer) && r.asked[q].document == c.document {
      assert q in t.asked ==> SentOf(t, q, c.buffer);
    }
    forall p <- r.asked, q <- r.asked | p < q && r.asked[p].epoch == c.epoch && r.asked[q].epoch == c.epoch
      ensures r.asked[p].revision <= r.asked[q].revision && (!c.lost ==> r.asked[p].revision < r.asked[q].revision)
      ensures Succeeds(r.asked[p].snapshot, r.asked[q].snapshot)
    {
      assert p in t.asked && SentOf(t, p, c.buffer);
      EarlierRevision(t, c, p);
      assert q == r.sequence || q in t.asked;
    }
  }

  lemma AskedTold(t: Tracker, c: Composition, queue: seq<Edit>)
    requires LogOk(t) && t.backend && CompositionTold(t, c, queue) && MayAsk(c)
    ensures var r := Send(t, RequestFor(c, ConversionSnapshot(c.buffer).value));
            CompositionTold(r, AskedNow(c, r.sequence), queue)
  {
    hide RequestsTold, NewestMerged, Given, ConvertedTold;
    var request := RequestFor(c, ConversionSnapshot(c.buffer).value);
    var r := Send(t, request);
    SentGrows(t, request);
    AskedRequests(t, c);
    GivenStays(t, r, c.applied, c.epoch, queue, queue);
    ConvertedStays(t, r, c);
    AskedConverted(r, c);
  }

  lemma AskedConverted(t: Tracker, c: Composition)
    requires ConvertedTold(t, c)
    ensures ConvertedTold(t, AskedNow(c, t.sequence))
  {
  }

  // No segment is one of the open composition.
  predicate LiveApart(s: State) {
    s.comp.Some? ==> forall d <- s.docs ::
      (forall x <- s.docs[d].segments :: x.epoch != s.comp.value.epoch) && s.comp.value.epoch !in s.docs[d].written
  }

  lemma RequestTold(s: State)
    requires Told(s) && s.comp.Some? && Wf(s.comp.value.buffer) && LiveApart(s)
    ensures Told(RequestConversion(s))
  {
    hide CompositionTold, DocumentTold;
    var c, t := s.comp.value, s.conversions;
    if t.backend && MayAsk(c) {
      var request := RequestFor(c, ConversionSnapshot(c.buffer).value);
      SentGrows(t, request);
      AskedTold(t, c, s.docs[c.document].queue);
      forall d <- s.docs ensures DocumentTold(Send(t, request), s.docs[d], d) {
        SentDocument(t, request, s.docs[d], d);
      }
    }
  }

  // ---- a segment asks ----------------------------------------------------------------------

  // As it was sealed, and nothing was asked for it as a segment.
  predicate Unasked(t: Tracker, x: Segment) {
    && OriginOk(x.origin) && x.buffer == x.origin && x.answers == [] && !x.stage.Finished?
    && ConvertedEarlier(t, x) && (x.local ==> !t.present || x.origin.entries == [])
  }

  lemma WaitingIsUnasked(t: Tracker, x: Segment, queue: seq<Edit>)
    requires SegmentTold(t, x, queue) && x.stage.WaitingForContext?
    ensures Unasked(t, x)
  {
  }

  lemma OriginIsConvertible(b: Buffer)
    requires OriginOk(b) && b.entries != []
    ensures ConversionSnapshot(b) == Some(Snapshot(b.revision, b.entries))
  {
  }

  function SegmentRequest(x: Segment, d: DocId): Request {
    Request(x.epoch, x.buffer.revision, d, x.buffer.entries)
  }

  lemma ConvertIs(s: State, d: DocId, i: nat)
    requires d in s.docs && i < |s.docs[d].segments| && OriginOk(s.docs[d].segments[i].buffer)
    ensures var x := s.docs[d].segments[i];
            var t := Send(s.conversions, SegmentRequest(x, d));
            ConvertSegment(s, d, i) ==
              if s.conversions.backend && x.buffer.entries != []
              then WithDoc(s, d, SetSegment(s.docs[d], i, x.(stage := Converting(t.sequence)))).(conversions := t)
              else WithDoc(s, d, SetSegment(s.docs[d], i, FinishSegment(x)))
  {
    if s.docs[d].segments[i].buffer.entries != [] {
      OriginIsConvertible(s.docs[d].segments[i].buffer);
    }
  }

  lemma AskingIsOf(t: Tracker, x: Segment, d: DocId)
    requires LogOk(t) && t.backend && Unasked(t, x)
    ensures var r := Send(t, SegmentRequest(x, d));
            && NewestIsOf(r, x) && r.newest[x.epoch] == r.sequence && ConvertedEarlier(r, x)
            && (AskedBefore(t, x.epoch, x.origin) ==> AskedBefore(r, x.epoch, x.origin))
  {
    hide Submit, AllRegular;
    SentGrows(t, SegmentRequest(x, d));
    SucceedsItself(x.origin.entries);
    NothingFixedSince(x.origin.entries);
  }

  // Without answers the segment holds what was sealed.
  lemma NothingMerged(t: Tracker, x: Segment, queue: seq<Edit>)
    requires x.origin == x.buffer && x.answers == []
    ensures MergedOf(x) && Given(t, x.answers, x.epoch, queue) && AnswersFit(x)
  {
    assert MergeAll(x.origin, []) == x.origin;
  }

  lemma AskingTold(t: Tracker, x: Segment, d: DocId, queue: seq<Edit>)
    requires LogOk(t) && t.backend && Unasked(t, x)
    ensures var r := Send(t, SegmentRequest(x, d));
            SegmentTold(r, x.(stage := Converting(r.sequence)), queue)
            && (AskedBefore(t, x.epoch, x.origin) ==> AskedBefore(r, x.epoch, x.origin))
  {
    hide Submit, OriginOk, MergedOf, NewestIsOf, ConvertedEarlier, AskedBefore, LogOk;
    var r := Send(t, SegmentRequest(x, d));
    AskingIsOf(t, x, d);
    StillIsOf(r, x, x.(stage := Converting(r.sequence)));
    NothingMerged(r, x.(stage := Converting(r.sequence)), queue);
  }

  lemma StillIsOf(t: Tracker, x: Segment, y: Segment)
    requires y.epoch == x.epoch && y.origin == x.origin && NewestIsOf(t, x) && ConvertedEarlier(t, x)
    ensures NewestIsOf(t, y) && ConvertedEarlier(t, y)
  {
  }

  lemma WithoutBackendTold(t: Tracker, x: Segment, queue: seq<Edit>)
    requires LogOk(t) && Unasked(t, x) && (!t.backend || x.origin.entries == [])
    ensures SegmentTold(t, FinishSegment(x), queue)
  {
    assert MergeAll(x.origin, []) == x.origin;
    AcceptTwice(x.buffer.entries);
  }

  // A written segment of an epoch nothing was asked for.
  lemma UnaskedWritten(t: Tracker, r: Tracker, w: Segment, epoch: nat)
    requires LogOk(t) && LogGrows(t, r) && WrittenTold(t, w, epoch) && epoch !in t.newest
    ensures WrittenTold(r, w, epoch)
  {
    GivenStays(t, r, w.answers, epoch, [], []);
  }

  // Segment i of the document has not asked yet; everything else is told.
  predicate ToldBut(t: Tracker, doc: Doc, d: DocId, i: nat) {
    && QueueTold(t, doc.queue, d) && i < |doc.segments| && Unasked(t, doc.segments[i])
    && (forall j :: 0 <= j < |doc.segments| && j != i ==> SegmentTold(t, doc.segments[j], doc.queue))
    && (forall x <- doc.segments :: AskedBefore(t, x.epoch, x.origin))
    && (forall e <- doc.written :: WrittenTold(t, doc.written[e], e))
    && (forall intent <- doc.intents :: IntentTold(t, doc, intent))
  }

  // The epoch is of no other segment, and of no written one that was asked for.
  predicate AloneIn(t: Tracker, doc: Doc, epoch: nat, but: int) {
    && (forall j :: 0 <= j < |doc.segments| && j != but ==> doc.segments[j].epoch != epoch)
    && (epoch in t.newest ==> epoch !in doc.written)
  }

  lemma IntentsFollow(t: Tracker, r: Tracker, doc: Doc, i: nat, x: Segment)
    requires LogOk(t) && LogGrows(t, r) && i < |doc.segments| && x.epoch == doc.segments[i].epoch && x.origin == doc.segments[i].origin
    requires forall intent <- doc.intents :: IntentTold(t, doc, intent)
    ensures forall intent <- doc.intents :: IntentTold(r, SetSegment(doc, i, x), intent)
  {
    forall intent <- doc.intents ensures IntentTold(r, SetSegment(doc, i, x), intent) {
      assert IntentTold(t, doc, intent);
      if intent.Typed? {
        EndedStays(t, r, intent.ended);
      } else if intent.TypedSealed? {
        forall y <- doc.segments[i := x] | y.epoch == intent.epoch ensures y.origin == intent.content {
          assert y == x || y in doc.segments;
          assert doc.segments[i] in doc.segments;
        }
      }
    }
  }

  lemma AskingDocument(t: Tracker, doc: Doc, d: DocId, i: nat)
    requires LogOk(t) && t.backend && ToldBut(t, doc, d, i) && AloneIn(t, doc, doc.segments[i].epoch, i)
    ensures var r := Send(t, SegmentRequest(doc.segments[i], d));
            DocumentTold(r, SetSegment(doc, i, doc.segments[i].(stage := Converting(r.sequence))), d)
  {
    hide SegmentTold, IntentTold, LogOk;
    var request := SegmentRequest(doc.segments[i], d);
    var r := Send(t, request);
    var x := doc.segments[i].(stage := Converting(r.sequence));
    SentGrows(t, request);
    AskingTold(t, doc.segments[i], d, doc.queue);
    assert doc.segments[i] in doc.segments;
    forall y <- doc.segments[i := x] ensures SegmentTold(r, y, doc.queue) && AskedBefore(r, y.epoch, y.origin) {
      var j :| 0 <= j < |doc.segments| && doc.segments[i := x][j] == y;
      if j != i {
        assert doc.segments[j] in doc.segments;
        SentQuiet(t, request, y.epoch);
        SegmentStays(t, r, y, doc.queue, doc.queue);
      }
    }
    forall e <- doc.written ensures WrittenTold(r, doc.written[e], e) {
      WrittenThrough(t, request, doc.written[e], e);
    }
    IntentsFollow(t, r, doc, i, x);
  }

  lemma WrittenThrough(t: Tracker, request: Request, w: Segment, epoch: nat)
    requires LogOk(t) && t.backend && UniqueIds(request.snapshot) && WrittenTold(t, w, epoch)
    requires epoch == request.epoch ==> epoch !in t.newest
    ensures WrittenTold(Send(t, request), w, epoch)
  {
    var r := Send(t, request);
    SentGrows(t, request);
    if epoch == request.epoch {
      UnaskedWritten(t, r, w, epoch);
    } else {
      SentQuiet(t, request, epoch);
      SegmentStays(t, r, w, [], []);
    }
  }

  // A document the asking segment is not of.
  lemma AskingElsewhere(t: Tracker, request: Request, doc: Doc, d: DocId)
    requires LogOk(t) && t.backend && UniqueIds(request.snapshot) && DocumentTold(t, doc, d) && AloneIn(t, doc, request.epoch, -1)
    ensures DocumentTold(Send(t, request), doc, d)
  {
    hide SegmentTold, EndedTold;
    var r := Send(t, request);
    SentGrows(t, request);
    forall x <- doc.segments ensures SegmentTold(r, x, doc.queue) && AskedBefore(r, x.epoch, x.origin) {
      var j :| 0 <= j < |doc.segments| && doc.segments[j] == x;
      SentQuiet(t, request, x.epoch);
      SegmentStays(t, r, x, doc.queue, doc.queue);
    }
    forall e <- doc.written ensures WrittenTold(r, doc.written[e], e) {
      WrittenThrough(t, request, doc.written[e], e);
    }
    forall intent <- doc.intents ensures IntentTold(r, doc, intent) {
      assert IntentTold(t, doc, intent);
      if intent.Typed? {
        EndedStays(t, r, intent.ended);
      }
    }
  }

  // ---- an answer -------------------------------------------------------------------------------

  lemma ReceivedGrows(t: Tracker, q: nat)
    requires LogOk(t)
    ensures var r := Receive(t, q); LogOk(r) && LogGrows(t, r) && forall epoch :: EpochQuiet(t, r, epoch)
  {
    hide Receive;
    ReceiveIs(t, q);
  }

  lemma ReceiveIs(t: Tracker, q: nat)
    ensures var r := Receive(t, q);
            && r.pending == t.pending - {q} && r.asked == t.asked && r.newest == t.newest && r.present == t.present
            && r.sequence == t.sequence && r.backend == t.backend
            && (r.answered == t.answered || (q in t.pending && q in r.answered && r.answered == t.answered[q := r.answered[q]]))
  {
  }

  // An answer that has not come back was given to nobody.
  lemma Fresh(t: Tracker, doc: Doc, d: DocId, q: nat)
    requires DocumentTold(t, doc, d) && q !in t.answered
    ensures q !in Carries(doc.queue)
    ensures forall x <- doc.segments :: forall r <- x.answers :: r.sequence != q
  {
    CarriesMembers(doc.queue);
    forall x <- doc.segments, r <- x.answers ensures r.sequence != q {
      assert SegmentTold(t, x, doc.queue);
    }
  }
}
