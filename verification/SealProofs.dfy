/** Sealing the composition: its segment is queued before its text is in the document. */
module SealProofs {
  import opened Wrappers
  import opened Bopomofo
  import opened Buffers
  import opened BufferProofs
  import opened CandidateLocks
  import opened Conversions
  import opened Documents
  import opened DocumentProofs
  import opened DocumentInv
  import opened DocumentSteps
  import opened Controller
  import opened ControllerInv
  import opened GrantProofs
  import opened SegmentGrants
  import opened MovingProofs
  import opened CallProofs

  // ---- the document ----------------------------------------------------------------------

  // The composition ends as segment x, and its seal is queued.
  function Sealing(doc: Doc, x: Segment): Doc {
    doc.(segments := doc.segments + [x], intents := doc.intents + [TypedSealed(x.epoch, x.origin)], queue := doc.queue + [Seal(x.epoch)])
  }

  predicate Sealable(doc: Doc, x: Segment, d: DocId) {
    && SegmentOk(x, d) && !x.inDocument
    && var v := ViewAfter(doc.queue, doc.view);
    Composes(v, x.epoch) && v.shown.Some? && v.shown.value.text == x.shown
  }

  lemma AppendedFound(segments: seq<Segment>, x: Segment, epoch: nat)
    requires SegmentOf(segments, epoch) < |segments|
    ensures SegmentOf(segments + [x], epoch) == SegmentOf(segments, epoch)
  {
    var r, i := segments + [x], SegmentOf(segments, epoch);
    assert r[i].epoch == epoch;
    assert forall j :: 0 <= j < i ==> r[j] == segments[j];
  }

  lemma AppendedLookup(segments: seq<Segment>, x: Segment)
    requires x.epoch !in Epochs(segments)
    ensures SegmentOf(segments + [x], x.epoch) == |segments|
    ensures forall epoch <- Epochs(segments) ::
              SegmentOf(segments + [x], epoch) == SegmentOf(segments, epoch) < |segments|
    ensures Epochs(segments + [x]) == Epochs(segments) + [x.epoch]
  {
    AppendedLast(segments, x);
    forall epoch <- Epochs(segments) ensures SegmentOf(segments + [x], epoch) == SegmentOf(segments, epoch) < |segments| {
      SegmentMissing(segments, epoch);
      AppendedFound(segments, x, epoch);
    }
  }

  lemma AppendedLast(segments: seq<Segment>, x: Segment)
    requires x.epoch !in Epochs(segments)
    ensures SegmentOf(segments + [x], x.epoch) == |segments| && Epochs(segments + [x]) == Epochs(segments) + [x.epoch]
  {
    forall i | 0 <= i < |segments| ensures segments[i].epoch != x.epoch {
      assert Epochs(segments)[i] == segments[i].epoch;
    }
    FirstIs(segments + [x], x.epoch, |segments|);
    EpochsSnoc(segments, x);
  }

  lemma EpochsSnoc(segments: seq<Segment>, x: Segment)
    ensures Epochs(segments + [x]) == Epochs(segments) + [x.epoch]
  {
  }

  lemma FirstIs(segments: seq<Segment>, epoch: nat, k: nat)
    requires k < |segments| && segments[k].epoch == epoch && forall i :: 0 <= i < k ==> segments[i].epoch != epoch
    ensures SegmentOf(segments, epoch) == k
  {
  }

  lemma SealingAligned(doc: Doc, x: Segment, d: DocId)
    requires Shape(doc, d) && Sealable(doc, x, d)
    ensures Aligned(Sealing(doc, x)) && x.epoch !in Epochs(doc.segments)
    ensures Below(Sealing(doc, x), x.epoch + 1)
  {
    assert forall e <- Epochs(doc.segments) :: e < x.epoch;
    AppendedLookup(doc.segments, x);
    SealsAppend(doc.queue, Seal(x.epoch));
    var r, was := Sealing(doc, x), Epochs(doc.segments);
    assert Epochs(r.segments) == was + [x.epoch];
    forall i, j | 0 <= i < j < |was| + 1 ensures Epochs(r.segments)[i] < Epochs(r.segments)[j] {
      assert was[i] in was;
    }
  }

  lemma SealingShape(doc: Doc, x: Segment, d: DocId)
    requires Shape(doc, d) && Sealable(doc, x, d)
    ensures Shape(Sealing(doc, x), d)
  {
    hide SegmentOk, AllFit, ViewAfter;
    var r := Sealing(doc, x);
    SealingAligned(doc, x, d);
    AppendedLookup(doc.segments, x);
    SealedMembers(doc.pieces);
    forall p <- r.pieces | p.Sealed?
      ensures var i := SegmentOf(r.segments, p.epoch); i < |r.segments| && r.segments[i].shown == p.text
    {
      SegmentMissing(doc.segments, p.epoch);
    }
    SealingFits(doc, x, d);
    ViewAppend(doc.queue, Seal(x.epoch), doc.view);
  }

  lemma SealingFits(doc: Doc, x: Segment, d: DocId)
    requires Shape(doc, d) && Sealable(doc, x, d) && x.epoch !in Epochs(doc.segments)
    ensures AllFit(Sealing(doc, x).queue, doc.view, Sealing(doc, x).segments)
  {
    var segments := doc.segments + [x];
    AppendedLookup(doc.segments, x);
    forall epoch <- SealsOf(doc.queue)
      ensures var i, j := SegmentOf(doc.segments, epoch), SegmentOf(segments, epoch);
              i < |doc.segments| ==> j < |segments| && segments[j].shown == doc.segments[i].shown
    {
      SegmentMissing(doc.segments, epoch);
    }
    FitFrame(doc.queue, doc.view, doc.segments, segments);
    QueueAppend(doc.queue, Seal(x.epoch), doc.view, segments);
  }

  // The seal and its intent change the future text alike.
  lemma SealingKeeps(doc: Doc, x: Segment, d: DocId)
    requires DocInv(doc, d) && Sealable(doc, x, d)
    ensures DocInv(Sealing(doc, x), d)
  {
    var r := Sealing(doc, x);
    SealingShape(doc, x, d);
    SealingAligned(doc, x, d);
    AppendedLookup(doc.segments, x);
    SealedMembers(doc.pieces);
    forall f: map<nat, string> | Agrees(f, r.written) ensures FutureText(r, f) == Replay(r.initial, r.intents, f) {
      forall epoch <- SealedEpochs(doc.pieces) ensures ErasedOf(doc.segments, epoch) == ErasedOf(r.segments, epoch) {
        SegmentMissing(doc.segments, epoch);
      }
      TargetFrame("", doc.pieces, doc.segments, r.segments, f);
      TextAppend(doc.queue, Seal(x.epoch), doc.view, TargetOn("", doc.pieces, r.segments, f), f);
      ReplayAppend(doc.initial, doc.intents, TypedSealed(x.epoch, x.origin), f);
      assert FutureText(doc, f) == Replay(doc.initial, doc.intents, f);
    }
  }

  lemma SealingWrites(doc: Doc, x: Segment)
    requires WritesQueued(doc) && !x.inDocument
    ensures WritesQueued(Sealing(doc, x))
  {
    var r := Sealing(doc, x);
    if i :| 0 <= i < |r.segments| && Writable(r.segments[i], i > 0) {
      assert Writable(doc.segments[i], i > 0);
    }
  }

  // ---- the state, its seal still to be queued ------------------------------------------------

  // The state as it is once the seal of the epoch is queued in d.
  function Promised(s: State, d: DocId, epoch: nat): State
    requires d in s.docs
  {
    WithDoc(s, d, Enqueue(s.docs[d], Seal(epoch)))
  }

  // The composition c of document d has become segment x.
  predicate Added(s: State, r: State, x: Segment)
    requires s.comp.Some? && s.comp.value.document in s.docs
  {
    var c, d := s.comp.value, s.comp.value.document;
    && r == s.(comp := None, docs := s.docs[d := s.docs[d].(segments := s.docs[d].segments + [x],
                                                            intents := s.docs[d].intents + [TypedSealed(c.epoch, c.buffer)])],
               conversions := r.conversions)
    && x.epoch == c.epoch && x.origin == c.buffer && SegmentOk(x, d) && !x.inDocument && x.shown == ToText(c.buffer)
    && TrackerGrows(s.conversions, r.conversions, c.epoch)
    && (Assured(x, r.conversions, d) || (c.preceding.None? && x.stage.WaitingForContext?))
  }

  lemma PromisedIs(s: State, r: State, x: Segment)
    requires s.comp.Some? && s.comp.value.document in s.docs && Added(s, r, x)
    ensures var c, d := s.comp.value, s.comp.value.document;
            Promised(r, d, c.epoch) ==
              s.(comp := None, docs := s.docs[d := Sealing(s.docs[d], x)], conversions := r.conversions)
  {
  }

  lemma AddedMoves(s: State, r: State, x: Segment)
    requires Behindhand(s) && Added(s, r, x) && TrackerOk(r)
    ensures Moving(Promised(r, s.comp.value.document, s.comp.value.epoch))
  {
    var c, d := s.comp.value, s.comp.value.document;
    var p := Promised(r, d, c.epoch);
    var doc, after := s.docs[d], p.docs[d];
    LiveElsewhere(s);
    assert forall e <- doc.queue :: e in after.queue;
    forall y <- after.segments ensures MovesOn(y, after.queue, p.conversions, d) {
      if y in doc.segments {
        assert MovesOn(y, after.queue, s.conversions, d);
        GrowthMoves(y, after.queue, s.conversions, r.conversions, c.epoch, d);
      } else {
        assert y == x && DocOk(s, d);
      }
    }
    OthersMove(s, p, d, c.epoch);
  }

  lemma AddedKeeps(s: State, r: State, x: Segment)
    requires Behindhand(s) && TextShown(s) && Added(s, r, x) && TrackerOk(r)
    ensures Safe(Promised(r, s.comp.value.document, s.comp.value.epoch))
  {
    var c, d := s.comp.value, s.comp.value.document;
    assert DocOk(s, d);
    PromisedIs(s, r, x);
    SealingOk(s.docs[d], x, d);
    CompositionEnds(s, Promised(r, d, c.epoch), d);
    AddedMoves(s, r, x);
  }

  lemma SealingOk(doc: Doc, x: Segment, d: DocId)
    requires DocInv(doc, d) && WritesQueued(doc) && Sealable(doc, x, d)
    ensures var after := Sealing(doc, x);
            && DocInv(after, d) && WritesQueued(after) && ViewAfter(after.queue, after.view) == Idle(x.epoch + 1)
            && Epochs(after.segments) == Epochs(doc.segments) + [x.epoch]
  {
    SealingKeeps(doc, x, d);
    SealingWrites(doc, x);
    SealingAligned(doc, x, d);
    AppendedLookup(doc.segments, x);
    ViewAppend(doc.queue, Seal(x.epoch), doc.view);
  }

  // ---- edits granted before the seal is queued --------------------------------------------------

  function Requeued(s: State, d: DocId, queue: seq<Edit>): State
    requires d in s.docs
  {
    WithDoc(s, d, s.docs[d].(queue := queue))
  }

  // What an edit queues.
  function Tail(s: State, d: DocId, e: Edit): seq<Edit>
    requires d in s.docs
  {
    BodyQueue(s, d, e);
    RunEditBody(s, d, e).docs[d].queue[|s.docs[d].queue|..]
  }

  lemma {:induction false} WriteFromRequeued(doc: Doc, i: nat, earlierWaiting: bool, queue: seq<Edit>)
    requires i <= |doc.segments|
    ensures WriteFrom(doc.(queue := queue), i, earlierWaiting) == WriteFrom(doc, i, earlierWaiting).(queue := queue)
    decreases |doc.segments| - i
  {
    if i < |doc.segments| {
      if Writable(doc.segments[i], earlierWaiting) {
        WrittenRequeued(doc, i, queue);
        WriteFromRequeued(Written(doc, i), i, earlierWaiting, queue);
      } else {
        WriteFromRequeued(doc, i + 1, true, queue);
      }
    }
  }

  lemma WrittenRequeued(doc: Doc, i: nat, queue: seq<Edit>)
    requires i < |doc.segments|
    ensures Written(doc.(queue := queue), i) == Written(doc, i).(queue := queue) && |Written(doc, i).segments| == |doc.segments| - 1
  {
    hide WriteSegment;
    WriteCommutes(doc, doc.segments, queue, doc.segments[i]);
  }

  lemma ConvertRequeued(s: State, d: DocId, i: nat, queue: seq<Edit>)
    requires d in s.docs && i < |s.docs[d].segments|
    ensures d in ConvertSegment(s, d, i).docs
    ensures ConvertSegment(Requeued(s, d, queue), d, i) == Requeued(ConvertSegment(s, d, i), d, queue)
  {
    ConvertSegmentQueue(s, d, i);
  }

  lemma ContextRequeued(s: State, d: DocId, epoch: nat, preceding: string, queue: seq<Edit>)
    requires d in s.docs
    ensures QueuesAtMostWrite(s, SealedContextReady(s, d, epoch, preceding), d)
    ensures var r := SealedContextReady(s, d, epoch, preceding);
            SealedContextReady(Requeued(s, d, queue), d, epoch, preceding) ==
              Requeued(r, d, queue + r.docs[d].queue[|s.docs[d].queue|..])
  {
    var i := SegmentOf(s.docs[d].segments, epoch);
    var q := Requeued(s, d, queue);
    SealedContextIs(s, d, epoch, preceding);
    SealedContextIs(q, d, epoch, preceding);
    if i < |s.docs[d].segments| && s.docs[d].segments[i].stage.WaitingForContext? {
      var known := Known(s, d, i, preceding);
      ConvertSegmentQueue(known, d, i);
      ConvertRequeued(known, d, i, queue);
      assert Known(q, d, i, preceding) == Requeued(known, d, queue);
      WriteRequeued(ConvertSegment(known, d, i), d, i, queue);
    } else {
      assert queue + s.docs[d].queue[|s.docs[d].queue|..] == queue;
    }
  }

  lemma WriteRequeued(s: State, d: DocId, i: nat, queue: seq<Edit>)
    requires d in s.docs && i < |s.docs[d].segments|
    ensures var r, q := WithDoc(s, d, WriteIfFinished(s.docs[d], i)), Requeued(s, d, queue);
            && QueuesAtMostWrite(s, r, d)
            && WithDoc(q, d, WriteIfFinished(q.docs[d], i)) == Requeued(r, d, queue + r.docs[d].queue[|s.docs[d].queue|..])
  {
    var was := s.docs[d].queue;
    assert was[|was|..] == [] && (was + [WriteFinished])[|was|..] == [WriteFinished] && queue + [] == queue;
  }

  // Running an edit of an ended composition does not depend on what is queued behind it.
  predicate Requeues(s: State, d: DocId, e: Edit, queue: seq<Edit>)
    requires d in s.docs
  {
    BodyQueue(s, d, e);
    RunEditBody(Requeued(s, d, queue), d, e) == Requeued(RunEditBody(s, d, e), d, queue + Tail(s, d, e))
  }

  lemma ReadRequeues(s: State, d: DocId, e: Edit, queue: seq<Edit>)
    requires d in s.docs && s.comp.None? && e.ReadContext?
    ensures Requeues(s, d, e, queue)
  {
    var read := WithDoc(s, d, HostReads(s.docs[d], e.epoch));
    var preceding := ContextBefore(s.docs[d]);
    var q := Requeued(s, d, queue);
    assert ContextBefore(q.docs[d]) == preceding;
    assert RunEditBody(q, d, e) == SealedContextReady(Requeued(read, d, queue), d, e.epoch, preceding) by {
      assert WithDoc(q, d, HostReads(q.docs[d], e.epoch)) == Requeued(read, d, queue);
    }
    ContextRequeued(read, d, e.epoch, preceding, queue);
  }

  lemma ApplyRequeues(s: State, d: DocId, e: Edit, queue: seq<Edit>)
    requires d in s.docs && s.comp.None? && e.ApplyResult?
    ensures Requeues(s, d, e, queue)
  {
    var was := s.docs[d].queue;
    assert was[|was|..] == [] && (was + [WriteFinished])[|was|..] == [WriteFinished];
    assert queue + [] == queue;
  }

  // What the document becomes does not depend on its queue, which may grow by a write.
  predicate DocRequeues(doc: Doc, r: Doc, q: Doc, queue: seq<Edit>) {
    || (r.queue == doc.queue && q == r.(queue := queue))
    || (r.queue == doc.queue + [WriteFinished] && q == r.(queue := queue + [WriteFinished]))
  }

  lemma SealRequeued(doc: Doc, epoch: nat, queue: seq<Edit>)
    ensures DocRequeues(doc, Placed(HostSeals(doc, epoch), epoch), Placed(HostSeals(doc.(queue := queue), epoch), epoch), queue)
  {
    assert HostSeals(doc.(queue := queue), epoch) == HostSeals(doc, epoch).(queue := queue);
  }

  lemma EraseRequeued(doc: Doc, queue: seq<Edit>)
    ensures DocRequeues(doc, EraseInOrder(doc), EraseInOrder(doc.(queue := queue)), queue)
  {
    assert NewestAtCaret(doc.(queue := queue)) == NewestAtCaret(doc);
  }

  lemma DocRequeuesTail(doc: Doc, r: Doc, q: Doc, queue: seq<Edit>)
    requires DocRequeues(doc, r, q, queue)
    ensures q == r.(queue := queue + r.queue[|doc.queue|..])
  {
    assert doc.queue[|doc.queue|..] == [] && (doc.queue + [WriteFinished])[|doc.queue|..] == [WriteFinished];
    assert queue + [] == queue;
  }

  lemma PlaceRequeues(s: State, d: DocId, e: Edit, queue: seq<Edit>)
    requires d in s.docs && s.comp.None? && (e.Seal? || e.Backspace?)
    ensures Requeues(s, d, e, queue)
  {
    var doc, r, q := s.docs[d], RunEditBody(s, d, e), RunEditBody(Requeued(s, d, queue), d, e);
    if e.Seal? {
      SealRequeued(doc, e.epoch, queue);
    } else {
      EraseRequeued(doc, queue);
    }
    DocRequeuesTail(doc, r.docs[d], q.docs[d], queue);
  }

  lemma BodyRequeues(s: State, d: DocId, e: Edit, queue: seq<Edit>)
    requires d in s.docs && s.comp.None?
    ensures Requeues(s, d, e, queue)
  {
    if e.ReadContext? {
      ReadRequeues(s, d, e, queue);
    } else if e.ApplyResult? {
      ApplyRequeues(s, d, e, queue);
    } else if e.Seal? || e.Backspace? {
      PlaceRequeues(s, d, e, queue);
    } else {
      var was := s.docs[d].queue;
      if e.WriteFinished? {
        WriteFromQueue(s.docs[d], 0, false);
        WriteFromRequeued(s.docs[d], 0, false, queue);
      }
      assert was[|was|..] == [] && queue + [] == queue;
    }
  }

  // ---- a write and a seal may change places --------------------------------------------------

  function SealLast(queue: seq<Edit>, epoch: nat): seq<Edit> {
    queue + [WriteFinished] + [Seal(epoch)]
  }

  function WriteLast(queue: seq<Edit>, epoch: nat): seq<Edit> {
    queue + [Seal(epoch)] + [WriteFinished]
  }

  lemma SwapQueue(queue: seq<Edit>, epoch: nat, v: View, segments: seq<Segment>)
    ensures ViewAfter(SealLast(queue, epoch), v) == ViewAfter(WriteLast(queue, epoch), v)
    ensures SealsOf(SealLast(queue, epoch)) == SealsOf(WriteLast(queue, epoch))
    ensures AllFit(SealLast(queue, epoch), v, segments) <==> AllFit(WriteLast(queue, epoch), v, segments)
  {
    QueueAppend(queue, WriteFinished, v, segments);
    QueueAppend(queue + [WriteFinished], Seal(epoch), v, segments);
    QueueAppend(queue, Seal(epoch), v, segments);
    QueueAppend(queue + [Seal(epoch)], WriteFinished, v, segments);
    SealsAppend(queue, WriteFinished);
    SealsAppend(queue + [WriteFinished], Seal(epoch));
    SealsAppend(queue, Seal(epoch));
    SealsAppend(queue + [Seal(epoch)], WriteFinished);
  }

  lemma SwapText(queue: seq<Edit>, epoch: nat, v: View, text: string, f: map<nat, string>)
    ensures TextAfter(SealLast(queue, epoch), v, text, f) == TextAfter(WriteLast(queue, epoch), v, text, f)
  {
    TextAppend(queue, WriteFinished, v, text, f);
    TextAppend(queue + [WriteFinished], Seal(epoch), v, text, f);
    TextAppend(queue, Seal(epoch), v, text, f);
    TextAppend(queue + [Seal(epoch)], WriteFinished, v, text, f);
  }

  lemma SwapDoc(doc: Doc, d: DocId, queue: seq<Edit>, epoch: nat)
    requires doc.queue == WriteLast(queue, epoch) && DocInv(doc, d)
    ensures DocInv(doc.(queue := SealLast(queue, epoch)), d)
  {
    var r := doc.(queue := SealLast(queue, epoch));
    SwapQueue(queue, epoch, doc.view, doc.segments);
    forall f: map<nat, string> | Agrees(f, r.written) ensures FutureText(r, f) == Replay(r.initial, r.intents, f) {
      SwapText(queue, epoch, doc.view, TargetOn("", doc.pieces, doc.segments, f), f);
      assert FutureText(doc, f) == Replay(doc.initial, doc.intents, f);
    }
  }

  lemma SwapKeeps(s: State, d: DocId, queue: seq<Edit>, epoch: nat)
    requires d in s.docs && Base(s) && Moving(s) && s.comp.None? && s.docs[d].queue == WriteLast(queue, epoch)
    ensures Safe(Requeued(s, d, SealLast(queue, epoch)))
  {
    var doc, r := s.docs[d], Requeued(s, d, SealLast(queue, epoch));
    assert DocOk(s, d);
    SwapDoc(doc, d, queue, epoch);
    SwapQueue(queue, epoch, doc.view, doc.segments);
    assert forall e <- doc.queue :: e in r.docs[d].queue;
    CompUntouched(s, r);
    Assembled(s, r, d);
    QueueMoves(s, r, d);
  }

  // What is granted before the seal is queued keeps the state as it is going to be.
  lemma {:induction false} DrainPromised(s: State, d: DocId, epoch: nat)
    requires d in s.docs && s.comp.None? && Safe(Promised(s, d, epoch))
    ensures d in Drain(s, d).docs && Drain(s, d).comp.None? && Safe(Promised(Drain(s, d), d, epoch))
    ensures Drain(s, d).conversions.dropped == s.conversions.dropped
    decreases Weight(s.docs[d].queue)
  {
    if s.docs[d].queue != [] {
      RunFrontQueue(s, d);
      PromisedRuns(s, d, epoch);
      DrainPromised(RunFront(s, d), d, epoch);
    }
  }

  lemma PoppedPromise(s: State, d: DocId, epoch: nat)
    requires d in s.docs && s.docs[d].queue != []
    ensures var p := Promised(s, d, epoch);
            && p.docs[d].queue != [] && p.docs[d].queue[0] == s.docs[d].queue[0]
            && Popped(p, d) == Requeued(Popped(s, d), d, s.docs[d].queue[1..] + [Seal(epoch)])
  {
    var p := Promised(s, d, epoch);
    assert p.docs[d].queue[1..] == s.docs[d].queue[1..] + [Seal(epoch)];
  }

  // The same front edit, with the seal behind the rest or not.
  lemma PromisedFront(s: State, d: DocId, epoch: nat) returns (tail: seq<Edit>)
    requires d in s.docs && s.comp.None? && s.docs[d].queue != []
    ensures tail == [] || tail == [WriteFinished]
    ensures var p, r, rest := Promised(s, d, epoch), RunFront(s, d), s.docs[d].queue[1..];
            && d in r.docs && p.docs[d].queue != [] && r.docs[d].queue == rest + tail
            && RunFront(p, d) == Requeued(r, d, rest + [Seal(epoch)] + tail)
  {
    var popped, e, rest := Popped(s, d), s.docs[d].queue[0], s.docs[d].queue[1..];
    PoppedPromise(s, d, epoch);
    BodyQueue(popped, d, e);
    BodyRequeues(popped, d, e, rest + [Seal(epoch)]);
    tail := Tail(popped, d, e);
    assert rest + tail == RunFront(s, d).docs[d].queue;
  }

  lemma NoComposition(s: State, d: DocId)
    requires d in s.docs && s.comp.None? && s.docs[d].queue != []
    ensures RunFront(s, d).comp.None?
  {
    var e := s.docs[d].queue[0];
    if e.ReadContext? {
      SealedReadIs(s, d);
      NoCompositionReads(WithDoc(s, d, HostReads(Rest(s.docs[d]), e.epoch)), d, e.epoch, ContextBefore(Rest(s.docs[d])));
    } else if e.ApplyResult? {
      SealedApplyIs(s, d);
    }
  }

  lemma NoCompositionReads(s: State, d: DocId, epoch: nat, preceding: string)
    requires d in s.docs
    ensures SealedContextReady(s, d, epoch, preceding).comp == s.comp
  {
    SealedContextIs(s, d, epoch, preceding);
  }

  // With the seal moved behind what the edit queued.
  lemma PromisedSwaps(r: State, p: State, d: DocId, epoch: nat, rest: seq<Edit>, tail: seq<Edit>)
    requires d in r.docs && r.docs[d].queue == rest + tail && (tail == [] || tail == [WriteFinished])
    requires p == Requeued(r, d, rest + [Seal(epoch)] + tail)
    ensures tail == [] ==> Promised(r, d, epoch) == p
    ensures tail != [] ==> p.docs[d].queue == WriteLast(rest, epoch) && Promised(r, d, epoch) == Requeued(p, d, SealLast(rest, epoch))
  {
    if tail == [] {
      assert rest + [Seal(epoch)] + [] == rest + [] + [Seal(epoch)];
    }
  }

  lemma PromisedRuns(s: State, d: DocId, epoch: nat)
    requires d in s.docs && s.comp.None? && s.docs[d].queue != [] && Safe(Promised(s, d, epoch))
    ensures var r := RunFront(s, d);
            d in r.docs && r.comp.None? && Safe(Promised(r, d, epoch)) && r.conversions.dropped == s.conversions.dropped
  {
    var p, r, rest := Promised(s, d, epoch), RunFront(s, d), s.docs[d].queue[1..];
    var tail := PromisedFront(s, d, epoch);
    NoComposition(s, d);
    PromisedSwaps(r, RunFront(p, d), d, epoch, rest, tail);
    PromisedStep(p, d);
    if tail != [] {
      SwapKeeps(RunFront(p, d), d, rest, epoch);
    }
  }

  lemma PromisedStep(p: State, d: DocId)
    requires d in p.docs && p.docs[d].queue != [] && p.comp.None? && Safe(p)
    ensures Safe(RunFront(p, d)) && RunFront(p, d).comp.None? && RunFront(p, d).conversions.dropped == p.conversions.dropped
  {
    RunFrontKeeps(p, d);
    RunFrontMoves(p, d);
    NoComposition(p, d);
  }

  // ---- sealing -----------------------------------------------------------------------------------

  // A write may be queued at any time.
  lemma WriteQueued(s: State, d: DocId)
    requires Safe(s) && d in s.docs
    ensures Safe(WithDoc(s, d, Enqueue(s.docs[d], WriteFinished)))
  {
    var doc := s.docs[d];
    var after := Enqueue(doc, WriteFinished);
    var r := WithDoc(s, d, after);
    assert DocOk(s, d) && UpToDate(doc, LiveOf(s, d));
    EnqueueKeeps(doc, d, WriteFinished);
    AlikeEnds(doc, after, LiveOf(s, d), Limit(s));
    ViewAppend(doc.queue, WriteFinished, doc.view);
    assert after.queue[|doc.queue|] == WriteFinished;
    assert forall e <- doc.queue :: e in after.queue;
    CompUntouched(s, r);
    Assembled(s, r, d);
    QueueMoves(s, r, d);
  }

  function Sealed0(c: Composition): Segment {
    NewSegment(c.epoch, c.document, c.buffer, c.preceding)
  }

  // The composition gone, segment x added.
  function WithSegment(s: State, x: Segment): State
    requires s.comp.Some? && s.comp.value.document in s.docs
  {
    var d := s.comp.value.document;
    var doc := s.docs[d];
    s.(comp := None, docs := s.docs[d := doc.(segments := doc.segments + [x], intents := doc.intents + [TypedSealed(s.comp.value.epoch, s.comp.value.buffer)])])
  }

  lemma AddSegmentIs(s: State, inFlight: Option<nat>)
    requires s.comp.Some? && s.comp.value.document in s.docs
    ensures var c, d := s.comp.value, s.comp.value.document;
            var x, n := Sealed0(c), |s.docs[d].segments|;
            AddSegment(Intend(s.(comp := None), d, TypedSealed(c.epoch, c.buffer)), c, inFlight) ==
              if inFlight.Some? then WithSegment(s, x.(stage := Converting(inFlight.value)))
              else if c.preceding.Some? then ConvertSegment(WithSegment(s, x), d, n)
              else WithSegment(s, x)
  {
    var c, d := s.comp.value, s.comp.value.document;
    var doc := s.docs[d].(intents := s.docs[d].intents + [TypedSealed(c.epoch, c.buffer)]);
    var x := Sealed0(c);
    WithDocTwice(s, d, doc, doc.(segments := doc.segments + [x]));
    if inFlight.Some? {
      var y := x.(stage := Converting(inFlight.value));
      SetLast(doc.segments, x, y);
      WithDocTwice(s, d, doc.(segments := doc.segments + [x]), doc.(segments := doc.segments + [y]));
      WithDocTwice(s, d, doc, doc.(segments := doc.segments + [y]));
    }
  }

  // The segment the composition becomes, and what becomes of it.
  lemma AddSegmentAdds(s: State, inFlight: Option<nat>) returns (x: Segment)
    requires TrackerOk(s) && CompOk(s) && s.comp.Some? && !HasUncomposedReading(s.comp.value.buffer.entries)
    requires inFlight.Some? ==>
               s.comp.value.sent.Some? && s.comp.value.sent.value.sequence == inFlight.value && inFlight.value in s.conversions.pending
    ensures var c := s.comp.value;
            var r := AddSegment(Intend(s.(comp := None), c.document, TypedSealed(c.epoch, c.buffer)), c, inFlight);
            Added(s, r, x) && TrackerOk(r)
  {
    var c, d := s.comp.value, s.comp.value.document;
    AddSegmentIs(s, inFlight);
    x := Sealed0(c);
    assert SegmentOk(x, d);
    if inFlight.Some? {
      x := x.(stage := Converting(inFlight.value));
    } else if x.preceding.Some? {
      x := SegmentAsks(s);
    }
  }

  lemma SegmentAsks(s: State) returns (x: Segment)
    requires TrackerOk(s) && CompOk(s) && s.comp.Some? && !HasUncomposedReading(s.comp.value.buffer.entries)
    ensures var c := s.comp.value;
            var r := ConvertSegment(WithSegment(s, Sealed0(c)), c.document, |s.docs[c.document].segments|);
            Added(s, r, x) && TrackerOk(r)
  {
    hide ConvertSegment;
    var c, d := s.comp.value, s.comp.value.document;
    var doc := s.docs[d];
    var was := WithSegment(s, Sealed0(c));
    x := AddedAsks(was, d, |doc.segments|);
    assert was.docs[d].segments[..|doc.segments|] == doc.segments;
    var before := doc.(intents := doc.intents + [TypedSealed(c.epoch, c.buffer)]);
    WithDocTwice(s, d, before.(segments := doc.segments + [Sealed0(c)]), before.(segments := doc.segments + [x]));
  }

  lemma SetLast(segments: seq<Segment>, x: Segment, y: Segment)
    ensures (segments + [x])[|segments| := y] == segments + [y]
  {
  }

  lemma AddedAsks(s: State, d: DocId, n: nat) returns (x: Segment)
    requires d in s.docs && n + 1 == |s.docs[d].segments| && TrackerOk(s)
    requires SegmentOk(s.docs[d].segments[n], d) && s.docs[d].segments[n].epoch < s.nextEpoch
    ensures var r := ConvertSegment(s, d, n);
            && r == s.(docs := s.docs[d := s.docs[d].(segments := s.docs[d].segments[..n] + [x])], conversions := r.conversions)
            && SameText(s.docs[d].segments[n], x) && x.origin == s.docs[d].segments[n].origin && SegmentOk(x, d) && Assured(x, r.conversions, d) && TrackerOk(r)
            && TrackerGrows(s.conversions, r.conversions, x.epoch)
  {
    AskedIs(s, d, n);
    ConvertKeeps(s, d, n);
    x := ConvertSegment(s, d, n).docs[d].segments[n];
    assert s.docs[d].segments == s.docs[d].segments[..n] + [s.docs[d].segments[n]];
    SetLast(s.docs[d].segments[..n], s.docs[d].segments[n], x);
  }

  function FrozenComp(s: State): Composition
    requires s.comp.Some?
  {
    s.comp.value.(buffer := FreezeReadings(s.comp.value.buffer))
  }

  // Spelling out the unfinished readings changes nothing that is shown.
  lemma FrozenState(s: State)
    requires Safe(s) && s.comp.Some? && s.comp.value.buffer.entries != []
    ensures var r := WithComp(s, FrozenComp(s));
            Behindhand(r) && TextShown(r) && !HasUncomposedReading(r.comp.value.buffer.entries)
  {
    var d, c, r := s.comp.value.document, s.comp.value, WithComp(s, FrozenComp(s));
    FreezeKeeps(c.buffer);
    FreezePreserves(c.buffer);
    FrozenComposed(c.buffer.entries, c.buffer.nextId);
    CompEvolves(s, r, d);
    forall x <- r.docs ensures DocOk(r, x) && (x != d ==> UpToDate(r.docs[x], LiveOf(r, x))) {
      assert DocOk(s, x) && UpToDate(s.docs[x], LiveOf(s, x));
    }
  }

  // The steps of sealing behind the commit of a settled composition.
  function SealSteps(s: State, added: State, d: DocId, epoch: nat, g: Grants): State
    requires d in added.docs
  {
    var written := if EpochFinished(added.docs[d], epoch) then RunEdit(added, d, WriteFinished, g.first) else added;
    RunEdit(written, d, Seal(epoch), g.second)
  }

  lemma WritePromised(s: State, d: DocId, epoch: nat)
    requires d in s.docs && s.comp.None? && Safe(Promised(s, d, epoch))
    ensures Safe(Promised(WithDoc(s, d, Enqueue(s.docs[d], WriteFinished)), d, epoch))
  {
    hide Moving, TrackerOk, CompOk, EpochsApart, DocOk, UpToDate;
    var p, q := Promised(s, d, epoch), s.docs[d].queue;
    var w := WithDoc(p, d, Enqueue(p.docs[d], WriteFinished));
    WriteQueued(p, d);
    assert w.docs[d].queue == WriteLast(q, epoch);
    SwapKeeps(w, d, q, epoch);
    PromisedSwaps(WithDoc(s, d, Enqueue(s.docs[d], WriteFinished)), w, d, epoch, q, [WriteFinished]);
  }

  lemma SealStepsKeep(s: State, added: State, d: DocId, epoch: nat, g: Grants)
    requires d in added.docs && added.comp.None? && Safe(Promised(added, d, epoch))
    ensures var r := SealSteps(s, added, d, epoch, g);
            Safe(r) && r.comp.None? && r.conversions.dropped == added.conversions.dropped
  {
    var written := added;
    if EpochFinished(added.docs[d], epoch) {
      var queued := WithDoc(added, d, Enqueue(added.docs[d], WriteFinished));
      WritePromised(added, d, epoch);
      if g.first {
        DrainPromised(queued, d, epoch);
      }
      written := if g.first then Drain(queued, d) else queued;
    }
    GrantKeeps(Promised(written, d, epoch), d, g.second);
  }

  lemma SealIsSteps(s: State, g: Grants)
    requires s.comp.Some? && s.comp.value.document in s.docs && !Settled(FrozenComp(s))
    ensures var c, d := FrozenComp(s), s.comp.value.document;
            var inFlight := InFlight(WithComp(s, c), HasUncomposedReading(s.comp.value.buffer.entries));
            var added := AddSegment(Intend(s.(comp := None), d, TypedSealed(c.epoch, c.buffer)), c, inFlight);
            d in added.docs && SealComposition(s, g) == SealSteps(s, added, d, c.epoch, g)
  {
    AddSegmentIs(WithComp(s, FrozenComp(s)), InFlight(WithComp(s, FrozenComp(s)), HasUncomposedReading(s.comp.value.buffer.entries)));
  }

  lemma SealKeeps(s: State, g: Grants)
    requires Safe(s) && (s.comp.Some? ==> s.comp.value.buffer.entries != [])
    ensures var r := SealComposition(s, g);
            Safe(r) && r.comp.None? && r.conversions.dropped == s.conversions.dropped
  {
    hide Inv, Moving, Promised, SealSteps, Drain, Sealable, AddSegment;
    if s.comp.Some? {
      var c, d := FrozenComp(s), s.comp.value.document;
      FrozenState(s);
      if Settled(c) {
        CommitKeeps(WithComp(s, c), g.first);
      } else {
        var inFlight := InFlight(WithComp(s, c), HasUncomposedReading(s.comp.value.buffer.entries));
        var x := AddSegmentAdds(WithComp(s, c), inFlight);
        var added := AddSegment(Intend(s.(comp := None), d, TypedSealed(c.epoch, c.buffer)), c, inFlight);
        AddedKeeps(WithComp(s, c), added, x);
        SealIsSteps(s, g);
        SealStepsKeep(s, added, d, c.epoch, g);
      }
    }
  }
}
