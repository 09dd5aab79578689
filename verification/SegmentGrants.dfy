/** Edits that concern sealed segments keep the invariant. */
module SegmentGrants {
  import opened Wrappers
  import opened Bopomofo
  import opened Buffers
  import opened BufferProofs
  import opened CandidateLocks
  import opened Conversions
  import opened Documents
  import opened DocumentProofs
  import opened DocumentInv
  import opened DocumentSteps
  import opened Controller
  import opened ControllerInv
  import opened GrantProofs

  // ---- a segment changes ---------------------------------------------------------------

  // Segment i becomes x; a write is queued if asked for.
  function Touched(doc: Doc, i: nat, x: Segment, write: bool): Doc
    requires i < |doc.segments|
  {
    if write then Enqueue(SetSegment(doc, i, x), WriteFinished) else SetSegment(doc, i, x)
  }

  lemma TouchedWrites(doc: Doc, i: nat, x: Segment, write: bool)
    requires i < |doc.segments| && WritesQueued(doc)
    requires write || !x.stage.Finished? || (doc.segments[i].stage.Finished? && SameText(doc.segments[i], x) && x.buffer == doc.segments[i].buffer)
    ensures WritesQueued(Touched(doc, i, x, write))
  {
    var r := Touched(doc, i, x, write);
    if write {
      assert r.queue[|doc.queue|] == WriteFinished;
    } else {
      forall j | 0 <= j < |r.segments| && Writable(r.segments[j], j > 0) ensures Writable(doc.segments[j], j > 0) {
      }
    }
  }

  lemma TouchedKeeps(doc: Doc, d: DocId, i: nat, x: Segment, write: bool)
    requires DocInv(doc, d) && i < |doc.segments| && SegmentOk(x, d) && SameText(doc.segments[i], x)
    ensures DocInv(Touched(doc, i, x, write), d)
  {
    ChangeSegment(doc, d, i, x);
    if write {
      EnqueueKeeps(SetSegment(doc, i, x), d, WriteFinished);
    }
  }

  // A write queued last changes nothing of how the queue ends.
  predicate EndsAlike(a: Doc, b: Doc) {
    && b.view == a.view && b.calls == a.calls
    && (b.queue == a.queue || b.queue == a.queue + [WriteFinished])
  }

  lemma AlikeEnds(a: Doc, b: Doc, live: Option<Composition>, limit: nat)
    requires EndsAlike(a, b) && EndsIn(a, live, limit)
    ensures EndsIn(b, live, limit) && (Refreshing(a, live) ==> Refreshing(b, live)) && (CallsOk(a) ==> CallsOk(b))
  {
    QueueAppend(a.queue, WriteFinished, a.view, []);
    assert forall e <- a.queue :: e in b.queue;
  }

  // ---- the text before a sealed segment is known --------------------------------------------

  lemma FinishKeeps(s: Segment, d: DocId)
    requires SegmentOk(s, d)
    ensures SegmentOk(FinishSegment(s), d) && SameText(s, FinishSegment(s))
  {
    AcceptLocalKeeps(s.buffer);
  }

  // What becomes of a segment whose conversion is asked for.
  predicate Asked(s: State, r: State, d: DocId, i: nat)
    requires d in s.docs && i < |s.docs[d].segments|
  {
    && d in r.docs && i < |r.docs[d].segments|
    && var was, now := s.docs[d].segments[i], r.docs[d].segments[i];
    && r == WithDoc(s, d, SetSegment(s.docs[d], i, now)).(conversions := r.conversions)
    && SameText(was, now) && now.origin == was.origin && now.preceding == was.preceding && !now.stage.WaitingForContext?
    && TrackerGrows(s.conversions, r.conversions, was.epoch) && Assured(now, r.conversions, d)
  }

  // Final, or its newest conversion is pending.
  predicate Assured(x: Segment, t: Tracker, d: DocId) {
    match x.stage
    case WaitingForContext => false
    case Converting(awaited) =>
      && x.epoch in t.newest && t.newest[x.epoch] == awaited
      && awaited in t.pending && t.pending[awaited].epoch == x.epoch && t.pending[awaited].document == d
    case Finished => true
  }

  lemma ConvertKeeps(s: State, d: DocId, i: nat)
    requires d in s.docs && i < |s.docs[d].segments| && TrackerOk(s)
    requires SegmentOk(s.docs[d].segments[i], d) && s.docs[d].segments[i].epoch < s.nextEpoch
    ensures var r := ConvertSegment(s, d, i);
            && Asked(s, r, d, i) && SegmentOk(r.docs[d].segments[i], d) && TrackerOk(r)
  {
    var segment := s.docs[d].segments[i];
    var snapshot := ConversionSnapshot(segment.buffer);
    FinishKeeps(segment, d);
    if snapshot.Some? {
      SendGrows(s.conversions, Request(segment.epoch, snapshot.value.revision, d, snapshot.value.entries));
    }
  }

  // A change to segment i that leaves its text alone; becoming final gets a write queued.
  predicate MayTouch(a: Doc, i: nat, x: Segment, write: bool, d: DocId) {
    && i < |a.segments| && SegmentOk(x, d) && SameText(a.segments[i], x)
    && (write || !x.stage.Finished? || (a.segments[i].stage.Finished? && x.buffer == a.segments[i].buffer))
  }

  lemma TouchKeeps(a: Doc, i: nat, x: Segment, write: bool, d: DocId)
    requires DocInv(a, d) && WritesQueued(a) && MayTouch(a, i, x, write, d)
    ensures var b := Touched(a, i, x, write);
            DocInv(b, d) && WritesQueued(b) && EndsAlike(a, b) && Epochs(b.segments) == Epochs(a.segments)
  {
    TouchedKeeps(a, d, i, x, write);
    TouchedWrites(a, i, x, write);
    ReplacedSegment(a.segments, i, x);
  }

  lemma AskedIs(s: State, d: DocId, i: nat)
    requires d in s.docs && i < |s.docs[d].segments| && TrackerOk(s)
    requires SegmentOk(s.docs[d].segments[i], d) && s.docs[d].segments[i].epoch < s.nextEpoch
    ensures var asked := ConvertSegment(s, d, i);
            && Asked(s, asked, d, i) && TrackerOk(asked)
            && var x := asked.docs[d].segments[i];
            && MayTouch(s.docs[d], i, x, x.stage.Finished?, d) && Assured(x, asked.conversions, d)
            && WriteIfFinished(asked.docs[d], i) == Touched(s.docs[d], i, x, x.stage.Finished?)
  {
    ConvertKeeps(s, d, i);
  }

  lemma TouchTwice(doc: Doc, i: nat, x: Segment, y: Segment, write: bool)
    requires i < |doc.segments|
    ensures Touched(SetSegment(doc, i, x), i, y, write) == Touched(doc, i, y, write)
  {
    assert doc.segments[i := x][i := y] == doc.segments[i := y];
  }

  // The waiting segment i with the text before it known.
  function Known(s: State, d: DocId, i: nat, preceding: string): State
    requires d in s.docs && i < |s.docs[d].segments|
  {
    WithDoc(s, d, SetSegment(s.docs[d], i, s.docs[d].segments[i].(preceding := Some(preceding))))
  }

  lemma WaitingContext(s: State, d: DocId, i: nat, preceding: string) returns (x: Segment)
    requires d in s.docs && TrackerOk(s) && i < |s.docs[d].segments|
    requires SegmentOk(s.docs[d].segments[i], d) && s.docs[d].segments[i].epoch < s.nextEpoch
    ensures var doc, asked := s.docs[d], ConvertSegment(Known(s, d, i, preceding), d, i);
            && TrackerOk(asked) && TrackerGrows(s.conversions, asked.conversions, doc.segments[i].epoch)
            && MayTouch(doc, i, x, x.stage.Finished?, d) && Assured(x, asked.conversions, d)
            && asked == WithDoc(s, d, SetSegment(doc, i, x)).(conversions := asked.conversions)
  {
    var known := Known(s, d, i, preceding);
    AskedIs(known, d, i);
    x := ConvertSegment(known, d, i).docs[d].segments[i];
    TouchTwice(s.docs[d], i, known.docs[d].segments[i], x, false);
  }

  lemma SealedContextIs(s: State, d: DocId, epoch: nat, preceding: string)
    requires d in s.docs
    ensures var doc, r := s.docs[d], SealedContextReady(s, d, epoch, preceding);
            var i := SegmentOf(doc.segments, epoch);
            if i == |doc.segments| then r == s
            else if !doc.segments[i].stage.WaitingForContext? then r == Known(s, d, i, preceding)
            else
              var asked := ConvertSegment(Known(s, d, i, preceding), d, i);
              d in asked.docs && i < |asked.docs[d].segments| && r == WithDoc(asked, d, WriteIfFinished(asked.docs[d], i))
  {
    var i := SegmentOf(s.docs[d].segments, epoch);
    if i < |s.docs[d].segments| {
      ConvertSegmentQueue(Known(s, d, i, preceding), d, i);
    }
  }

  // The text before a sealed segment has been read: it is touched, or is gone.
  lemma SealedContextKeeps(s: State, d: DocId, epoch: nat, preceding: string)
    returns (i: nat, x: Segment, write: bool)
    requires d in s.docs && TrackerOk(s)
    requires var i := SegmentOf(s.docs[d].segments, epoch);
             i < |s.docs[d].segments| ==> SegmentOk(s.docs[d].segments[i], d) && epoch < s.nextEpoch
    ensures i == SegmentOf(s.docs[d].segments, epoch)
    ensures var r := SealedContextReady(s, d, epoch, preceding);
            && TrackerOk(r) && TrackerGrows(s.conversions, r.conversions, epoch)
            && if i == |s.docs[d].segments| then r == s
               else MayTouch(s.docs[d], i, x, write, d)
                    && r == WithDoc(s, d, Touched(s.docs[d], i, x, write)).(conversions := r.conversions)
                    && (Assured(x, r.conversions, d) || (x.stage == s.docs[d].segments[i].stage && !x.stage.WaitingForContext? && r.conversions == s.conversions))
  {
    var doc := s.docs[d];
    SealedContextIs(s, d, epoch, preceding);
    i, write := SegmentOf(doc.segments, epoch), false;
    if i == |doc.segments| {
      x := NewSegment(epoch, d, EmptyBuffer(false), None);
    } else if doc.segments[i].stage.WaitingForContext? {
      x := WaitingContext(s, d, i, preceding);
      WithDocTwice(s, d, SetSegment(doc, i, x), Touched(doc, i, x, x.stage.Finished?));
      write := x.stage.Finished?;
    } else {
      x := doc.segments[i].(preceding := Some(preceding));
    }
  }

  lemma SealedReadIs(s: State, d: DocId)
    requires d in s.docs && s.docs[d].queue != [] && s.docs[d].queue[0].ReadContext?
    requires !LiveEpoch(s, s.docs[d].queue[0].epoch)
    ensures var epoch := s.docs[d].queue[0].epoch;
            RunFront(s, d) == SealedContextReady(WithDoc(s, d, HostReads(Rest(s.docs[d]), epoch)), d, epoch, ContextBefore(Rest(s.docs[d])))
  {
    var epoch, rest := s.docs[d].queue[0].epoch, Rest(s.docs[d]);
    WithDocTwice(s, d, rest, HostReads(rest, epoch));
  }

  lemma ReadingKeeps(doc: Doc, d: DocId)
    requires DocInv(doc, d) && CallsOk(doc) && WritesQueued(doc) && doc.queue != [] && doc.queue[0].ReadContext?
    ensures var r := HostReads(Rest(doc), doc.queue[0].epoch); DocInv(r, d) && CallsOk(r) && WritesQueued(r)
  {
    var r := HostReads(Rest(doc), doc.queue[0].epoch);
    PopKeeps(doc, d, r);
    CallsAppend(doc.calls, PrecedingText(doc.queue[0].epoch));
    RestWrites(doc, r);
  }

  // A segment of a document is one of a composition that has ended.
  lemma SegmentEpoch(s: State, d: DocId, i: nat)
    requires d in s.docs && DocInv(s.docs[d], d) && EndsIn(s.docs[d], LiveOf(s, d), Limit(s)) && CompOk(s)
    requires i < |s.docs[d].segments|
    ensures SegmentOk(s.docs[d].segments[i], d) && s.docs[d].segments[i].epoch < Limit(s) <= s.nextEpoch
  {
    assert Epochs(s.docs[d].segments)[i] == s.docs[d].segments[i].epoch;
    assert s.docs[d].segments[i].epoch in Epochs(s.docs[d].segments);
    assert s.docs[d].segments[i] in s.docs[d].segments;
  }

  lemma UntouchedByGrowth(s: State, r: State, epoch: nat)
    requires TrackerGrows(s.conversions, r.conversions, epoch) && s.comp.Some? && s.comp.value.epoch != epoch
    ensures EpochUntouched(s.conversions, r.conversions, s.comp.value.epoch)
  {
  }

  // d is where the change is; what the queue of d carries was there before.
  lemma CompKept(s: State, r: State, d: DocId, epoch: nat)
    requires CompOk(s) && TrackerOk(s) && OnlyDocument(s, r, d) && r.comp == s.comp
    requires TrackerGrows(s.conversions, r.conversions, epoch) && (s.comp.Some? ==> s.comp.value.epoch != epoch)
    requires NoNewResults(s.docs[d].queue, r.docs[d].queue)
    ensures CompOk(r)
  {
    if s.comp.Some? {
      UntouchedByGrowth(s, r, epoch);
      CompUntouched(s, r);
    }
  }

  // The document once it has been read for a composition that is sealed already.
  predicate AfterReading(doc: Doc, after: Doc)
    requires doc.queue != [] && doc.queue[0].ReadContext?
  {
    EndsAlike(HostReads(Rest(doc), doc.queue[0].epoch), after) && Epochs(after.segments) == Epochs(doc.segments)
  }

  lemma SealedReadChange(s: State, d: DocId) returns (after: Doc)
    requires d in s.docs && TrackerOk(s) && CompOk(s) && s.docs[d].queue != [] && DocOk(s, d)
    requires s.docs[d].queue[0].ReadContext? && !LiveEpoch(s, s.docs[d].queue[0].epoch)
    ensures var r := RunFront(s, d);
            && r == WithDoc(s, d, after).(conversions := r.conversions) && TrackerOk(r)
            && TrackerGrows(s.conversions, r.conversions, s.docs[d].queue[0].epoch)
    ensures AfterReading(s.docs[d], after) && DocInv(after, d) && WritesQueued(after)
  {
    var doc, epoch := s.docs[d], s.docs[d].queue[0].epoch;
    var rest := HostReads(Rest(doc), epoch);
    SealedReadIs(s, d);
    ReadingKeeps(doc, d);
    var at := SegmentOf(rest.segments, epoch);
    if at < |rest.segments| {
      SegmentEpoch(s, d, at);
    }
    var i, x, write := SealedContextKeeps(WithDoc(s, d, rest), d, epoch, ContextBefore(Rest(doc)));
    if i < |rest.segments| {
      TouchKeeps(rest, i, x, write, d);
      after := Touched(rest, i, x, write);
      WithDocTwice(s, d, rest, after);
    } else {
      after := rest;
    }
  }

  lemma SealedRead(s: State, d: DocId)
    requires d in s.docs && GrantInv(s, d) && s.docs[d].queue != []
    requires s.docs[d].queue[0].ReadContext? && !LiveEpoch(s, s.docs[d].queue[0].epoch)
    ensures GrantInv(RunFront(s, d), d) && SameComposition(s, RunFront(s, d), d)
    ensures TrackerGrows(s.conversions, RunFront(s, d).conversions, s.docs[d].queue[0].epoch)
  {
    var rest := HostReads(Rest(s.docs[d]), s.docs[d].queue[0].epoch);
    var after := SealedReadChange(s, d);
    ReadingKeeps(s.docs[d], d);
    RestEnds(s, d, rest);
    AlikeEnds(rest, after, LiveOf(s, d), Limit(s));
    SealedReadEnds(s, RunFront(s, d), d, rest, after);
  }

  lemma SealedReadEnds(s: State, r: State, d: DocId, rest: Doc, after: Doc)
    requires d in s.docs && GrantInv(s, d) && s.docs[d].queue != [] && s.docs[d].queue[0].ReadContext?
    requires !LiveEpoch(s, s.docs[d].queue[0].epoch)
    requires r == WithDoc(s, d, after).(conversions := r.conversions) && TrackerOk(r)
    requires TrackerGrows(s.conversions, r.conversions, s.docs[d].queue[0].epoch)
    requires rest.queue == s.docs[d].queue[1..] && EndsAlike(rest, after) && DocInv(after, d) && CallsOk(after)
    requires WritesQueued(after) && EndsIn(after, LiveOf(s, d), Limit(s)) && Refreshing(after, LiveOf(s, d))
    requires Epochs(after.segments) == Epochs(s.docs[d].segments)
    ensures GrantInv(r, d) && SameComposition(s, r, d)
  {
    RestHasNoNewResults(s.docs[d]);
    CompKept(s, r, d, s.docs[d].queue[0].epoch);
    LocalSuffices(s, r, d);
  }

  // ---- edits that change their document only -------------------------------------------------

  lemma DocOnly(s: State, d: DocId, after: Doc)
    requires d in s.docs && GrantInv(s, d)
    requires DocInv(after, d) && CallsOk(after) && WritesQueued(after)
    requires EndsIn(after, LiveOf(s, d), Limit(s)) && Refreshing(after, LiveOf(s, d))
    requires NoNewResults(s.docs[d].queue, after.queue)
    requires forall e <- Epochs(after.segments) :: e in Epochs(s.docs[d].segments)
    ensures GrantInv(WithDoc(s, d, after), d) && SameComposition(s, WithDoc(s, d, after), d)
  {
    var r := WithDoc(s, d, after);
    CompUntouched(s, r);
    LocalSuffices(s, r, d);
  }

  lemma ChangedWrites(doc: Doc, r: Doc, i: nat, x: Segment)
    requires i < |doc.segments| && WritesQueued(doc) && r.segments == doc.segments[i := x]
    requires (x.stage.Finished? || WriteFinished in doc.queue) ==> WriteFinished in r.queue
    ensures WritesQueued(r)
  {
    if WriteFinished !in r.queue {
      assert !SomeWritable(doc.segments);
      forall j | 0 <= j < |r.segments| ensures !Writable(r.segments[j], j > 0) {
        assert j != i ==> !Writable(doc.segments[j], j > 0);
      }
    }
  }

  // A result for a sealed segment refines it, and finishes it if awaited.
  lemma MergeSegmentKeeps(s: Segment, d: DocId, sequence: nat, requested: seq<Entry>, converted: seq<Output>)
    requires SegmentOk(s, d)
    ensures var x := MergeSegment(s, sequence, requested, converted); SegmentOk(x, d) && SameText(s, x)
  {
    MergeKeeps(s.buffer, sequence, requested, converted, None);
  }

  lemma MergeSealedKeeps(doc: Doc, d: DocId, epoch: nat, sequence: nat, requested: seq<Entry>, converted: seq<Output>)
    requires DocInv(doc, d) && WritesQueued(doc)
    ensures var merged := MergeSealed(doc, epoch, sequence, requested, converted);
            var r := if EpochFinished(merged, epoch) then Enqueue(merged, WriteFinished) else merged;
            && DocInv(r, d) && WritesQueued(r) && EndsAlike(doc, r) && Epochs(r.segments) == Epochs(doc.segments)
            && EpochFinished(r, epoch) == EpochFinished(merged, epoch)
  {
    var i := SegmentOf(doc.segments, epoch);
    if i < |doc.segments| {
      assert doc.segments[i] in doc.segments;
      MergeSegmentKeeps(doc.segments[i], d, sequence, requested, converted);
      var x := MergeSegment(doc.segments[i], sequence, requested, converted);
      TouchKeeps(doc, i, x, x.stage.Finished?, d);
      ReplacedSegment(doc.segments, i, x);
    }
  }

  lemma SealedApplyIs(s: State, d: DocId)
    requires d in s.docs && s.docs[d].queue != [] && s.docs[d].queue[0].ApplyResult?
    requires !LiveEpoch(s, s.docs[d].queue[0].request.epoch)
    ensures var e := s.docs[d].queue[0];
            var merged := MergeSealed(Rest(s.docs[d]), e.request.epoch, e.sequence, e.request.snapshot, e.converted);
            RunFront(s, d) == WithDoc(s, d, if EpochFinished(merged, e.request.epoch) then Enqueue(merged, WriteFinished) else merged)
  {
    var e := s.docs[d].queue[0];
    var merged := MergeSealed(Rest(s.docs[d]), e.request.epoch, e.sequence, e.request.snapshot, e.converted);
    WithDocTwice(s, d, Rest(s.docs[d]), merged);
    WithDocTwice(s, d, Rest(s.docs[d]), Enqueue(merged, WriteFinished));
  }

  lemma SealedApply(s: State, d: DocId)
    requires d in s.docs && GrantInv(s, d) && s.docs[d].queue != []
    requires s.docs[d].queue[0].ApplyResult? && !LiveEpoch(s, s.docs[d].queue[0].request.epoch)
    ensures GrantInv(RunFront(s, d), d) && SameComposition(s, RunFront(s, d), d)
  {
    var doc, e, rest := s.docs[d], s.docs[d].queue[0], Rest(s.docs[d]);
    SealedApplyIs(s, d);
    PopKeeps(doc, d, rest);
    RestWrites(doc, rest);
    RestEnds(s, d, rest);
    MergeSealedKeeps(rest, d, e.request.epoch, e.sequence, e.request.snapshot, e.converted);
    var after := RunFront(s, d).docs[d];
    AlikeEnds(rest, after, LiveOf(s, d), Limit(s));
    RestHasNoNewResults(doc);
    DocOnly(s, d, after);
  }

  // ---- sealing in the document ----------------------------------------------------------------------

  lemma SealedDoc(doc: Doc, d: DocId)
    requires DocInv(doc, d) && CallsOk(doc) && WritesQueued(doc) && doc.queue != [] && doc.queue[0].Seal?
    ensures var epoch := doc.queue[0].epoch;
            var h, r := HostSeals(Rest(doc), epoch), Placed(HostSeals(Rest(doc), epoch), epoch);
            && DocInv(r, d) && CallsOk(h) && WritesQueued(r) && EndsAlike(h, r)
            && Epochs(r.segments) == Epochs(doc.segments)
  {
    var epoch := doc.queue[0].epoch;
    var h, r := HostSeals(Rest(doc), epoch), Placed(HostSeals(Rest(doc), epoch), epoch);
    SealRuns(doc, d);
    NextSealed(doc, d);
    SealedCalls(doc);
    var n := SegmentOf(doc.segments, epoch);
    PlacedIs(h, epoch, n);
    ChangedWrites(doc, r, n, doc.segments[n].(inDocument := true));
    ReplacedSegment(doc.segments, n, doc.segments[n].(inDocument := true));
  }

  // What is sealed is what was rendered last.
  lemma SealedCalls(doc: Doc)
    requires CallsOk(doc) && doc.queue != [] && doc.queue[0].Seal? && Fits(doc.queue[0], doc.view, doc.segments)
    ensures CallsOk(HostSeals(Rest(doc), doc.queue[0].epoch))
  {
    var epoch := doc.queue[0].epoch;
    CallsAppend(doc.calls, SealedCall(epoch, SealedAs(Rest(doc), epoch)));
  }

  lemma PlacedIs(h: Doc, epoch: nat, n: nat)
    requires n == SegmentOf(h.segments, epoch) < |h.segments|
    ensures var r, placed := Placed(h, epoch), h.segments[n].(inDocument := true);
            && r.segments == h.segments[n := placed] && r.view == h.view && r.calls == h.calls
            && r.queue == if placed.stage.Finished? then h.queue + [WriteFinished] else h.queue
  {
  }

  lemma SealIs(s: State, d: DocId)
    requires d in s.docs && s.docs[d].queue != [] && s.docs[d].queue[0].Seal?
    ensures var epoch := s.docs[d].queue[0].epoch;
            RunFront(s, d) == WithDoc(s, d, Placed(HostSeals(Rest(s.docs[d]), epoch), epoch))
  {
  }

  lemma SealEdit(s: State, d: DocId)
    requires d in s.docs && GrantInv(s, d) && s.docs[d].queue != [] && s.docs[d].queue[0].Seal?
    ensures GrantInv(RunFront(s, d), d) && SameComposition(s, RunFront(s, d), d)
  {
    var doc, epoch := s.docs[d], s.docs[d].queue[0].epoch;
    var h, after := HostSeals(Rest(doc), epoch), Placed(HostSeals(Rest(doc), epoch), epoch);
    EndedNotLive(s, d);
    SealIs(s, d);
    SealedDoc(doc, d);
    RestEnds(s, d, h);
    AlikeEnds(h, after, LiveOf(s, d), Limit(s));
    RestHasNoNewResults(doc);
    DocOnly(s, d, after);
  }

  // ---- erasing in order ---------------------------------------------------------------------------

  lemma ErasedDoc(doc: Doc, d: DocId)
    requires DocInv(doc, d) && WritesQueued(doc) && doc.queue != [] && doc.queue[0].Backspace?
    ensures var r := EraseInOrder(Rest(doc));
            DocInv(r, d) && WritesQueued(r) && EndsAlike(Rest(doc), r) && Epochs(r.segments) == Epochs(doc.segments)
  {
    var r, i := EraseInOrder(Rest(doc)), NewestAtCaret(Rest(doc));
    EraseRuns(doc, d);
    if i < 0 {
      RestWrites(doc, r);
    } else {
      var x := EraseLast(doc.segments[i]);
      assert r.queue == if x.stage.Finished? then doc.queue[1..] + [WriteFinished] else doc.queue[1..];
      ChangedWrites(doc, r, i, x);
      ReplacedSegment(doc.segments, i, x);
    }
  }

  lemma EraseIs(s: State, d: DocId)
    requires d in s.docs && s.docs[d].queue != [] && s.docs[d].queue[0].Backspace?
    ensures RunFront(s, d) == WithDoc(s, d, EraseInOrder(Rest(s.docs[d])))
  {
  }

  lemma EraseEdit(s: State, d: DocId)
    requires d in s.docs && GrantInv(s, d) && s.docs[d].queue != [] && s.docs[d].queue[0].Backspace?
    ensures GrantInv(RunFront(s, d), d) && SameComposition(s, RunFront(s, d), d)
  {
    var doc := s.docs[d];
    EraseIs(s, d);
    ErasedDoc(doc, d);
    RestEnds(s, d, Rest(doc));
    AlikeEnds(Rest(doc), EraseInOrder(Rest(doc)), LiveOf(s, d), Limit(s));
    RestHasNoNewResults(doc);
    DocOnly(s, d, EraseInOrder(Rest(doc)));
  }

  // ---- writing what is finished ------------------------------------------------------------------

  lemma WrittenSegments(doc: Doc, i: nat)
    requires i < |doc.segments|
    ensures var r := Written(doc, i);
            && r.calls == doc.calls && |r.segments| == |doc.segments| - 1
            && (forall j :: 0 <= j < i ==> r.segments[j] == doc.segments[j])
            && (forall x <- r.segments :: x in doc.segments)
  {
  }

  // Nothing that could be written is left.
  lemma {:induction false} WriteFromDone(doc: Doc, i: nat)
    requires i <= |doc.segments| && (forall j :: 0 <= j < i ==> !Writable(doc.segments[j], j > 0))
    ensures var r := WriteFrom(doc, i, i > 0);
            && !SomeWritable(r.segments) && r.calls == doc.calls
            && (forall x <- r.segments :: x in doc.segments)
    decreases |doc.segments| - i
  {
    if i < |doc.segments| {
      if Writable(doc.segments[i], i > 0) {
        WrittenSegments(doc, i);
        WriteFromDone(Written(doc, i), i);
      } else {
        WriteFromDone(doc, i + 1);
      }
    }
  }

  lemma WriteIs(s: State, d: DocId)
    requires d in s.docs && s.docs[d].queue != [] && s.docs[d].queue[0].WriteFinished?
    ensures RunFront(s, d) == WithDoc(s, d, WriteFrom(Rest(s.docs[d]), 0, false))
  {
  }

  lemma WriteEdit(s: State, d: DocId)
    requires d in s.docs && GrantInv(s, d) && s.docs[d].queue != [] && s.docs[d].queue[0].WriteFinished?
    ensures GrantInv(RunFront(s, d), d) && SameComposition(s, RunFront(s, d), d)
  {
    var doc, rest := s.docs[d], Rest(s.docs[d]);
    var after := WriteFrom(rest, 0, false);
    WriteIs(s, d);
    PopKeeps(doc, d, rest);
    WriteFromKeeps(rest, d, 0);
    WriteFromDone(rest, 0);
    RestEnds(s, d, rest);
    AlikeEnds(rest, after, LiveOf(s, d), Limit(s));
    RestHasNoNewResults(doc);
    forall e <- Epochs(after.segments) ensures e in Epochs(doc.segments) {
      var i :| 0 <= i < |after.segments| && after.segments[i].epoch == e;
      assert after.segments[i] in doc.segments;
      var j :| 0 <= j < |doc.segments| && doc.segments[j] == after.segments[i];
      assert Epochs(doc.segments)[j] == e;
    }
    DocOnly(s, d, after);
  }

  // ---- a grant -------------------------------------------------------------------------------------

  // Whatever edit is at the front, running it keeps the invariant.
  lemma RunFrontKeeps(s: State, d: DocId)
    requires d in s.docs && GrantInv(s, d) && s.docs[d].queue != []
    ensures GrantInv(RunFront(s, d), d) && SameComposition(s, RunFront(s, d), d)
  {
    var e := s.docs[d].queue[0];
    match e
    case ReadContext(epoch) => if LiveEpoch(s, epoch) { LiveRead(s, d); } else { SealedRead(s, d); }
    case Show(epoch, _) => if LiveEpoch(s, epoch) { LiveShow(s, d); } else { EndedEdit(s, d); }
    case ApplyResult(_, request, _) => if LiveEpoch(s, request.epoch) { LiveApply(s, d); } else { SealedApply(s, d); }
    case AcceptLocally(epoch) => if LiveEpoch(s, epoch) { LiveAccept(s, d); } else { EndedEdit(s, d); }
    case Commit(_, _, _) => EndedNotLive(s, d); EndedEdit(s, d);
    case Discard(_) => EndedNotLive(s, d); EndedEdit(s, d);
    case Seal(_) => SealEdit(s, d);
    case Backspace => EraseEdit(s, d);
    case WriteFinished => WriteEdit(s, d);
  }

  // A grant runs the whole queue; the document then shows what the state is.
  lemma {:induction false} DrainKeeps(s: State, d: DocId)
    requires GrantInv(s, d)
    ensures Inv(Drain(s, d)) && SameComposition(s, Drain(s, d), d)
    ensures d in s.docs ==> d in Drain(s, d).docs && Drain(s, d).docs[d].queue == []
    decreases if d in s.docs then Weight(s.docs[d].queue) else 0
  {
    if d in s.docs && s.docs[d].queue != [] {
      RunFrontKeeps(s, d);
      RunFrontQueue(s, d);
      DrainKeeps(RunFront(s, d), d);
    }
  }
}
