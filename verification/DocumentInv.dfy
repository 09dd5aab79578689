/**
 What holds of a document between any two edits: its sealed pieces and its
 segments correspond, the queued edits fit, and the text is going to be the
 reference text.
 */
module DocumentInv {
  import opened Wrappers
  import opened Text
  import opened Bopomofo
  import opened Buffers
  import opened BufferProofs
  import opened Conversions
  import opened Documents
  import opened DocumentProofs

  function Epochs(segments: seq<Segment>): seq<nat> {
    seq(|segments|, i requires 0 <= i < |segments| => segments[i].epoch)
  }

  function SealsOf(queue: seq<Edit>): seq<nat> {
    if queue == [] then []
    else if queue[0].Seal? then [queue[0].epoch] + SealsOf(queue[1..])
    else SealsOf(queue[1..])
  }

  predicate Increasing(s: seq<nat>) {
    forall i, j :: 0 <= i < j < |s| ==> s[i] < s[j]
  }

  // Every epoch begun so far is below the bound.
  function Bound(v: View): nat {
    match v
    case Idle(next) => next
    case Composing(epoch, _) => epoch
  }

  predicate SegmentOk(s: Segment, d: DocId) {
    && s.document == d && Wf(s.buffer) && !HasUncomposedReading(s.buffer.entries)
    && (!s.inDocument ==> s.erased == 0)
  }

  // Sealed pieces, then queued seals, are the segments in order.
  predicate Aligned(doc: Doc) {
    && Epochs(doc.segments) == SealedEpochs(doc.pieces) + SealsOf(doc.queue)
    && Increasing(Epochs(doc.segments))
    && forall i :: 0 <= i < |doc.segments| ==> (doc.segments[i].inDocument <==> i < |SealedEpochs(doc.pieces)|)
  }

  // Nothing changes the sealed text but its write.
  predicate PiecesMatch(pieces: seq<Piece>, segments: seq<Segment>) {
    forall p <- pieces :: p.Sealed? ==>
      var i := SegmentOf(segments, p.epoch);
      i < |segments| && segments[i].shown == p.text
  }

  predicate Below(doc: Doc, bound: nat) {
    && (forall e <- Epochs(doc.segments) :: e < bound && e !in doc.written)
    && (forall e <- doc.written :: e < bound)
  }

  predicate Shape(doc: Doc, d: DocId) {
    && Aligned(doc) && PiecesMatch(doc.pieces, doc.segments)
    && (forall s <- doc.segments :: SegmentOk(s, d))
    && Below(doc, Bound(ViewAfter(doc.queue, doc.view)))
    && AllFit(doc.queue, doc.view, doc.segments)
  }

  // f maps a written segment to its final text; of one that was erased
  // altogether only the length matters.
  predicate Agrees(f: map<nat, string>, written: map<nat, Segment>) {
    forall e <- written :: e in f && MayBecome(written[e], f[e])
  }

  predicate MayBecome(s: Segment, text: string) {
    |text| == |s.buffer.entries| && (s.erased < |s.buffer.entries| ==> text == FinalText(s.buffer.entries))
  }

  function FutureText(doc: Doc, f: map<nat, string>): string {
    TextAfter(doc.queue, doc.view, TargetOn("", doc.pieces, doc.segments, f), f)
  }

  // Whatever the segments not written yet become, the document is going to
  // read like the reference.
  ghost predicate TextInv(doc: Doc) {
    forall f: map<nat, string> | Agrees(f, doc.written) ::
      FutureText(doc, f) == Replay(doc.initial, doc.intents, f)
  }

  predicate RecordOk(r: Record) {
    r.held == r.sample.answer == FinalText(r.entries) && AllTrusted(r.entries)
  }

  // Every sample handed to training is what the document held.
  predicate RecordsOk(doc: Doc) {
    forall r <- doc.records :: RecordOk(r)
  }

  // What was sealed is a segment still, or has been written.
  predicate Accounted(doc: Doc) {
    forall intent <- doc.intents :: intent.TypedSealed? ==>
      intent.epoch in doc.written || intent.epoch in Epochs(doc.segments)
  }

  ghost predicate DocInv(doc: Doc, d: DocId) {
    Shape(doc, d) && TextInv(doc) && RecordsOk(doc) && Accounted(doc)
  }

  function Rest(doc: Doc): Doc
    requires doc.queue != []
  {
    doc.(queue := doc.queue[1..])
  }

  // ---- helpers ----------------------------------------------------------------------------

  lemma {:induction false} SealsAppend(queue: seq<Edit>, e: Edit)
    ensures SealsOf(queue + [e]) == SealsOf(queue) + if e.Seal? then [e.epoch] else []
  {
    var both := queue + [e];
    if queue == [] {
      assert both == [e];
    } else {
      assert both[1..] == queue[1..] + [e] && both[0] == queue[0];
      SealsAppend(queue[1..], e);
    }
  }

  lemma SegmentFound(segments: seq<Segment>, i: nat)
    requires Increasing(Epochs(segments)) && i < |segments|
    ensures SegmentOf(segments, segments[i].epoch) == i
  {
    forall j | 0 <= j < i ensures segments[j].epoch < segments[i].epoch {
      assert Epochs(segments)[j] < Epochs(segments)[i];
    }
  }

  lemma SegmentMissing(segments: seq<Segment>, epoch: nat)
    ensures SegmentOf(segments, epoch) == |segments| <==> epoch !in Epochs(segments)
  {
    var i := SegmentOf(segments, epoch);
    if i < |segments| {
      assert Epochs(segments)[i] == epoch;
    } else {
      assert forall j :: 0 <= j < |segments| ==> Epochs(segments)[j] == segments[j].epoch != epoch;
    }
  }

  // Replacing a segment by one of the same epoch.
  lemma ReplacedSegment(segments: seq<Segment>, i: nat, s: Segment)
    requires i < |segments| && s.epoch == segments[i].epoch
    ensures Epochs(segments[i := s]) == Epochs(segments)
    ensures forall epoch :: SegmentOf(segments[i := s], epoch) == SegmentOf(segments, epoch)
  {
    assert Epochs(segments[i := s]) == Epochs(segments);
    forall epoch ensures SegmentOf(segments[i := s], epoch) == SegmentOf(segments, epoch) {
      SameEpochsSameIndex(segments, segments[i := s], epoch);
    }
  }

  lemma SameEpochsSameIndex(a: seq<Segment>, b: seq<Segment>, epoch: nat)
    requires Epochs(a) == Epochs(b)
    ensures SegmentOf(a, epoch) == SegmentOf(b, epoch)
  {
    var i, j := SegmentOf(a, epoch), SegmentOf(b, epoch);
    assert |a| == |Epochs(a)| == |b|;
    assert forall k :: 0 <= k < |a| ==> Epochs(a)[k] == a[k].epoch && Epochs(b)[k] == b[k].epoch;
  }

  // Fitting depends on what the segments show only.
  lemma {:induction false} FitFrame(queue: seq<Edit>, v: View, a: seq<Segment>, b: seq<Segment>)
    requires AllFit(queue, v, a)
    requires forall epoch <- SealsOf(queue) ::
               var i, j := SegmentOf(a, epoch), SegmentOf(b, epoch);
               i < |a| ==> j < |b| && b[j].shown == a[i].shown
    ensures AllFit(queue, v, b)
  {
    if queue != [] {
      assert forall epoch <- SealsOf(queue[1..]) :: epoch in SealsOf(queue);
      FitFrame(queue[1..], NextView(queue[0], v), a, b);
    }
  }
}
