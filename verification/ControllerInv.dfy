/** What every step of the composition state machine keeps. */
module ControllerInv {
  import opened Wrappers
  import opened Bopomofo
  import opened Buffers
  import opened BufferProofs
  import opened CandidateLocks
  import opened Conversions
  import opened Documents
  import opened DocumentProofs
  import opened DocumentInv
  import opened DocumentSteps
  import opened Controller

  // ---- host calls ------------------------------------------------------------------

  // Between compositions, or within one and last rendered as last.
  datatype Protocol = Between(next: nat) | Within(epoch: nat, last: Option<string>) | Broken

  function AfterCall(p: Protocol, c: HostCall): Protocol {
    match c
    case PrecedingText(epoch) => if p.Between? && p.next <= epoch then Within(epoch, None) else Broken
    case Rendered(epoch, text) => if p.Within? && p.epoch == epoch then Within(epoch, Some(text)) else Broken
    case Committed(epoch, ended) => if p == Within(epoch, Some(ended)) then Between(epoch + 1) else Broken
    case Discarded(epoch) => if p.Within? && p.epoch == epoch then Between(epoch + 1) else Broken
    case SealedCall(epoch, ended) => if p == Within(epoch, Some(ended)) then Between(epoch + 1) else Broken
  }

  function AfterCalls(calls: seq<HostCall>): Protocol {
    if calls == [] then Between(0) else AfterCall(AfterCalls(calls[..|calls| - 1]), calls[|calls| - 1])
  }

  function ProtocolOf(v: View): Protocol {
    match v
    case Idle(next) => Between(next)
    case Composing(epoch, shown) => Within(epoch, if shown.Some? then Some(shown.value.text) else None)
  }

  // A composition is committed or sealed exactly as it was last rendered.
  predicate CallsOk(doc: Doc) {
    AfterCalls(doc.calls) == ProtocolOf(doc.view)
  }

  lemma CallsAppend(calls: seq<HostCall>, c: HostCall)
    ensures AfterCalls(calls + [c]) == AfterCall(AfterCalls(calls), c)
  {
    assert (calls + [c])[..|calls + [c]| - 1] == calls;
  }

  // ---- segments move on ------------------------------------------------------------------

  predicate Carried(queue: seq<Edit>, sequence: nat, epoch: nat) {
    exists e <- queue :: e.ApplyResult? && e.sequence == sequence && e.request.epoch == epoch
  }

  predicate Awaited(t: Tracker, queue: seq<Edit>, d: DocId, sequence: nat, epoch: nat) {
    || t.dropped
    || (&& epoch in t.newest && t.newest[epoch] == sequence
        && (|| (sequence in t.pending && t.pending[sequence].epoch == epoch && t.pending[sequence].document == d)
            || Carried(queue, sequence, epoch)))
  }

  // A segment not final yet is going to be: its context read is queued, or its
  // conversion, the newest of its epoch, is pending or carried by a queued edit.
  predicate MovesOn(s: Segment, queue: seq<Edit>, t: Tracker, d: DocId) {
    match s.stage
    case WaitingForContext => ReadContext(s.epoch) in queue
    case Converting(awaited) => Awaited(t, queue, d, awaited, s.epoch)
    case Finished => true
  }

  predicate SomeWritable(segments: seq<Segment>) {
    exists i :: 0 <= i < |segments| && Writable(segments[i], i > 0)
  }

  // Whatever can be written is going to be.
  predicate WritesQueued(doc: Doc) {
    SomeWritable(doc.segments) ==> WriteFinished in doc.queue
  }

  predicate DocMoves(doc: Doc, d: DocId, t: Tracker) {
    forall s <- doc.segments :: MovesOn(s, doc.queue, t, d)
  }

  // No segment gets stuck.
  predicate Moving(s: State) {
    forall d <- s.docs :: DocMoves(s.docs[d], d, s.conversions)
  }

  // ---- the live composition ------------------------------------------------------------------

  function LiveOf(s: State, d: DocId): Option<Composition> {
    if Owns(s, d) then s.comp else None
  }

  // Epochs of ended compositions are below the limit.
  function Limit(s: State): nat {
    if s.comp.Some? then s.comp.value.epoch else s.nextEpoch
  }

  predicate EndsIn(doc: Doc, live: Option<Composition>, limit: nat) {
    var v := ViewAfter(doc.queue, doc.view);
    match live
    case None => v.Idle? && v.next <= limit
    case Some(c) => Composes(v, c.epoch) && (c.preceding.None? ==> ReadContext(c.epoch) in doc.queue)
  }

  predicate ShownNow(v: View, c: Composition) {
    v == Composing(c.epoch, Some(Render(c.buffer))) || (c.buffer.entries == [] && v == Composing(c.epoch, None))
  }

  // Were the composition to end now, the document would show it as it is.
  predicate UpToDate(doc: Doc, live: Option<Composition>) {
    live.Some? ==> ShownNow(ViewAfter(doc.queue, doc.view), live.value)
  }

  // In a grant: the document shows it as it is, or a queued edit is going to.
  predicate Refreshing(doc: Doc, live: Option<Composition>) {
    live.Some? ==> ShowsEpoch(doc.queue, live.value.epoch) || ShownNow(ViewAfter(doc.queue, doc.view), live.value)
  }

  predicate SentOk(c: Composition, t: Tracker) {
    c.sent.Some? ==>
      var sequence := c.sent.value.sequence;
      && c.epoch in t.newest && t.newest[c.epoch] == sequence
      && (sequence in t.pending ==> t.pending[sequence].epoch == c.epoch && t.pending[sequence].document == c.document)
  }

  // Results asked for fit the buffer they are going to reach.
  predicate RequestsFit(c: Composition, queue: seq<Edit>, t: Tracker) {
    && (forall q <- t.pending :: t.pending[q].epoch == c.epoch ==>
          t.pending[q].document == c.document && RequestFits(t.pending[q].snapshot, c.buffer))
    && (forall e <- queue :: e.ApplyResult? && e.request.epoch == c.epoch ==> RequestFits(e.request.snapshot, c.buffer))
    && (c.candidates.held.Some? ==> RequestFits([c.candidates.held.value.requested], c.buffer))
  }

  predicate CompOk(s: State) {
    s.comp.Some? ==>
      var c := s.comp.value;
      && c.document in s.docs && c.epoch + 1 == s.nextEpoch && Wf(c.buffer)
      && SentOk(c, s.conversions) && RequestsFit(c, s.docs[c.document].queue, s.conversions)
  }

  ghost predicate TrackerOk(s: State) {
    && TrackerInv(s.conversions)
    && (forall e <- s.conversions.newest :: e < s.nextEpoch)
  }

  // ---- the whole -------------------------------------------------------------------------------

  ghost predicate DocOk(s: State, d: DocId)
    requires d in s.docs
  {
    var doc := s.docs[d];
    && DocInv(doc, d) && CallsOk(doc) && EndsIn(doc, LiveOf(s, d), Limit(s)) && WritesQueued(doc)
  }

  // An epoch is sealed in one document.
  predicate EpochsApart(s: State) {
    forall a <- s.docs, b <- s.docs :: a != b ==>
      forall e <- Epochs(s.docs[a].segments) :: e !in Epochs(s.docs[b].segments)
  }

  ghost predicate Base(s: State) {
    && TrackerOk(s) && CompOk(s) && EpochsApart(s)
    && (forall d <- s.docs :: DocOk(s, d))
  }

  // Between calls.
  ghost predicate Inv(s: State) {
    Base(s) && forall d <- s.docs :: UpToDate(s.docs[d], LiveOf(s, d))
  }

  // While document d is granted.
  ghost predicate GrantInv(s: State, d: DocId) {
    && Base(s)
    && (forall x <- s.docs :: x != d ==> UpToDate(s.docs[x], LiveOf(s, x)))
    && (d in s.docs ==> Refreshing(s.docs[d], LiveOf(s, d)))
  }
}
