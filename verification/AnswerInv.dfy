/**
 Where the text of a composition comes from. Every request was of what the
 composition then held, every result it was given is the answer to one of its
 requests, and what became of it is told by those results.
 */
module AnswerInv {
  import opened Wrappers
  import opened Bopomofo
  import opened Buffers
  import opened BufferHistory
  import opened CandidateLocks
  import opened Absorbing
  import opened Merging
  import opened Conversions
  import opened Documents
  import opened DocumentInv
  import opened Controller

  // ---- requests and answers ------------------------------------------------------

  predicate AskedFor(t: Tracker, q: nat, epoch: nat) {
    q in t.asked && t.asked[q].epoch == epoch
  }

  predicate PendingLogged(t: Tracker) {
    forall q <- t.pending :: q in t.asked && t.asked[q] == t.pending[q] && q !in t.answered
  }

  predicate AskedLogged(t: Tracker) {
    forall q <- t.asked ::
      q <= t.sequence && UniqueIds(t.asked[q].snapshot) && t.asked[q].epoch in t.newest && q <= t.newest[t.asked[q].epoch]
  }

  predicate AnsweredLogged(t: Tracker) {
    forall q <- t.answered :: q in t.asked
  }

  predicate NewestLogged(t: Tracker) {
    forall e <- t.newest :: AskedFor(t, t.newest[e], e)
  }

  predicate LogOk(t: Tracker) {
    PendingLogged(t) && AskedLogged(t) && AnsweredLogged(t) && NewestLogged(t) && (t.present ==> t.backend)
  }

  // The result is what came back for a request of the epoch.
  predicate Truthful(t: Tracker, r: Result, epoch: nat) {
    && AskedFor(t, r.sequence, epoch) && t.asked[r.sequence].snapshot == r.requested
    && r.sequence in t.answered && t.answered[r.sequence] == r.converted
  }

  predicate AllRegular(t: Tracker) {
    forall q <- t.answered :: q in t.asked ==> Regular(t.asked[q].snapshot, t.answered[q])
  }

  // Request q is of what the buffer held, now or earlier.
  predicate SentOf(t: Tracker, q: nat, b: Buffer)
    requires q in t.asked
  {
    TakenOf(t.asked[q].revision, t.asked[q].snapshot, b) && (AllRegular(t) ==> NoneFixed(t.asked[q].snapshot, b.entries))
  }

  // Request q was sent at the revision the composition has now.
  predicate OfContent(t: Tracker, q: nat, s: seq<Entry>) {
    q in t.asked && SameContent(t.asked[q].snapshot, s) && (AllRegular(t) ==> NoneFixed(t.asked[q].snapshot, s))
  }

  // ---- results on their way ----------------------------------------------------------

  function Carries(queue: seq<Edit>): seq<nat> {
    if queue == [] then []
    else if queue[0].ApplyResult? then [queue[0].sequence] + Carries(queue[1..])
    else Carries(queue[1..])
  }

  predicate NoTwice(s: seq<nat>) {
    forall i, j :: 0 <= i < j < |s| ==> s[i] != s[j]
  }

  predicate EditTold(t: Tracker, e: Edit, d: DocId) {
    e.ApplyResult? ==>
      && Truthful(t, Result(e.sequence, e.request.snapshot, e.converted), e.request.epoch)
      && t.asked[e.sequence] == e.request && e.request.document == d
  }

  predicate QueueTold(t: Tracker, queue: seq<Edit>, d: DocId) {
    NoTwice(Carries(queue)) && forall e <- queue :: EditTold(t, e, d)
  }

  // Answers to requests of the epoch, each once, and none that is still on its way.
  predicate Given(t: Tracker, rs: seq<Result>, epoch: nat, queue: seq<Edit>) {
    DistinctSequences(rs) && forall r <- rs :: Truthful(t, r, epoch) && r.sequence !in Carries(queue)
  }

  // ---- a sealed segment -----------------------------------------------------------------

  // Only a composition that cannot be committed as it is gets sealed. Nothing
  // may be left of it when its readings are spelled out.
  predicate OriginOk(b: Buffer) {
    Wf(b) && !HasUncomposedReading(b.entries) && (b.entries == [] || !AllChosen(b.entries))
  }

  // What the segment holds is what was sealed with its answers merged, but that
  // a syllable may have been accepted as it is.
  predicate MergedOf(s: Segment) {
    AcceptLocal(s.buffer.entries) == AcceptLocal(MergeAll(s.origin, s.answers).entries)
  }

  // The newest request of its epoch is of exactly what was sealed.
  predicate NewestIsOf(t: Tracker, s: Segment) {
    s.epoch in t.newest && OfContent(t, t.newest[s.epoch], s.origin.entries)
  }

  predicate HasNewest(t: Tracker, s: Segment) {
    s.epoch in t.newest && exists r <- s.answers :: r.sequence == t.newest[s.epoch]
  }

  // A segment is finished by the newest result of its epoch, unless it was
  // finished locally or erased altogether.
  predicate StageTold(t: Tracker, s: Segment) {
    match s.stage
    case WaitingForContext => s.epoch !in t.newest && s.buffer == s.origin && s.answers == []
    case Converting(awaited) => NewestIsOf(t, s) && t.newest[s.epoch] == awaited
    case Finished => s.local || s.erased >= |s.buffer.entries| || (NewestIsOf(t, s) && HasNewest(t, s))
  }

  predicate ConvertedEarlier(t: Tracker, s: Segment) {
    forall x <- s.origin.entries :: x.convertedBy == 0 || (s.epoch in t.newest && x.convertedBy <= t.newest[s.epoch])
  }

  // Every request of the epoch was of what was sealed, or of what it was before.
  predicate AskedBefore(t: Tracker, epoch: nat, origin: Buffer) {
    forall q <- t.asked :: t.asked[q].epoch == epoch ==> Succeeds(t.asked[q].snapshot, origin.entries)
  }

  predicate AnswersFit(s: Segment) {
    forall r <- s.answers :: Succeeds(r.requested, s.origin.entries)
  }

  predicate SegmentTold(t: Tracker, s: Segment, queue: seq<Edit>) {
    && OriginOk(s.origin) && MergedOf(s) && Given(t, s.answers, s.epoch, queue) && AnswersFit(s)
    && StageTold(t, s) && ConvertedEarlier(t, s) && (s.local ==> !t.present || s.origin.entries == [])
  }

  predicate WrittenTold(t: Tracker, s: Segment, epoch: nat) {
    && s.epoch == epoch && s.stage.Finished? && Wf(s.buffer) && !HasUncomposedReading(s.buffer.entries)
    && SegmentTold(t, s, [])
  }

  // ---- the open composition ----------------------------------------------------------------

  // Later requests are of later content; of other content, unless the backend was lost.
  predicate InOrder(t: Tracker, epoch: nat, lost: bool) {
    forall p <- t.asked, q <- t.asked :: p < q && t.asked[p].epoch == epoch && t.asked[q].epoch == epoch ==>
      && t.asked[p].revision <= t.asked[q].revision && (!lost ==> t.asked[p].revision < t.asked[q].revision)
      && Succeeds(t.asked[p].snapshot, t.asked[q].snapshot)
  }

  predicate SentTold(t: Tracker, c: Composition) {
    && (c.sent.Some? ==>
          && c.epoch in t.newest && t.newest[c.epoch] == c.sent.value.sequence
          && AskedFor(t, c.sent.value.sequence, c.epoch) && t.asked[c.sent.value.sequence].revision == c.sent.value.revision)
    && (c.epoch in t.newest ==> c.preceding.Some? && (c.sent.Some? || c.lost))
  }

  // The revision said to be converted is one a result was given for.
  predicate ConvertedTold(t: Tracker, c: Composition) {
    c.converted.Some? ==>
      && c.converted.value <= c.buffer.revision
      && (c.lost || exists r <- c.applied :: r.sequence in t.asked && t.asked[r.sequence].revision == c.converted.value)
  }

  // Every request for the composition is of what it holds, or held.
  predicate RequestsTold(t: Tracker, c: Composition) {
    && (forall q <- t.asked :: t.asked[q].epoch == c.epoch ==> SentOf(t, q, c.buffer) && t.asked[q].document == c.document)
    && InOrder(t, c.epoch, c.lost)
  }

  predicate CompositionTold(t: Tracker, c: Composition, queue: seq<Edit>) {
    && RequestsTold(t, c) && SentTold(t, c) && Given(t, c.applied, c.epoch, queue)
    && ConvertedUpTo(c.buffer.entries, LastSequence(c.applied))
    && HeldTold(c.candidates.held, c.applied) && NewestMerged(c.buffer.entries, c.applied, c.candidates.held)
    && ConvertedTold(t, c) && (c.lost ==> !t.present) && (AcceptLocally(c.epoch) in queue ==> c.lost)
  }

  // ---- what was committed ---------------------------------------------------------------------

  // The newest result given is for exactly the content, and merged.
  predicate IsConverted(t: Tracker, s: seq<Entry>, rs: seq<Result>, held: Option<Held>) {
    exists w <- rs :: w.sequence == LastSequence(rs) && OfContent(t, w.sequence, s) && MergedBut(s, w, held)
  }

  predicate EndedTold(t: Tracker, c: Ended) {
    && Wf(c.buffer) && ReadyToCommit(c.buffer) && Given(t, c.applied, c.epoch, [])
    && ConvertedUpTo(c.buffer.entries, LastSequence(c.applied))
    && (AllChosen(c.buffer.entries) || c.lost || IsConverted(t, c.buffer.entries, c.applied, c.held))
    && (c.lost ==> !t.present)
  }

  // ---- a document and the whole -----------------------------------------------------------------

  predicate IntentTold(t: Tracker, doc: Doc, intent: Intent) {
    match intent
    case Typed(ended) => EndedTold(t, ended)
    case TypedSealed(epoch, content) =>
      && (forall x <- doc.segments :: x.epoch == epoch ==> x.origin == content)
      && (epoch in doc.written ==> doc.written[epoch].origin == content)
    case Erased => true
  }

  predicate DocumentTold(t: Tracker, doc: Doc, d: DocId) {
    && QueueTold(t, doc.queue, d)
    && (forall x <- doc.segments :: SegmentTold(t, x, doc.queue) && AskedBefore(t, x.epoch, x.origin))
    && (forall e <- doc.written :: WrittenTold(t, doc.written[e], e))
    && (forall intent <- doc.intents :: IntentTold(t, doc, intent))
  }

  ghost predicate Told(s: State) {
    && LogOk(s.conversions)
    && (s.comp.Some? ==> s.comp.value.document in s.docs
                         && CompositionTold(s.conversions, s.comp.value, s.docs[s.comp.value.document].queue))
    && forall d <- s.docs :: DocumentTold(s.conversions, s.docs[d], d)
  }
}
