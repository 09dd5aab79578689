/** What requests, answers and changes of one segment or composition keep of where text comes from. */
module AnswerSteps {
  import opened Wrappers
  import opened Bopomofo
  import opened Buffers
  import opened BufferProofs
  import opened BufferHistory
  import opened CandidateLocks
  import opened Merging
  import opened Absorbing
  import opened Conversions
  import opened Documents
  import opened DocumentInv
  import opened DocumentSteps
  import opened Controller
  import opened AnswerInv

  // ---- the log grows ----------------------------------------------------------------

  // Nothing asked or answered is forgotten, and a lost backend is not forgiven.
  predicate LogGrows(t: Tracker, r: Tracker) {
    && (forall q <- t.asked :: q in r.asked && r.asked[q] == t.asked[q])
    && (forall q <- t.answered :: q in r.answered && r.answered[q] == t.answered[q])
    && (r.present ==> t.present)
  }

  // No new request for the epoch.
  predicate EpochQuiet(t: Tracker, r: Tracker, epoch: nat) {
    && (epoch in r.newest <==> epoch in t.newest) && (epoch in t.newest ==> r.newest[epoch] == t.newest[epoch])
    && (forall q <- r.asked :: r.asked[q].epoch == epoch ==> q in t.asked)
  }

  lemma RegularBefore(t: Tracker, r: Tracker)
    requires LogOk(t) && LogGrows(t, r) && AllRegular(r)
    ensures AllRegular(t)
  {
    forall q <- t.answered | q in t.asked ensures Regular(t.asked[q].snapshot, t.answered[q]) {
      assert q in r.answered;
    }
  }

  lemma OfContentStays(t: Tracker, r: Tracker, q: nat, s: seq<Entry>)
    requires LogOk(t) && LogGrows(t, r) && OfContent(t, q, s)
    ensures OfContent(r, q, s)
  {
    if AllRegular(r) {
      RegularBefore(t, r);
    }
  }

  lemma GivenStays(t: Tracker, r: Tracker, rs: seq<Result>, epoch: nat, queue: seq<Edit>, after: seq<Edit>)
    requires LogGrows(t, r) && Given(t, rs, epoch, queue) && forall q <- Carries(after) :: q in Carries(queue)
    ensures Given(r, rs, epoch, after)
  {
  }

  lemma SegmentStays(t: Tracker, r: Tracker, s: Segment, queue: seq<Edit>, after: seq<Edit>)
    requires LogOk(t) && LogGrows(t, r) && EpochQuiet(t, r, s.epoch) && SegmentTold(t, s, queue)
    requires forall q <- Carries(after) :: q in Carries(queue)
    ensures SegmentTold(r, s, after)
  {
    GivenStays(t, r, s.answers, s.epoch, queue, after);
    if NewestIsOf(t, s) {
      OfContentStays(t, r, t.newest[s.epoch], s.origin.entries);
    }
  }

  lemma EndedStays(t: Tracker, r: Tracker, c: Ended)
    requires LogOk(t) && LogGrows(t, r) && EndedTold(t, c)
    ensures EndedTold(r, c)
  {
    GivenStays(t, r, c.applied, c.epoch, [], []);
    if IsConverted(t, c.buffer.entries, c.applied, c.held) {
      var w :| w in c.applied && w.sequence == LastSequence(c.applied) && OfContent(t, w.sequence, c.buffer.entries)
        && MergedBut(c.buffer.entries, w, c.held);
      OfContentStays(t, r, w.sequence, c.buffer.entries);
    }
  }

  // For a document none of whose segments is asked for anew.
  predicate DocumentQuiet(t: Tracker, r: Tracker, doc: Doc) {
    && (forall x <- doc.segments :: EpochQuiet(t, r, x.epoch)) && (forall e <- doc.written :: EpochQuiet(t, r, e))
  }

  lemma DocumentStays(t: Tracker, r: Tracker, doc: Doc, d: DocId)
    requires LogOk(t) && LogGrows(t, r) && DocumentQuiet(t, r, doc) && DocumentTold(t, doc, d)
    ensures DocumentTold(r, doc, d)
  {
    hide SegmentTold, EndedTold, AllRegular;
    forall x <- doc.segments ensures SegmentTold(r, x, doc.queue) && AskedBefore(r, x.epoch, x.origin) {
      SegmentStays(t, r, x, doc.queue, doc.queue);
    }
    forall e <- doc.written ensures WrittenTold(r, doc.written[e], e) {
      SegmentStays(t, r, doc.written[e], [], []);
    }
    forall intent <- doc.intents ensures IntentTold(r, doc, intent) {
      assert IntentTold(t, doc, intent);
      if intent.Typed? {
        EndedStays(t, r, intent.ended);
      }
    }
  }

  lemma RequestsStay(t: Tracker, r: Tracker, c: Composition)
    requires LogOk(t) && LogGrows(t, r) && EpochQuiet(t, r, c.epoch) && RequestsTold(t, c)
    ensures RequestsTold(r, c)
  {
    forall q <- r.asked | r.asked[q].epoch == c.epoch ensures SentOf(r, q, c.buffer) && r.asked[q].document == c.document {
      if AllRegular(r) {
        RegularBefore(t, r);
      }
    }
    forall p <- r.asked, q <- r.asked | p < q && r.asked[p].epoch == c.epoch && r.asked[q].epoch == c.epoch
      ensures r.asked[p].revision <= r.asked[q].revision && (!c.lost ==> r.asked[p].revision < r.asked[q].revision)
      ensures Succeeds(r.asked[p].snapshot, r.asked[q].snapshot)
    {
      assert p in t.asked && q in t.asked;
    }
  }

  lemma ConvertedStays(t: Tracker, r: Tracker, c: Composition)
    requires LogGrows(t, r) && ConvertedTold(t, c)
    ensures ConvertedTold(r, c)
  {
    if c.converted.Some? && !c.lost {
      var x :| x in c.applied && x.sequence in t.asked && t.asked[x.sequence].revision == c.converted.value;
      assert x.sequence in r.asked;
    }
  }

  lemma CompositionStays(t: Tracker, r: Tracker, c: Composition, queue: seq<Edit>, after: seq<Edit>)
    requires LogOk(t) && LogGrows(t, r) && EpochQuiet(t, r, c.epoch) && CompositionTold(t, c, queue) && NothingMore(queue, after)
    ensures CompositionTold(r, c, after)
  {
    hide RequestsTold, ConvertedTold, Given, NewestMerged;
    RequestsStay(t, r, c);
    ConvertedStays(t, r, c);
    GivenStays(t, r, c.applied, c.epoch, queue, after);
  }

  // ---- the queue ------------------------------------------------------------------------

  lemma {:induction false} CarriesConcat(a: seq<Edit>, b: seq<Edit>)
    ensures Carries(a + b) == Carries(a) + Carries(b)
  {
    if a == [] {
      assert a + b == b;
    } else {
      assert (a + b)[1..] == a[1..] + b && (a + b)[0] == a[0];
      CarriesConcat(a[1..], b);
    }
  }

  lemma {:induction false} CarriesMembers(queue: seq<Edit>)
    ensures forall q :: q in Carries(queue) <==> exists e <- queue :: e.ApplyResult? && e.sequence == q
  {
    if queue != [] {
      CarriesMembers(queue[1..]);
      assert queue[0] in queue && forall e <- queue[1..] :: e in queue;
      assert forall e <- queue :: e == queue[0] || e in queue[1..];
    }
  }

  lemma AppendedCarries(queue: seq<Edit>, e: Edit)
    ensures Carries(queue + [e]) == Carries(queue) + if e.ApplyResult? then [e.sequence] else []
  {
    CarriesConcat(queue, [e]);
    assert Carries([e][1..]) == [];
  }

  // No other result is on its way, nor is the composition going to be accepted locally.
  predicate NothingMore(queue: seq<Edit>, after: seq<Edit>) {
    (forall q <- Carries(after) :: q in Carries(queue)) && forall e <- after :: e.AcceptLocally? ==> e in queue
  }

  // The queue behind its first edit, with a write behind it perhaps.
  predicate Continued(queue: seq<Edit>, after: seq<Edit>) {
    queue != [] && (after == queue[1..] || after == queue[1..] + [WriteFinished])
  }

  lemma ContinuedTold(t: Tracker, queue: seq<Edit>, after: seq<Edit>, d: DocId)
    requires QueueTold(t, queue, d) && Continued(queue, after)
    ensures QueueTold(t, after, d) && NothingMore(queue, after)
    ensures queue[0].ApplyResult? ==> queue[0].sequence in Carries(queue) && queue[0].sequence !in Carries(after)
  {
    AppendedCarries(queue[1..], WriteFinished);
    var all, rest := Carries(queue), Carries(queue[1..]);
    assert Carries(after) == rest;
    if queue[0].ApplyResult? {
      assert all == [queue[0].sequence] + rest;
      assert forall j :: 0 <= j < |rest| ==> rest[j] == all[j + 1] && all[0] != all[j + 1];
      forall i, j | 0 <= i < j < |rest| ensures rest[i] != rest[j] {
        assert all[i + 1] != all[j + 1];
      }
    }
    forall e <- after ensures EditTold(t, e, d) {
      assert e in queue || e == WriteFinished;
    }
  }

  // An edit that carries no result is queued.
  lemma QueuedTold(t: Tracker, queue: seq<Edit>, e: Edit, d: DocId)
    requires QueueTold(t, queue, d) && !e.ApplyResult?
    ensures QueueTold(t, queue + [e], d) && Carries(queue + [e]) == Carries(queue)
    ensures !e.AcceptLocally? ==> NothingMore(queue, queue + [e])
  {
    AppendedCarries(queue, e);
  }

  // ---- a segment ----------------------------------------------------------------------------

  lemma ErasedTold(t: Tracker, s: Segment, queue: seq<Edit>)
    requires SegmentTold(t, s, queue)
    ensures SegmentTold(t, EraseLast(s), queue)
  {
  }

  lemma AcceptTwice(s: seq<Entry>)
    ensures AcceptLocal(AcceptLocal(s)) == AcceptLocal(s)
  {
  }

  lemma FinishedTold(t: Tracker, s: Segment, queue: seq<Edit>)
    requires SegmentTold(t, s, queue) && !t.present
    ensures SegmentTold(t, FinishSegment(s), queue)
  {
    AcceptTwice(s.buffer.entries);
  }

  function MergedWith(b: Buffer, r: Result): Buffer {
    MergeConversion(b, r.sequence, r.requested, r.converted, None).buffer
  }

  lemma {:induction false} MergeAllSnoc(b: Buffer, rs: seq<Result>, r: Result)
    ensures MergeAll(b, rs + [r]) == MergedWith(MergeAll(b, rs), r)
    decreases |rs|
  {
    if rs == [] {
      assert rs + [r] == [r] && [r][1..] == [];
      assert MergeAll(MergedWith(b, r), []) == MergedWith(b, r);
    } else {
      assert (rs + [r])[1..] == rs[1..] + [r] && (rs + [r])[0] == rs[0];
      MergeAllSnoc(MergedWith(b, rs[0]), rs[1..], r);
    }
  }

  // What is accepted locally takes a result like what is not.
  lemma MergeAfterAccepting(a: Buffer, b: Buffer, r: Result)
    requires AcceptLocal(a.entries) == AcceptLocal(b.entries) && UniqueIds(a.entries) && UniqueIds(b.entries) && Proper(r)
    ensures AcceptLocal(MergedWith(a, r).entries) == AcceptLocal(MergedWith(b, r).entries)
  {
    assert |a.entries| == |AcceptLocal(a.entries)| == |b.entries|;
    MergeByEntry(a, r, None);
    MergeByEntry(b, r, None);
    forall i | 0 <= i < |a.entries| ensures AcceptLocal(MergedWith(a, r).entries)[i] == AcceptLocal(MergedWith(b, r).entries)[i] {
      assert AcceptLocal(a.entries)[i] == AcceptLocal(b.entries)[i];
      MergeEntryIs(a.entries[i], r);
      MergeEntryIs(b.entries[i], r);
      AcceptedAlike(a.entries[i], b.entries[i], r);
    }
  }

  lemma AcceptedAlike(x: Entry, y: Entry, r: Result)
    requires x.(conversionPending := false) == y.(conversionPending := false)
    ensures Hits(x, r) <==> Hits(y, r)
    ensures Hits(x, r) ==> Landed(x, r) == Landed(y, r)
  {
  }

  lemma {:induction false} MergedAllIds(b: Buffer, rs: seq<Result>)
    requires UniqueIds(b.entries)
    ensures UniqueIds(MergeAll(b, rs).entries) && SameContent(b.entries, MergeAll(b, rs).entries)
    decreases |rs|
  {
    SucceedsItself(b.entries);
    if rs != [] {
      MergeRefines(b, rs[0].sequence, rs[0].requested, rs[0].converted, None);
      var m := MergedWith(b, rs[0]);
      assert forall i :: 0 <= i < |b.entries| ==> m.entries[i].id == b.entries[i].id;
      MergedAllIds(m, rs[1..]);
      ContentTransitive(b.entries, m.entries, MergeAll(b, rs).entries);
    }
  }

  lemma MergedTold(t: Tracker, s: Segment, r: Result, queue: seq<Edit>)
    requires LogOk(t) && SegmentTold(t, s, queue) && UniqueIds(s.buffer.entries) && AskedBefore(t, s.epoch, s.origin)
    requires Truthful(t, r, s.epoch) && r.sequence !in Carries(queue) && forall x <- s.answers :: x.sequence != r.sequence
    ensures SegmentTold(t, MergeSegment(s, r.sequence, r.requested, r.converted), queue)
  {
    hide MergeAll, AcceptLocal;
    var x := MergeSegment(s, r.sequence, r.requested, r.converted);
    MergedAllIds(s.origin, s.answers);
    MergeAllSnoc(s.origin, s.answers, r);
    MergeAfterAccepting(s.buffer, MergeAll(s.origin, s.answers), r);
    MergeByEntry(s.buffer, r, None);
    assert DistinctSequences(s.answers + [r]) by {
      assert forall i :: 0 <= i < |s.answers| ==> s.answers[i] in s.answers;
    }
    assert Given(t, x.answers, x.epoch, queue);
    assert r in x.answers && forall y <- s.answers :: y in x.answers;
  }

  lemma WrittenIsTold(t: Tracker, s: Segment, queue: seq<Edit>)
    requires SegmentTold(t, s, queue) && s.stage.Finished? && Wf(s.buffer) && !HasUncomposedReading(s.buffer.entries)
    ensures WrittenTold(t, s, s.epoch)
  {
  }
}
