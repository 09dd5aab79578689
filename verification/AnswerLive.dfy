/** What edits, requests and results make of an open composition keeps where its text comes from. */
module AnswerLive {
  import opened Wrappers
  import opened Bopomofo
  import opened Buffers
  import opened BufferProofs
  import opened BufferHistory
  import opened CandidateLocks
  import opened Merging
  import opened Absorbing
  import opened Conversions
  import opened Documents
  import opened Controller
  import opened AnswerInv
  import opened AnswerSteps

  // ---- an edit ------------------------------------------------------------------------

  lemma RevisedRequests(t: Tracker, c: Composition, x: Composition)
    requires RequestsTold(t, c) && x.epoch == c.epoch && x.document == c.document && x.lost == c.lost
    requires Revises(c.buffer, x.buffer)
    ensures RequestsTold(t, x)
  {
    forall q <- t.asked | t.asked[q].epoch == c.epoch ensures SentOf(t, q, x.buffer) {
      RevisedTaken(t.asked[q].revision, t.asked[q].snapshot, c.buffer, x.buffer);
      if AllRegular(t) {
        RevisedFixed(t.asked[q].snapshot, c.buffer, x.buffer);
      }
    }
  }

  // What a result given was asked for is of the buffer.
  lemma GivenOf(t: Tracker, c: Composition, queue: seq<Edit>, r: Result)
    requires LogOk(t) && RequestsTold(t, c) && Given(t, c.applied, c.epoch, queue) && r in c.applied
    ensures Proper(r) && Succeeds(r.requested, c.buffer.entries) && forall e <- r.requested :: e.id < c.buffer.nextId
  {
    assert SentOf(t, r.sequence, c.buffer);
  }

  lemma RevisedTold(t: Tracker, c: Composition, x: Composition, queue: seq<Edit>)
    requires LogOk(t) && CompositionTold(t, c, queue) && Revises(c.buffer, x.buffer)
    requires x == c.(buffer := x.buffer, candidates := x.candidates) && x.candidates.held == c.candidates.held
    ensures CompositionTold(t, x, queue)
  {
    RevisedRequests(t, c, x);
    RevisedUpTo(c.buffer, x.buffer, LastSequence(c.applied));
    forall w <- c.applied | w.sequence == LastSequence(c.applied) ensures MergedBut(x.buffer.entries, w, x.candidates.held) {
      GivenOf(t, c, queue, w);
      RevisedMerged(c.buffer, x.buffer, w, c.candidates.held);
    }
  }

  // ---- a result -----------------------------------------------------------------------

  lemma RefinedRequests(t: Tracker, c: Composition, x: Composition)
    requires RequestsTold(t, c) && x.epoch == c.epoch && x.document == c.document && x.lost == c.lost
    requires Refines(c.buffer, x.buffer)
    requires AllRegular(t) ==> forall q <- t.asked :: t.asked[q].epoch == c.epoch ==> NoneFixed(t.asked[q].snapshot, x.buffer.entries)
    ensures RequestsTold(t, x)
  {
    forall q <- t.asked | t.asked[q].epoch == c.epoch ensures SentOf(t, q, x.buffer) {
      RefinedTaken(t.asked[q].revision, t.asked[q].snapshot, c.buffer, x.buffer);
    }
  }

  lemma TruthfulIsRegular(t: Tracker, r: Result, epoch: nat)
    requires Truthful(t, r, epoch) && AllRegular(t)
    ensures Regular(r.requested, r.converted)
  {
  }

  // The composition after a result.
  lemma AppliedRequests(t: Tracker, c: Composition, r: Result, locked: Option<nat>)
    requires LogOk(t) && RequestsTold(t, c) && UniqueIds(c.buffer.entries) && Truthful(t, r, c.epoch)
    ensures RequestsTold(t, c.(buffer := MergeConversion(c.buffer, r.sequence, r.requested, r.converted, locked).buffer))
  {
    var x := c.(buffer := MergeConversion(c.buffer, r.sequence, r.requested, r.converted, locked).buffer);
    MergeRefines(c.buffer, r.sequence, r.requested, r.converted, locked);
    if AllRegular(t) {
      TruthfulIsRegular(t, r, c.epoch);
      assert SentOf(t, r.sequence, c.buffer);
      forall q <- t.asked | t.asked[q].epoch == c.epoch ensures NoneFixed(t.asked[q].snapshot, x.buffer.entries) {
        assert SentOf(t, q, c.buffer);
        AppliedFixed(t.asked[q].snapshot, c.buffer, r, locked);
      }
    }
    RefinedRequests(t, c, x);
  }

  lemma GivenInTurn(t: Tracker, c: Composition, rs: seq<Result>)
    requires LogOk(t) && RequestsTold(t, c) && forall r <- rs :: Truthful(t, r, c.epoch)
    ensures InTurn(rs, c.buffer.entries)
  {
    forall r <- rs ensures Proper(r) && Succeeds(r.requested, c.buffer.entries) {
      assert SentOf(t, r.sequence, c.buffer);
    }
    forall r <- rs, w <- rs | r.sequence < w.sequence ensures Succeeds(r.requested, w.requested) {
      assert Truthful(t, r, c.epoch) && Truthful(t, w, c.epoch);
    }
  }

  lemma GivenOneMore(t: Tracker, rs: seq<Result>, epoch: nat, queue: seq<Edit>, r: Result, after: seq<Edit>)
    requires Given(t, rs, epoch, queue) && Truthful(t, r, epoch) && r.sequence in Carries(queue) && r.sequence !in Carries(after)
    requires forall q <- Carries(after) :: q in Carries(queue)
    ensures Given(t, rs + [r], epoch, after)
  {
    forall i | 0 <= i < |rs| ensures rs[i].sequence != r.sequence {
      assert rs[i] in rs;
    }
  }

  lemma ApplyIs(c: Composition, r: Result, request: Request)
    requires request.snapshot == r.requested
    ensures var m := MergeConversion(c.buffer, r.sequence, r.requested, r.converted, c.candidates.entry);
            Apply(c, r.sequence, request, r.converted).0 ==
              c.(buffer := m.buffer, applied := c.applied + [r], candidates := HeldNow(c.candidates, r, m.held),
                 converted := if request.revision == m.buffer.revision then Some(request.revision) else c.converted)
  {
  }

  lemma AppliedTold(t: Tracker, c: Composition, r: Result, request: Request, queue: seq<Edit>, after: seq<Edit>)
    requires LogOk(t) && CompositionTold(t, c, queue) && Wf(c.buffer) && Truthful(t, r, c.epoch) && t.asked[r.sequence] == request
    requires r.sequence in Carries(queue) && r.sequence !in Carries(after) && NothingMore(queue, after)
    ensures CompositionTold(t, Apply(c, r.sequence, request, r.converted).0, after)
  {
    hide NewestMerged, HeldTold, InTurn, Succeeds, MergeConversion;
    var all := c.applied + [r];
    var x := Apply(c, r.sequence, request, r.converted).0;
    ApplyIs(c, r, request);
    GivenOneMore(t, c.applied, c.epoch, queue, r, after);
    GivenInTurn(t, c, all);
    AppliedRequests(t, c, r, c.candidates.entry);
    RequestsOfBuffer(t, c.(buffer := x.buffer), x);
    LastAppended(c.applied, r);
    UpToMore(c.buffer.entries, LastSequence(c.applied), LastSequence(all));
    assert Proper(r);
    AppliedUpTo(c.buffer, r, c.candidates.entry, LastSequence(all));
    StillHeldTold(c.buffer, r, c.candidates, c.applied);
    StillNewestMerged(c.buffer, c.applied, r, c.candidates);
    MergeRefines(c.buffer, r.sequence, r.requested, r.converted, c.candidates.entry);
    AppliedConverted(t, c, x, r, request);
  }

  lemma RequestsOfBuffer(t: Tracker, c: Composition, x: Composition)
    requires RequestsTold(t, c) && x.epoch == c.epoch && x.document == c.document && x.lost == c.lost && x.buffer == c.buffer
    ensures RequestsTold(t, x)
  {
  }

  lemma UpToMore(s: seq<Entry>, a: nat, b: nat)
    requires ConvertedUpTo(s, a) && a <= b
    ensures ConvertedUpTo(s, b)
  {
  }

  lemma AppliedConverted(t: Tracker, c: Composition, x: Composition, r: Result, request: Request)
    requires ConvertedTold(t, c) && Truthful(t, r, c.epoch) && t.asked[r.sequence] == request
    requires x.buffer.revision == c.buffer.revision && x.applied == c.applied + [r] && x.lost == c.lost
    requires x.converted == if request.revision == x.buffer.revision then Some(request.revision) else c.converted
    ensures ConvertedTold(t, x)
  {
    assert r in x.applied && forall y <- c.applied :: y in x.applied;
  }

  // ---- the list is closed ------------------------------------------------------------------

  function Released(c: Composition): Composition
    requires c.candidates.held.Some?
  {
    var held := c.candidates.held.value;
    c.(candidates := UNLOCKED, buffer := MergeConversion(c.buffer, held.sequence, [held.requested], [held.converted], None).buffer)
  }

  // The held output is part of a result given, asked for under its sequence.
  lemma HeldIsGiven(t: Tracker, c: Composition, queue: seq<Edit>) returns (r: Result, k: nat)
    requires c.candidates.held.Some? && HeldTold(c.candidates.held, c.applied) && Given(t, c.applied, c.epoch, queue)
    ensures r in c.applied && Truthful(t, r, c.epoch) && k < |r.requested| == |r.converted| && HoldsOutput(c.candidates.held, r, k)
  {
    r, k :| r in c.applied && k < |r.requested| == |r.converted| && HoldsOutput(c.candidates.held, r, k);
  }

  // One output of a result, by itself.
  lemma OneOutput(r: Result, k: nat, s: seq<Entry>)
    requires k < |r.requested| == |r.converted| && Succeeds(r.requested, s)
    ensures Succeeds([r.requested[k]], s)
    ensures Regular(r.requested, r.converted) ==> Regular([r.requested[k]], [r.converted[k]])
  {
    assert r.requested[k] in r.requested;
  }

  lemma ReleasedRequests(t: Tracker, c: Composition, queue: seq<Edit>)
    requires LogOk(t) && RequestsTold(t, c) && UniqueIds(c.buffer.entries) && c.candidates.held.Some?
    requires HeldTold(c.candidates.held, c.applied) && Given(t, c.applied, c.epoch, queue)
    ensures RequestsTold(t, Released(c))
  {
    hide MergeConversion, Refines, Succeeds;
    var held := c.candidates.held.value;
    var one := Result(held.sequence, [held.requested], [held.converted]);
    var r, k := HeldIsGiven(t, c, queue);
    MergeRefines(c.buffer, held.sequence, [held.requested], [held.converted], None);
    if AllRegular(t) {
      TruthfulIsRegular(t, r, c.epoch);
      assert SentOf(t, r.sequence, c.buffer);
      OneOutput(r, k, c.buffer.entries);
      forall q <- t.asked | t.asked[q].epoch == c.epoch ensures NoneFixed(t.asked[q].snapshot, Released(c).buffer.entries) {
        assert SentOf(t, q, c.buffer);
        AppliedFixed(t.asked[q].snapshot, c.buffer, one, None);
      }
    }
    RefinedRequests(t, c, Released(c));
  }

  lemma ReleasedTold(t: Tracker, c: Composition, queue: seq<Edit>)
    requires LogOk(t) && CompositionTold(t, c, queue) && Wf(c.buffer) && c.candidates.held.Some?
    ensures CompositionTold(t, Released(c), queue)
  {
    hide NewestMerged, InTurn, MergeConversion, RequestsTold, LogOk;
    var held := c.candidates.held.value;
    ReleasedRequests(t, c, queue);
    GivenInTurn(t, c, c.applied);
    ReleasedMerged(c.buffer, c.applied, held);
    HeldIsOlder(c.candidates.held, c.applied);
    AppliedUpTo(c.buffer, Result(held.sequence, [held.requested], [held.converted]), None, LastSequence(c.applied));
    MergeRefines(c.buffer, held.sequence, [held.requested], [held.converted], None);
  }

  // ---- accepted locally ----------------------------------------------------------------------

  function Accepted(c: Composition): Composition {
    c.(converted := Some(c.buffer.revision), buffer := c.buffer.(entries := AcceptLocal(c.buffer.entries)))
  }

  lemma AcceptedRequests(t: Tracker, c: Composition)
    requires RequestsTold(t, c) && Wf(c.buffer)
    ensures RequestsTold(t, Accepted(c))
  {
    AcceptRefines(c.buffer);
    if AllRegular(t) {
      forall q <- t.asked | t.asked[q].epoch == c.epoch ensures NoneFixed(t.asked[q].snapshot, Accepted(c).buffer.entries) {
        assert SentOf(t, q, c.buffer);
        AcceptedFixed(t.asked[q].snapshot, c.buffer.entries);
      }
    }
    RefinedRequests(t, c, Accepted(c));
  }

  lemma AcceptedNewest(s: seq<Entry>, rs: seq<Result>, held: Option<Held>)
    requires NewestMerged(s, rs, held) && ConvertedUpTo(s, LastSequence(rs))
    ensures NewestMerged(AcceptLocal(s), rs, held) && ConvertedUpTo(AcceptLocal(s), LastSequence(rs))
  {
    var r := AcceptLocal(s);
    forall w <- rs | w.sequence == LastSequence(rs) ensures MergedBut(r, w, held) {
      AcceptedMerged(s, w, held);
    }
    forall e <- r ensures e.convertedBy <= LastSequence(rs) {
      var i :| 0 <= i < |r| && r[i] == e;
      assert s[i] in s;
    }
  }

  lemma AcceptedTold(t: Tracker, c: Composition, queue: seq<Edit>, after: seq<Edit>)
    requires CompositionTold(t, c, queue) && Wf(c.buffer) && c.lost && NothingMore(queue, after)
    ensures CompositionTold(t, Accepted(c), after)
  {
    hide RequestsTold, NewestMerged, ConvertedUpTo, Given;
    AcceptedRequests(t, c);
    AcceptedNewest(c.buffer.entries, c.applied, c.candidates.held);
    GivenStays(t, t, c.applied, c.epoch, queue, after);
  }
}
