/** Running edits never leaves a sealed segment stuck. */
module MovingProofs {
  import opened Wrappers
  import opened Bopomofo
  import opened Buffers
  import opened BufferProofs
  import opened CandidateLocks
  import opened Conversions
  import opened Documents
  import opened DocumentProofs
  import opened DocumentInv
  import opened DocumentSteps
  import opened Controller
  import opened ControllerInv
  import opened GrantProofs
  import opened SegmentGrants

  // The edit may be what a segment of the epoch is waiting for.
  predicate Concerns(e: Edit, epoch: nat) {
    e == ReadContext(epoch) || (e.ApplyResult? && e.request.epoch == epoch)
  }

  // A segment kept its stage, or became final.
  predicate Follows(x: Segment, segments: seq<Segment>) {
    x.stage.Finished? || exists y <- segments :: y.epoch == x.epoch && y.stage == x.stage
  }

  lemma RestMoves(x: Segment, queue: seq<Edit>, after: seq<Edit>, t: Tracker, d: DocId)
    requires MovesOn(x, queue, t, d) && queue != [] && !Concerns(queue[0], x.epoch)
    requires forall e <- queue[1..] :: e in after
    ensures MovesOn(x, after, t, d)
  {
    assert forall e <- queue :: e == queue[0] || e in queue[1..];
  }

  lemma FollowsMoves(doc: Doc, r: Doc, d: DocId, t: Tracker)
    requires DocMoves(doc, d, t) && doc.queue != [] && (forall e <- doc.queue[1..] :: e in r.queue)
    requires forall x <- r.segments :: Follows(x, doc.segments) && (x.stage.Finished? || !Concerns(doc.queue[0], x.epoch))
    ensures DocMoves(r, d, t)
  {
    forall x <- r.segments ensures MovesOn(x, r.queue, t, d) {
      if !x.stage.Finished? {
        var y :| y in doc.segments && y.epoch == x.epoch && y.stage == x.stage;
        RestMoves(y, doc.queue, r.queue, t, d);
      }
    }
  }

  lemma GrowthMoves(x: Segment, queue: seq<Edit>, t: Tracker, r: Tracker, epoch: nat, d: DocId)
    requires MovesOn(x, queue, t, d) && x.epoch != epoch && TrackerGrows(t, r, epoch)
    ensures MovesOn(x, queue, r, d)
  {
  }

  // What other documents wait for.
  lemma OthersMove(s: State, r: State, d: DocId, epoch: nat)
    requires Moving(s) && d in s.docs && d in r.docs && r.docs == s.docs[d := r.docs[d]]
    requires r.conversions == s.conversions ||
               (TrackerGrows(s.conversions, r.conversions, epoch) &&
                forall x <- s.docs :: x != d ==> epoch !in Epochs(s.docs[x].segments))
    requires DocMoves(r.docs[d], d, r.conversions)
    ensures Moving(r)
  {
    forall a <- r.docs ensures DocMoves(r.docs[a], a, r.conversions) {
      if a != d && r.conversions != s.conversions {
        var doc := s.docs[a];
        forall x <- doc.segments ensures MovesOn(x, doc.queue, r.conversions, a) {
          var i :| 0 <= i < |doc.segments| && doc.segments[i] == x;
          assert Epochs(doc.segments)[i] == x.epoch;
          GrowthMoves(x, doc.queue, s.conversions, r.conversions, epoch, a);
        }
      }
    }
  }

  lemma SelfFollows(segments: seq<Segment>)
    ensures forall x <- segments :: Follows(x, segments)
  {
  }

  // No segment is one of the live composition.
  lemma LiveIsNoSegment(s: State, d: DocId)
    requires s.comp.Some? && CompOk(s) && d in s.docs && DocOk(s, d)
    ensures s.comp.value.epoch !in Epochs(s.docs[d].segments)
    ensures forall x <- s.docs[d].segments :: x.epoch != s.comp.value.epoch
  {
    var segments := s.docs[d].segments;
    forall i | 0 <= i < |segments| ensures Epochs(segments)[i] < s.comp.value.epoch && segments[i].epoch == Epochs(segments)[i] {
      SegmentEpoch(s, d, i);
    }
  }

  // ---- edits that wait for nothing ------------------------------------------------------

  lemma PlainEditFollows(doc: Doc, d: DocId)
    requires doc.queue != [] && (doc.queue[0].Seal? || doc.queue[0].Backspace? || doc.queue[0].WriteFinished?)
    ensures var r := if doc.queue[0].Seal? then Placed(HostSeals(Rest(doc), doc.queue[0].epoch), doc.queue[0].epoch)
                     else if doc.queue[0].Backspace? then EraseInOrder(Rest(doc)) else WriteFrom(Rest(doc), 0, false);
            forall x <- r.segments :: Follows(x, doc.segments)
  {
    SelfFollows(doc.segments);
    if doc.queue[0].Seal? {
      var segments := HostSeals(Rest(doc), doc.queue[0].epoch).segments;
      var i := SegmentOf(segments, doc.queue[0].epoch);
      if i < |segments| {
        var x := segments[i].(inDocument := true);
        assert Follows(x, segments);
        assert forall y <- segments[i := x] :: y == x || y in segments;
      }
    } else if doc.queue[0].Backspace? {
      var i := NewestAtCaret(Rest(doc));
      if i >= 0 {
        var x := EraseLast(doc.segments[i]);
        assert Follows(x, doc.segments);
        assert forall y <- doc.segments[i := x] :: y == x || y in doc.segments;
      }
    } else {
      WriteFromDone(Rest(doc), 0);
    }
  }

  lemma PlainEditMoves(s: State, d: DocId)
    requires d in s.docs && GrantInv(s, d) && Moving(s) && s.docs[d].queue != []
    requires s.docs[d].queue[0].Seal? || s.docs[d].queue[0].Backspace? || s.docs[d].queue[0].WriteFinished?
    ensures Moving(RunFront(s, d))
  {
    var doc, r := s.docs[d], RunFront(s, d);
    RunFrontQueue(s, d);
    PlainEditFollows(doc, d);
    if doc.queue[0].Seal? {
      SealIs(s, d);
    } else if doc.queue[0].Backspace? {
      EraseIs(s, d);
    } else {
      WriteIs(s, d);
    }
    FollowsMoves(doc, r.docs[d], d, s.conversions);
    OthersMove(s, r, d, 0);
  }

  // Edits of the live composition and of ended ones touch no segment.
  lemma UntouchedMoves(s: State, r: State, d: DocId)
    requires d in s.docs && DocOk(s, d) && CompOk(s) && Moving(s) && s.docs[d].queue != []
    requires d in r.docs && r.docs == s.docs[d := r.docs[d]] && r.conversions == s.conversions
    requires r.docs[d].segments == s.docs[d].segments && r.docs[d].queue == s.docs[d].queue[1..]
    requires var e := s.docs[d].queue[0];
             e.ReadContext? || e.ApplyResult? ==> s.comp.Some? && EpochOf(e) == Some(s.comp.value.epoch)
    ensures Moving(r)
  {
    if s.comp.Some? {
      LiveIsNoSegment(s, d);
    }
    SelfFollows(s.docs[d].segments);
    FollowsMoves(s.docs[d], r.docs[d], d, s.conversions);
    OthersMove(s, r, d, 0);
  }

  lemma EndedEditMoves(s: State, d: DocId)
    requires d in s.docs && GrantInv(s, d) && Moving(s) && s.docs[d].queue != [] && ForEnded(s, s.docs[d].queue[0])
    ensures Moving(RunFront(s, d))
  {
    EndedEditRuns(s, d);
    EndedEditCalls(s.docs[d]);
    UntouchedMoves(s, RunFront(s, d), d);
  }

  lemma LiveEditIs(s: State, d: DocId)
    requires d in s.docs && s.docs[d].queue != [] && Owns(s, d)
    requires var e := s.docs[d].queue[0];
             (e.Show? || e.ApplyResult? || e.AcceptLocally?) && LiveEpoch(s, EpochOf(e).value)
    ensures var r := RunFront(s, d);
            && d in r.docs && r.docs == s.docs[d := r.docs[d]] && r.conversions == s.conversions
            && r.docs[d].segments == s.docs[d].segments && r.docs[d].queue == s.docs[d].queue[1..]
  {
    if s.docs[d].queue[0].ApplyResult? {
      LiveApplyIs(s, d);
    }
  }

  lemma LiveEditMoves(s: State, d: DocId)
    requires d in s.docs && GrantInv(s, d) && Moving(s) && s.docs[d].queue != []
    requires var e := s.docs[d].queue[0];
             (e.Show? || e.ApplyResult? || e.AcceptLocally?) && LiveEpoch(s, EpochOf(e).value)
    ensures Moving(RunFront(s, d))
  {
    LiveIsOwned(s, d, EpochOf(s.docs[d].queue[0]).value);
    LiveEditIs(s, d);
    UntouchedMoves(s, RunFront(s, d), d);
  }

  // ---- the text before a composition is known -------------------------------------------------

  // The live composition's epoch is none of any segment.
  lemma LiveElsewhere(s: State)
    requires Base(s) && s.comp.Some?
    ensures forall a <- s.docs :: s.comp.value.epoch !in Epochs(s.docs[a].segments)
    ensures forall a <- s.docs :: forall x <- s.docs[a].segments :: x.epoch != s.comp.value.epoch
  {
    forall a <- s.docs
      ensures s.comp.value.epoch !in Epochs(s.docs[a].segments)
      ensures forall x <- s.docs[a].segments :: x.epoch != s.comp.value.epoch
    {
      LiveIsNoSegment(s, a);
    }
  }

  lemma LiveReadResult(s: State, d: DocId)
    requires d in s.docs && s.docs[d].queue != [] && Owns(s, d)
    requires s.docs[d].queue[0].ReadContext? && LiveEpoch(s, s.docs[d].queue[0].epoch)
    ensures RunFront(s, d).docs == s.docs[d := HostReads(Rest(s.docs[d]), s.docs[d].queue[0].epoch)]
  {
    LiveReadIs(s, d);
  }

  // No segment is concerned, and what is sent is of another epoch.
  lemma UnconcernedMoves(doc: Doc, after: Doc, t: Tracker, r: Tracker, d: DocId)
    requires DocMoves(doc, d, t) && doc.queue != [] && doc.queue[0].ReadContext?
    requires after.segments == doc.segments && after.queue == doc.queue[1..]
    requires forall x <- doc.segments :: x.epoch != doc.queue[0].epoch
    requires r == t || TrackerGrows(t, r, doc.queue[0].epoch)
    ensures DocMoves(after, d, r)
  {
    SelfFollows(doc.segments);
    FollowsMoves(doc, after, d, t);
    if r != t {
      forall x <- after.segments ensures MovesOn(x, after.queue, r, d) {
        GrowthMoves(x, after.queue, t, r, doc.queue[0].epoch, d);
      }
    }
  }

  lemma LiveReadMoves(s: State, d: DocId)
    requires d in s.docs && GrantInv(s, d) && Moving(s) && s.docs[d].queue != []
    requires s.docs[d].queue[0].ReadContext? && LiveEpoch(s, s.docs[d].queue[0].epoch)
    ensures Moving(RunFront(s, d))
  {
    var doc, epoch, r := s.docs[d], s.docs[d].queue[0].epoch, RunFront(s, d);
    LiveIsOwned(s, d, epoch);
    LiveReadResult(s, d);
    LiveRead(s, d);
    LiveElsewhere(s);
    UnconcernedMoves(doc, r.docs[d], s.conversions, r.conversions, d);
    OthersMove(s, r, d, epoch);
  }

  // Segment i is being touched; the others follow their own course.
  lemma TouchMoves(doc: Doc, rest: Doc, i: nat, x: Segment, write: bool, t: Tracker, r: Tracker, d: DocId)
    requires DocMoves(doc, d, t) && DocInv(doc, d) && doc.queue != [] && EpochOf(doc.queue[0]).Some?
    requires rest.queue == doc.queue[1..] && rest.segments == doc.segments && i < |rest.segments|
    requires EpochOf(doc.queue[0]) == Some(doc.segments[i].epoch) && x.epoch == doc.segments[i].epoch
    requires r == t || TrackerGrows(t, r, x.epoch)
    requires MovesOn(x, Touched(rest, i, x, write).queue, r, d)
    ensures DocMoves(Touched(rest, i, x, write), d, r)
  {
    var after := Touched(rest, i, x, write);
    forall y <- after.segments ensures MovesOn(y, after.queue, r, d) {
      var j :| 0 <= j < |after.segments| && after.segments[j] == y;
      if j != i {
        assert doc.segments[j] in doc.segments;
        assert Epochs(doc.segments)[j] == y.epoch && Epochs(doc.segments)[i] == x.epoch;
        RestMoves(y, doc.queue, after.queue, t, d);
        if r != t {
          GrowthMoves(y, after.queue, t, r, x.epoch, d);
        }
      }
    }
  }

  lemma SealedReadTouch(s: State, d: DocId) returns (i: nat, x: Segment, write: bool)
    requires d in s.docs && TrackerOk(s) && CompOk(s) && DocOk(s, d) && s.docs[d].queue != []
    requires s.docs[d].queue[0].ReadContext? && !LiveEpoch(s, s.docs[d].queue[0].epoch)
    ensures i == SegmentOf(s.docs[d].segments, s.docs[d].queue[0].epoch)
    ensures var doc, epoch, r := s.docs[d], s.docs[d].queue[0].epoch, RunFront(s, d);
            var rest := HostReads(Rest(doc), epoch);
            if i == |doc.segments| then r.docs == s.docs[d := rest] && r.conversions == s.conversions
            else r.docs == s.docs[d := Touched(rest, i, x, write)] && x.epoch == epoch
                 && TrackerGrows(s.conversions, r.conversions, epoch)
                 && (Assured(x, r.conversions, d) || (x.stage == doc.segments[i].stage && !x.stage.WaitingForContext? && r.conversions == s.conversions))
  {
    var doc, epoch := s.docs[d], s.docs[d].queue[0].epoch;
    var rest := HostReads(Rest(doc), epoch);
    SealedReadIs(s, d);
    var at := SegmentOf(rest.segments, epoch);
    if at < |rest.segments| {
      SegmentEpoch(s, d, at);
    }
    i, x, write := SealedContextKeeps(WithDoc(s, d, rest), d, epoch, ContextBefore(Rest(doc)));
    if i < |rest.segments| {
      WithDocTwice(s, d, rest, Touched(rest, i, x, write));
    }
  }

  lemma SealedReadMoves(s: State, d: DocId)
    requires d in s.docs && GrantInv(s, d) && Moving(s) && s.docs[d].queue != []
    requires s.docs[d].queue[0].ReadContext? && !LiveEpoch(s, s.docs[d].queue[0].epoch)
    ensures Moving(RunFront(s, d))
  {
    var doc, epoch, r := s.docs[d], s.docs[d].queue[0].epoch, RunFront(s, d);
    var rest := HostReads(Rest(doc), epoch);
    var i, x, write := SealedReadTouch(s, d);
    if i < |doc.segments| {
      StillMoves(doc, r.docs[d], i, x, s.conversions, r.conversions, d);
      TouchMoves(doc, rest, i, x, write, s.conversions, r.conversions, d);
      ApartFrom(s, d, i);
    } else {
      SegmentMissing(doc.segments, epoch);
      assert forall y <- doc.segments :: y.epoch != epoch;
      UnconcernedMoves(doc, rest, s.conversions, r.conversions, d);
    }
    OthersMove(s, r, d, epoch);
  }

  // The touched segment itself: its conversion was asked for, or it goes on as before.
  lemma StillMoves(doc: Doc, after: Doc, i: nat, x: Segment, t: Tracker, r: Tracker, d: DocId)
    requires DocMoves(doc, d, t) && doc.queue != [] && doc.queue[0].ReadContext? && i < |doc.segments|
    requires x.epoch == doc.segments[i].epoch && doc.queue[1..] <= after.queue
    requires Assured(x, r, d) || (x.stage == doc.segments[i].stage && !x.stage.WaitingForContext? && r == t)
    ensures MovesOn(x, after.queue, r, d)
  {
    if !Assured(x, r, d) {
      assert doc.segments[i] in doc.segments;
      assert forall e <- doc.queue :: e == doc.queue[0] || e in doc.queue[1..];
      assert forall e <- doc.queue[1..] :: e in after.queue;
    }
  }

  lemma ApartFrom(s: State, d: DocId, i: nat)
    requires EpochsApart(s) && d in s.docs && i < |s.docs[d].segments|
    ensures forall x <- s.docs :: x != d ==> s.docs[d].segments[i].epoch !in Epochs(s.docs[x].segments)
  {
    assert Epochs(s.docs[d].segments)[i] == s.docs[d].segments[i].epoch;
    assert s.docs[d].segments[i].epoch in Epochs(s.docs[d].segments);
  }

  // ---- results for sealed segments -----------------------------------------------------------------

  lemma SealedApplyMoves(s: State, d: DocId)
    requires d in s.docs && GrantInv(s, d) && Moving(s) && s.docs[d].queue != []
    requires s.docs[d].queue[0].ApplyResult? && !LiveEpoch(s, s.docs[d].queue[0].request.epoch)
    ensures Moving(RunFront(s, d))
  {
    var doc, e, r := s.docs[d], s.docs[d].queue[0], RunFront(s, d);
    var i := SegmentOf(doc.segments, e.request.epoch);
    SealedApplyIs(s, d);
    if i < |doc.segments| {
      var x := MergeSegment(doc.segments[i], e.sequence, e.request.snapshot, e.converted);
      ReplacedSegment(doc.segments, i, x);
      assert r.docs[d] == Touched(Rest(doc), i, x, x.stage.Finished?);
      AwaitedElsewhere(doc, r.docs[d], i, x, s.conversions, d);
      TouchMoves(doc, Rest(doc), i, x, x.stage.Finished?, s.conversions, s.conversions, d);
    } else {
      SegmentMissing(doc.segments, e.request.epoch);
      assert forall y <- doc.segments :: y.epoch != e.request.epoch;
      SelfFollows(doc.segments);
      FollowsMoves(doc, r.docs[d], d, s.conversions);
    }
    OthersMove(s, r, d, 0);
  }

  // A result that does not finish its segment is not the one awaited.
  lemma AwaitedElsewhere(doc: Doc, after: Doc, i: nat, x: Segment, t: Tracker, d: DocId)
    requires DocMoves(doc, d, t) && doc.queue != [] && doc.queue[0].ApplyResult? && i < |doc.segments|
    requires var e := doc.queue[0]; x == MergeSegment(doc.segments[i], e.sequence, e.request.snapshot, e.converted)
    requires doc.queue[1..] <= after.queue
    ensures MovesOn(x, after.queue, t, d)
  {
    assert doc.segments[i] in doc.segments && MovesOn(doc.segments[i], doc.queue, t, d);
    assert forall e <- doc.queue :: e == doc.queue[0] || e in doc.queue[1..];
    assert forall e <- doc.queue[1..] :: e in after.queue;
  }

  // ---- a grant ------------------------------------------------------------------------------------------

  lemma RunFrontMoves(s: State, d: DocId)
    requires d in s.docs && GrantInv(s, d) && Moving(s) && s.docs[d].queue != []
    ensures Moving(RunFront(s, d))
  {
    var e := s.docs[d].queue[0];
    match e
    case ReadContext(epoch) => if LiveEpoch(s, epoch) { LiveReadMoves(s, d); } else { SealedReadMoves(s, d); }
    case Show(epoch, _) => if LiveEpoch(s, epoch) { LiveEditMoves(s, d); } else { EndedEditMoves(s, d); }
    case ApplyResult(_, request, _) => if LiveEpoch(s, request.epoch) { LiveEditMoves(s, d); } else { SealedApplyMoves(s, d); }
    case AcceptLocally(epoch) => if LiveEpoch(s, epoch) { LiveEditMoves(s, d); } else { EndedEditMoves(s, d); }
    case Commit(_, _, _) => EndedNotLive(s, d); EndedEditMoves(s, d);
    case Discard(_) => EndedNotLive(s, d); EndedEditMoves(s, d);
    case Seal(_) => PlainEditMoves(s, d);
    case Backspace => PlainEditMoves(s, d);
    case WriteFinished => PlainEditMoves(s, d);
  }

  lemma {:induction false} DrainMoves(s: State, d: DocId)
    requires GrantInv(s, d) && Moving(s)
    ensures Moving(Drain(s, d))
    decreases if d in s.docs then Weight(s.docs[d].queue) else 0
  {
    if d in s.docs && s.docs[d].queue != [] {
      RunFrontKeeps(s, d);
      RunFrontMoves(s, d);
      RunFrontQueue(s, d);
      DrainMoves(RunFront(s, d), d);
    }
  }
}
