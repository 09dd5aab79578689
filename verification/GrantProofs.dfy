/** Running the edits of a granted document keeps the invariant. */
module GrantProofs {
  import opened Wrappers
  import opened Bopomofo
  import opened Buffers
  import opened BufferProofs
  import opened CandidateLocks
  import opened Conversions
  import opened Documents
  import opened DocumentProofs
  import opened DocumentInv
  import opened DocumentSteps
  import opened Controller
  import opened ControllerInv

  // ---- whose edit it is --------------------------------------------------------------

  function EpochOf(e: Edit): Option<nat> {
    match e
    case ReadContext(epoch) => Some(epoch)
    case Show(epoch, _) => Some(epoch)
    case ApplyResult(_, request, _) => Some(request.epoch)
    case AcceptLocally(epoch) => Some(epoch)
    case Commit(epoch, _, _) => Some(epoch)
    case Discard(epoch) => Some(epoch)
    case Seal(epoch) => Some(epoch)
    case Backspace => None
    case WriteFinished => None
  }

  // Every epoch begun so far is below it.
  function Reach(v: View): nat {
    match v
    case Idle(next) => next
    case Composing(epoch, _) => epoch + 1
  }

  lemma {:induction false} EpochsBelow(queue: seq<Edit>, v: View, segments: seq<Segment>)
    requires AllFit(queue, v, segments)
    ensures Reach(v) <= Reach(ViewAfter(queue, v))
    ensures forall e <- queue :: EpochOf(e).Some? ==> EpochOf(e).value < Reach(ViewAfter(queue, v))
  {
    if queue != [] {
      EpochsBelow(queue[1..], NextView(queue[0], v), segments);
      assert forall e <- queue :: e == queue[0] || e in queue[1..];
    }
  }

  // An edit of the live composition is queued in the document it is open in.
  lemma LiveIsOwned(s: State, d: DocId, epoch: nat)
    requires d in s.docs && s.docs[d].queue != []
    requires AllFit(s.docs[d].queue, s.docs[d].view, s.docs[d].segments) && EndsIn(s.docs[d], LiveOf(s, d), Limit(s))
    requires EpochOf(s.docs[d].queue[0]) == Some(epoch)
    ensures LiveEpoch(s, epoch) ==> Owns(s, d)
    ensures Owns(s, d) ==> epoch <= s.comp.value.epoch
  {
    EpochsBelow(s.docs[d].queue, s.docs[d].view, s.docs[d].segments);
    assert s.docs[d].queue[0] in s.docs[d].queue;
  }

  lemma WithDocTwice(s: State, d: DocId, a: Doc, b: Doc)
    ensures s.docs[d := a][d := b] == s.docs[d := b]
  {
  }

  // ---- one document changes -----------------------------------------------------------

  // The composition open in d may have changed, but it is still the same one;
  // no conversions are dropped.
  predicate SameComposition(s: State, r: State, d: DocId) {
    && r.conversions.dropped == s.conversions.dropped
    && if Owns(s, d) then
      Owns(r, d) && r.comp.value.epoch == s.comp.value.epoch && |r.comp.value.buffer.entries| == |s.comp.value.buffer.entries|
    else r.comp == s.comp
  }

  predicate OnlyDocument(s: State, r: State, d: DocId) {
    && d in s.docs && d in r.docs && r.docs == s.docs[d := r.docs[d]]
    && r.nextEpoch == s.nextEpoch && r.immediate == s.immediate
    && (forall e <- Epochs(r.docs[d].segments) :: e in Epochs(s.docs[d].segments))
  }

  ghost predicate LocalStep(s: State, r: State, d: DocId) {
    && OnlyDocument(s, r, d) && SameComposition(s, r, d)
    && DocOk(r, d) && Refreshing(r.docs[d], LiveOf(r, d)) && CompOk(r) && TrackerOk(r)
  }

  lemma OtherDocument(s: State, r: State, d: DocId, x: DocId)
    requires OnlyDocument(s, r, d) && SameComposition(s, r, d) && x in s.docs && x != d && DocOk(s, x)
    ensures x in r.docs && DocOk(r, x) && LiveOf(r, x) == LiveOf(s, x) && r.docs[x] == s.docs[x]
  {
  }

  lemma StillApart(s: State, r: State, d: DocId)
    requires OnlyDocument(s, r, d) && EpochsApart(s)
    ensures EpochsApart(r)
  {
    forall a <- r.docs, b <- r.docs | a != b
      ensures forall e <- Epochs(r.docs[a].segments) :: e !in Epochs(r.docs[b].segments)
    {
      assert a in s.docs && b in s.docs;
      assert forall e <- Epochs(r.docs[a].segments) :: e in Epochs(s.docs[a].segments);
      assert forall e <- Epochs(r.docs[b].segments) :: e in Epochs(s.docs[b].segments);
    }
  }

  lemma LocalSuffices(s: State, r: State, d: DocId)
    requires GrantInv(s, d) && LocalStep(s, r, d)
    ensures GrantInv(r, d)
  {
    StillApart(s, r, d);
    forall x <- r.docs ensures DocOk(r, x) && (x != d ==> UpToDate(r.docs[x], LiveOf(r, x))) {
      if x != d {
        OtherDocument(s, r, d, x);
      }
    }
  }

  // ---- the live composition is not touched ----------------------------------------------

  // The queue carries no other results than before.
  predicate NoNewResults(a: seq<Edit>, b: seq<Edit>) {
    forall e <- b :: e.ApplyResult? ==> e in a
  }

  // Nothing about the epoch changed, but that a result may be gone.
  predicate EpochUntouched(t: Tracker, r: Tracker, epoch: nat) {
    && (epoch in t.newest ==> epoch in r.newest && r.newest[epoch] == t.newest[epoch])
    && (forall q <- r.pending ::
          (q in t.pending && r.pending[q] == t.pending[q]) || (r.pending[q].epoch != epoch && q > t.sequence))
  }

  lemma CompUntouched(s: State, r: State)
    requires CompOk(s) && TrackerOk(s) && r.comp == s.comp && r.nextEpoch == s.nextEpoch
    requires s.comp.Some? ==>
               var c := s.comp.value;
               && c.document in r.docs
               && NoNewResults(s.docs[c.document].queue, r.docs[c.document].queue)
               && EpochUntouched(s.conversions, r.conversions, c.epoch)
    ensures CompOk(r)
  {
  }

  // ---- edits of a composition that has ended ----------------------------------------------

  // A composition being ended by the front edit is not the live one.
  lemma EndedNotLive(s: State, d: DocId)
    requires d in s.docs && DocOk(s, d) && s.docs[d].queue != []
    requires s.docs[d].queue[0].Commit? || s.docs[d].queue[0].Discard? || s.docs[d].queue[0].Seal?
    ensures !LiveEpoch(s, s.docs[d].queue[0].epoch)
  {
    var doc := s.docs[d];
    var epoch := doc.queue[0].epoch;
    LiveIsOwned(s, d, epoch);
    if LiveEpoch(s, epoch) {
      NeverBack(doc.queue[1..], NextView(doc.queue[0], doc.view), doc.segments, epoch);
      assert false;
    }
  }

  // What is left of the queue ends as before.
  lemma RestEnds(s: State, d: DocId, r: Doc)
    requires d in s.docs && s.docs[d].queue != []
    requires EndsIn(s.docs[d], LiveOf(s, d), Limit(s)) && Refreshing(s.docs[d], LiveOf(s, d))
    requires r.queue == s.docs[d].queue[1..] && r.view == NextView(s.docs[d].queue[0], s.docs[d].view)
    requires EpochOf(s.docs[d].queue[0]).Some? ==> !LiveEpoch(s, EpochOf(s.docs[d].queue[0]).value)
    ensures EndsIn(r, LiveOf(s, d), Limit(s)) && Refreshing(r, LiveOf(s, d))
  {
    assert forall e <- s.docs[d].queue :: e == s.docs[d].queue[0] || e in r.queue;
  }

  lemma RestWrites(doc: Doc, r: Doc)
    requires doc.queue != [] && !doc.queue[0].WriteFinished? && WritesQueued(doc)
    requires r.segments == doc.segments && doc.queue[1..] <= r.queue
    ensures WritesQueued(r)
  {
    assert forall e <- doc.queue[1..] :: e in r.queue;
    assert forall e <- doc.queue :: e == doc.queue[0] || e in doc.queue[1..];
  }

  // An edit that shows or ends a composition that has ended itself.
  predicate ForEnded(s: State, e: Edit) {
    && (e.Show? || e.Commit? || e.Discard? || e.AcceptLocally?)
    && !LiveEpoch(s, e.epoch)
  }

  function EndedEditResult(doc: Doc): Doc
    requires doc.queue != []
  {
    match doc.queue[0]
    case Show(epoch, ended) => HostRenders(Rest(doc), epoch, ended)
    case Commit(epoch, sample, entries) => RunCommit(Rest(doc), epoch, sample, entries)
    case Discard(epoch) => HostDiscards(Rest(doc), epoch)
    case _ => Rest(doc)
  }

  lemma EndedEditInv(doc: Doc, d: DocId)
    requires DocInv(doc, d) && doc.queue != []
    requires var e := doc.queue[0]; e.Show? || e.Commit? || e.Discard? || e.AcceptLocally?
    ensures DocInv(EndedEditResult(doc), d)
  {
    if doc.queue[0].Commit? {
      CommitRuns(doc, d);
    } else {
      PopKeeps(doc, d, EndedEditResult(doc));
    }
  }

  lemma EndedEditCalls(doc: Doc)
    requires CallsOk(doc) && doc.queue != [] && Fits(doc.queue[0], doc.view, doc.segments)
    requires var e := doc.queue[0]; e.Show? || e.Commit? || e.Discard? || e.AcceptLocally?
    ensures var r := EndedEditResult(doc);
            CallsOk(r) && r.view == NextView(doc.queue[0], doc.view) && r.queue == doc.queue[1..] && r.segments == doc.segments
  {
    match doc.queue[0]
    case Show(epoch, ended) => CallsAppend(doc.calls, Rendered(epoch, ended.text));
    case Commit(epoch, _, entries) => CallsAppend(doc.calls, Committed(epoch, FinalText(entries)));
    case Discard(epoch) => CallsAppend(doc.calls, Discarded(epoch));
    case _ =>
  }

  lemma EndedEditRuns(s: State, d: DocId)
    requires d in s.docs && s.docs[d].queue != [] && ForEnded(s, s.docs[d].queue[0])
    ensures RunFront(s, d) == WithDoc(s, d, EndedEditResult(s.docs[d]))
  {
  }

  lemma EndedEdit(s: State, d: DocId)
    requires d in s.docs && GrantInv(s, d) && s.docs[d].queue != [] && ForEnded(s, s.docs[d].queue[0])
    ensures GrantInv(RunFront(s, d), d) && SameComposition(s, RunFront(s, d), d)
  {
    hide TrackerInv, RequestsFit, SentOk, FutureText;
    var r := RunFront(s, d);
    EndedEditRuns(s, d);
    EndedEditInv(s.docs[d], d);
    EndedEditCalls(s.docs[d]);
    RestEnds(s, d, r.docs[d]);
    RestWrites(s.docs[d], r.docs[d]);
    assert forall e <- r.docs[d].queue :: e in s.docs[d].queue;
    CompUntouched(s, r);
    LocalSuffices(s, r, d);
  }

  // ---- edits of the live composition --------------------------------------------------------

  // The host shows the live composition in any state.
  lemma LiveRender(doc: Doc, d: DocId, epoch: nat, shown: Rendering)
    requires DocInv(doc, d) && CallsOk(doc) && doc.queue != []
    requires !doc.queue[0].WriteFinished? && LiveEdit(doc.queue[0], epoch) && Composes(ViewAfter(doc.queue, doc.view), epoch)
    ensures var r := HostRenders(Rest(doc), epoch, shown);
            && DocInv(r, d) && CallsOk(r) && Composes(ViewAfter(r.queue, r.view), epoch)
            && (!ShowsEpoch(r.queue, epoch) ==> ViewAfter(r.queue, r.view) == r.view)
  {
    var popped := Rest(doc).(view := NextView(doc.queue[0], doc.view));
    var r := HostRenders(Rest(doc), epoch, shown);
    PopKeeps(doc, d, popped);
    ShowsOther(popped, d, r, epoch);
    LiveTail(popped.queue, popped.view, r.view, doc.segments, epoch);
    CallsAppend(doc.calls, Rendered(epoch, shown.text));
  }

  // The composition as it is after an edit of its own, and its document.
  predicate LiveChange(s: State, r: State, d: DocId)
    requires d in s.docs && s.docs[d].queue != []
  {
    && Owns(s, d) && Owns(r, d)
    && var c, x := s.comp.value, r.comp.value;
    && x.epoch == c.epoch && x.preceding == c.preceding && |x.buffer.entries| == |c.buffer.entries|
    && (|| r == WithDoc(WithComp(s, x), d, HostRenders(Rest(s.docs[d]), c.epoch, Render(x.buffer)))
        || (r == WithDoc(WithComp(s, x), d, Rest(s.docs[d])) && x.buffer == c.buffer && !s.docs[d].queue[0].Show?))
  }

  lemma LiveDoc(s: State, r: State, d: DocId)
    requires d in s.docs && DocOk(s, d) && Refreshing(s.docs[d], LiveOf(s, d)) && s.docs[d].queue != [] && LiveChange(s, r, d)
    requires !s.docs[d].queue[0].WriteFinished? && LiveEdit(s.docs[d].queue[0], s.comp.value.epoch)
    ensures DocOk(r, d) && Refreshing(r.docs[d], LiveOf(r, d))
  {
    var doc, after, c, x := s.docs[d], r.docs[d], s.comp.value, r.comp.value;
    assert forall e <- doc.queue :: e == doc.queue[0] || e in after.queue;
    LiveRender(doc, d, c.epoch, Render(x.buffer));
    if after.calls == doc.calls {
      PopKeeps(doc, d, after);
    }
    RestWrites(doc, after);
  }

  lemma LiveStep(s: State, r: State, d: DocId)
    requires d in s.docs && GrantInv(s, d) && s.docs[d].queue != [] && LiveChange(s, r, d) && CompOk(r)
    requires !s.docs[d].queue[0].WriteFinished? && LiveEdit(s.docs[d].queue[0], s.comp.value.epoch)
    ensures GrantInv(r, d) && SameComposition(s, r, d)
  {
    LiveDoc(s, r, d);
    LocalSuffices(s, r, d);
  }

  // A buffer that evolves keeps what was asked for fitting.
  lemma CompEvolves(s: State, r: State, d: DocId)
    requires d in s.docs && CompOk(s) && Owns(s, d) && Owns(r, d) && d in r.docs && r.nextEpoch == s.nextEpoch
    requires r.conversions == s.conversions && NoNewResults(s.docs[d].queue, r.docs[d].queue)
    requires var c, x := s.comp.value, r.comp.value;
             && x.epoch == c.epoch && x.sent == c.sent && Wf(x.buffer) && Evolves(c.buffer, x.buffer)
             && (x.candidates.held.Some? ==> RequestFits([x.candidates.held.value.requested], c.buffer))
    ensures CompOk(r)
  {
    var c, x, t := s.comp.value, r.comp.value, s.conversions;
    forall q <- t.pending | t.pending[q].epoch == c.epoch ensures RequestFits(t.pending[q].snapshot, x.buffer) {
      EvolvesFits(t.pending[q].snapshot, c.buffer, x.buffer);
    }
    forall e <- r.docs[d].queue | e.ApplyResult? && e.request.epoch == c.epoch
      ensures RequestFits(e.request.snapshot, x.buffer)
    {
      EvolvesFits(e.request.snapshot, c.buffer, x.buffer);
    }
    if x.candidates.held.Some? {
      EvolvesFits([x.candidates.held.value.requested], c.buffer, x.buffer);
    }
  }

  lemma RestHasNoNewResults(doc: Doc)
    requires doc.queue != []
    ensures NoNewResults(doc.queue, Rest(doc).queue) && NoNewResults(doc.queue, Rest(doc).queue + [WriteFinished])
  {
  }

  lemma LiveShow(s: State, d: DocId)
    requires d in s.docs && GrantInv(s, d) && s.docs[d].queue != []
    requires s.docs[d].queue[0].Show? && LiveEpoch(s, s.docs[d].queue[0].epoch)
    ensures GrantInv(RunFront(s, d), d) && SameComposition(s, RunFront(s, d), d)
  {
    var r := RunFront(s, d);
    LiveIsOwned(s, d, s.docs[d].queue[0].epoch);
    RestHasNoNewResults(s.docs[d]);
    LiveShowIs(s, d);
    CompUntouched(s, r);
    LiveStep(s, r, d);
  }

  lemma LiveShowIs(s: State, d: DocId)
    requires d in s.docs && s.docs[d].queue != [] && Owns(s, d)
    requires s.docs[d].queue[0].Show? && LiveEpoch(s, s.docs[d].queue[0].epoch)
    ensures RunFront(s, d) == WithDoc(s, d, HostRenders(Rest(s.docs[d]), s.comp.value.epoch, Render(s.comp.value.buffer)))
  {
  }

  lemma ApplyKeeps(c: Composition, sequence: nat, request: Request, converted: seq<Output>)
    requires Wf(c.buffer) && RequestFits(request.snapshot, c.buffer)
    requires c.candidates.held.Some? ==> RequestFits([c.candidates.held.value.requested], c.buffer)
    ensures var (x, changed) := Apply(c, sequence, request, converted);
            && x == c.(buffer := x.buffer, candidates := x.candidates, converted := x.converted, applied := x.applied)
            && Wf(x.buffer) && Evolves(c.buffer, x.buffer) && |x.buffer.entries| == |c.buffer.entries|
            && (!changed ==> x.buffer == c.buffer)
            && (x.candidates.held.Some? ==> RequestFits([x.candidates.held.value.requested], c.buffer))
  {
    MergeKeeps(c.buffer, sequence, request.snapshot, converted, c.candidates.entry);
  }

  lemma LiveApply(s: State, d: DocId)
    requires d in s.docs && GrantInv(s, d) && s.docs[d].queue != []
    requires s.docs[d].queue[0].ApplyResult? && LiveEpoch(s, s.docs[d].queue[0].request.epoch)
    ensures GrantInv(RunFront(s, d), d) && SameComposition(s, RunFront(s, d), d)
  {
    var e, r, c := s.docs[d].queue[0], RunFront(s, d), s.comp.value;
    LiveIsOwned(s, d, e.request.epoch);
    RestHasNoNewResults(s.docs[d]);
    assert e in s.docs[d].queue && RequestFits(e.request.snapshot, c.buffer);
    ApplyKeeps(c, e.sequence, e.request, e.converted);
    LiveApplyIs(s, d);
    CompEvolves(s, r, d);
    LiveStep(s, r, d);
  }

  lemma LiveApplyIs(s: State, d: DocId)
    requires d in s.docs && s.docs[d].queue != [] && Owns(s, d)
    requires s.docs[d].queue[0].ApplyResult? && LiveEpoch(s, s.docs[d].queue[0].request.epoch)
    ensures var e := s.docs[d].queue[0];
            var (x, changed) := Apply(s.comp.value, e.sequence, e.request, e.converted);
            RunFront(s, d) ==
              WithDoc(WithComp(s, x), d,
                      if changed then HostRenders(Rest(s.docs[d]), x.epoch, Render(x.buffer)) else Rest(s.docs[d]))
  {
  }

  lemma LiveAccept(s: State, d: DocId)
    requires d in s.docs && GrantInv(s, d) && s.docs[d].queue != []
    requires s.docs[d].queue[0].AcceptLocally? && LiveEpoch(s, s.docs[d].queue[0].epoch)
    ensures GrantInv(RunFront(s, d), d) && SameComposition(s, RunFront(s, d), d)
  {
    var r := RunFront(s, d);
    LiveIsOwned(s, d, s.docs[d].queue[0].epoch);
    RestHasNoNewResults(s.docs[d]);
    AcceptLocalKeeps(s.comp.value.buffer);
    LiveAcceptIs(s, d);
    CompEvolves(s, r, d);
    LiveStep(s, r, d);
  }

  lemma LiveAcceptIs(s: State, d: DocId)
    requires d in s.docs && s.docs[d].queue != [] && Owns(s, d)
    requires s.docs[d].queue[0].AcceptLocally? && LiveEpoch(s, s.docs[d].queue[0].epoch)
    ensures var c, r := s.comp.value, RunFront(s, d);
            var x := c.(converted := Some(c.buffer.revision), buffer := c.buffer.(entries := AcceptLocal(c.buffer.entries)));
            && r == WithDoc(WithComp(s, x), d,
                            if HasPendingConversion(c.buffer.entries) then HostRenders(Rest(s.docs[d]), c.epoch, Render(x.buffer))
                            else Rest(s.docs[d]))
            && (!HasPendingConversion(c.buffer.entries) ==> x.buffer == c.buffer)
  {
    var entries := s.comp.value.buffer.entries;
    if !HasPendingConversion(entries) {
      assert AcceptLocal(entries) == entries;
    }
  }

  // ---- the text before a live composition is known ----------------------------------------------

  // Sends that concern one epoch only.
  predicate TrackerGrows(t: Tracker, r: Tracker, epoch: nat) {
    && t.sequence <= r.sequence && t.backend == r.backend && t.dropped == r.dropped
    && (forall q <- t.pending :: q in r.pending && r.pending[q] == t.pending[q])
    && (forall q <- r.pending :: q in t.pending || (q > t.sequence && r.pending[q].epoch == epoch))
    && (forall e <- t.newest :: e != epoch ==> e in r.newest && r.newest[e] == t.newest[e])
    && (forall e <- r.newest :: e in t.newest || e == epoch)
  }

  lemma SendGrows(t: Tracker, request: Request)
    requires TrackerInv(t)
    ensures TrackerInv(Send(t, request)) && TrackerGrows(t, Send(t, request), request.epoch)
  {
    SendKeeps(t, request);
  }

  lemma RequestKeeps(s: State)
    requires s.comp.Some? && CompOk(s) && TrackerOk(s)
    ensures var r, c := RequestConversion(s), s.comp.value;
            && CompOk(r) && TrackerOk(r) && TrackerGrows(s.conversions, r.conversions, c.epoch)
            && r == s.(conversions := r.conversions, comp := r.comp)
            && r.comp.Some? && r.comp.value == c.(sent := r.comp.value.sent)
  {
    var r, c, snapshot := RequestConversion(s), s.comp.value, ConversionSnapshot(s.comp.value.buffer);
    if snapshot.Some? {
      SendGrows(s.conversions, RequestFor(c, snapshot.value));
      SnapshotFits(c.buffer);
    }
  }

  lemma LiveReadIs(s: State, d: DocId)
    requires d in s.docs && s.docs[d].queue != [] && s.docs[d].queue[0].ReadContext? && LiveEpoch(s, s.docs[d].queue[0].epoch)
    ensures var read := WithDoc(s, d, HostReads(Rest(s.docs[d]), s.docs[d].queue[0].epoch));
            RunFront(s, d) == RequestConversion(WithComp(read, s.comp.value.(preceding := Some(ContextBefore(s.docs[d])))))
  {
    var doc := s.docs[d];
    WithDocTwice(s, d, Rest(doc), HostReads(Rest(doc), doc.queue[0].epoch));
    assert ContextBefore(Rest(doc)) == ContextBefore(doc);
  }

  lemma LiveReadDoc(s: State, r: State, d: DocId)
    requires d in s.docs && DocOk(s, d) && Refreshing(s.docs[d], LiveOf(s, d)) && s.docs[d].queue != []
    requires s.docs[d].queue[0].ReadContext? && LiveEpoch(s, s.docs[d].queue[0].epoch) && Owns(s, d) && Owns(r, d)
    requires d in r.docs && r.docs[d] == HostReads(Rest(s.docs[d]), s.docs[d].queue[0].epoch)
    requires r.comp.value.epoch == s.comp.value.epoch && r.comp.value.preceding.Some?
    requires r.comp.value.buffer == s.comp.value.buffer
    ensures DocOk(r, d) && Refreshing(r.docs[d], LiveOf(r, d))
  {
    var doc, after := s.docs[d], r.docs[d];
    PopKeeps(doc, d, after);
    CallsAppend(doc.calls, PrecedingText(doc.queue[0].epoch));
    RestWrites(doc, after);
    assert forall e <- doc.queue :: e == doc.queue[0] || e in after.queue;
  }

  lemma LiveRead(s: State, d: DocId)
    requires d in s.docs && GrantInv(s, d) && s.docs[d].queue != []
    requires s.docs[d].queue[0].ReadContext? && LiveEpoch(s, s.docs[d].queue[0].epoch)
    ensures GrantInv(RunFront(s, d), d) && SameComposition(s, RunFront(s, d), d)
    ensures TrackerGrows(s.conversions, RunFront(s, d).conversions, s.docs[d].queue[0].epoch)
  {
    var doc, r := s.docs[d], RunFront(s, d);
    LiveIsOwned(s, d, doc.queue[0].epoch);
    var known := s.comp.value.(preceding := Some(ContextBefore(doc)));
    var read := WithComp(WithDoc(s, d, HostReads(Rest(doc), doc.queue[0].epoch)), known);
    LiveReadIs(s, d);
    assert NoNewResults(doc.queue, read.docs[d].queue);
    assert CompOk(read);
    RequestKeeps(read);
    LiveReadDoc(s, r, d);
    LocalSuffices(s, r, d);
  }
}
