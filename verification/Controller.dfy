/**
 The composition state machine (CompositionController) over its documents, as
 functions: what each key, result and grant makes of the state.

 A key changes the state and queues edits; a grant runs the queue against the
 document. Where an edit is queued from outside an edit, whether the host
 grants it before the call returns is a parameter.
 */
module Controller {
  import opened Wrappers
  import opened Bopomofo
  import opened Buffers
  import opened BufferProofs
  import opened CandidateLocks
  import opened Conversions
  import opened Documents

  datatype Sent = Sent(revision: nat, sequence: nat)

  // applied and lost are its history: the results it was given, and whether the
  // backend was lost while it was open.
  datatype Composition = Composition(epoch: nat, document: DocId, preceding: Option<string>, buffer: Buffer,
                                     candidates: Lock, sent: Option<Sent>, converted: Option<nat>,
                                     applied: seq<Result>, lost: bool)

  datatype State = State(comp: Option<Composition>, nextEpoch: nat, immediate: bool,
                         conversions: Tracker, docs: map<DocId, Doc>)

  // What the host does at the first and the second run_edit of one call.
  datatype Grants = Grants(first: bool, second: bool)

  function Owns(s: State, d: DocId): bool {
    s.comp.Some? && s.comp.value.document == d
  }

  function LiveEpoch(s: State, epoch: nat): bool {
    s.comp.Some? && s.comp.value.epoch == epoch
  }

  function Settled(c: Composition): bool {
    ReadyToCommit(c.buffer) && (AllChosen(c.buffer.entries) || c.converted == Some(c.buffer.revision))
  }

  function WithComp(s: State, c: Composition): State {
    s.(comp := Some(c))
  }

  function WithDoc(s: State, d: DocId, doc: Doc): State {
    s.(docs := s.docs[d := doc])
  }

  // ---- requests ------------------------------------------------------------------

  function RequestFor(c: Composition, snapshot: Snapshot): Request {
    Request(c.epoch, snapshot.revision, c.document, snapshot.entries)
  }

  // No request without the context, without an entry to convert, or twice for
  // one revision.
  function RequestConversion(s: State): State
    requires s.comp.Some?
  {
    var c := s.comp.value;
    var snapshot := ConversionSnapshot(c.buffer);
    if c.preceding.None? || snapshot.None? || (c.sent.Some? && c.sent.value.revision == snapshot.value.revision) then s
    else
      var t := Send(s.conversions, RequestFor(c, snapshot.value));
      var sent := if s.conversions.backend then Some(Sent(snapshot.value.revision, t.sequence)) else c.sent;
      s.(conversions := t, comp := Some(c.(sent := sent)))
  }

  // Requests the conversion of a sealed segment, or finishes it without a backend.
  function ConvertSegment(s: State, d: DocId, i: nat): State
    requires d in s.docs && i < |s.docs[d].segments|
  {
    var segment := s.docs[d].segments[i];
    var snapshot := ConversionSnapshot(segment.buffer);
    if snapshot.Some? && s.conversions.backend then
      var t := Send(s.conversions, Request(segment.epoch, snapshot.value.revision, d, snapshot.value.entries));
      WithDoc(s, d, SetSegment(s.docs[d], i, segment.(stage := Converting(t.sequence)))).(conversions := t)
    else WithDoc(s, d, SetSegment(s.docs[d], i, FinishSegment(segment)))
  }

  // ---- edits ------------------------------------------------------------------------

  function SealedContextReady(s: State, d: DocId, epoch: nat, preceding: string): State
    requires d in s.docs
  {
    var i := SegmentOf(s.docs[d].segments, epoch);
    if i == |s.docs[d].segments| then s
    else
      var known := WithDoc(s, d, SetSegment(s.docs[d], i, s.docs[d].segments[i].(preceding := Some(preceding))));
      if !known.docs[d].segments[i].stage.WaitingForContext? then known
      else
        var asked := ConvertSegment(known, d, i);
        WithDoc(asked, d, WriteIfFinished(asked.docs[d], i))
  }

  // The context read for the caret, with the final text of a segment standing there.
  function ContextBefore(doc: Doc): string {
    var i := NewestAtCaret(doc);
    if i >= 0 then FollowingContext(doc.segments[i]) else PiecesText(doc.pieces)
  }

  function RunReadContext(s: State, d: DocId, epoch: nat): State
    requires d in s.docs
  {
    var preceding := ContextBefore(s.docs[d]);
    var read := WithDoc(s, d, HostReads(s.docs[d], epoch));
    if LiveEpoch(s, epoch) then RequestConversion(WithComp(read, s.comp.value.(preceding := Some(preceding))))
    else SealedContextReady(read, d, epoch, preceding)
  }

  function RunShow(s: State, d: DocId, epoch: nat, ended: Rendering): State
    requires d in s.docs
  {
    WithDoc(s, d, HostRenders(s.docs[d], epoch, if LiveEpoch(s, epoch) then Render(s.comp.value.buffer) else ended))
  }

  function Apply(c: Composition, sequence: nat, request: Request, converted: seq<Output>): (Composition, bool) {
    var outcome := MergeConversion(c.buffer, sequence, request.snapshot, converted, c.candidates.entry);
    (c.(buffer := outcome.buffer, applied := c.applied + [Result(sequence, request.snapshot, converted)],
        candidates := if outcome.held.None? then c.candidates
                      else Holding(c.candidates, Held(sequence, outcome.held.value.0, outcome.held.value.1)),
        converted := if request.revision == outcome.buffer.revision then Some(request.revision) else c.converted),
     outcome.changed)
  }

  function RenderLive(s: State, d: DocId): State
    requires d in s.docs && s.comp.Some?
  {
    WithDoc(s, d, HostRenders(s.docs[d], s.comp.value.epoch, Render(s.comp.value.buffer)))
  }

  function MergeSealed(doc: Doc, epoch: nat, sequence: nat, requested: seq<Entry>, converted: seq<Output>): Doc {
    var i := SegmentOf(doc.segments, epoch);
    if i == |doc.segments| then doc
    else SetSegment(doc, i, MergeSegment(doc.segments[i], sequence, requested, converted))
  }

  function EpochFinished(doc: Doc, epoch: nat): bool {
    var i := SegmentOf(doc.segments, epoch);
    i < |doc.segments| && doc.segments[i].stage.Finished?
  }

  function RunApply(s: State, d: DocId, sequence: nat, request: Request, converted: seq<Output>): State
    requires d in s.docs
  {
    if LiveEpoch(s, request.epoch) then
      var (c, changed) := Apply(s.comp.value, sequence, request, converted);
      if changed then RenderLive(WithComp(s, c), d) else WithComp(s, c)
    else
      var merged := MergeSealed(s.docs[d], request.epoch, sequence, request.snapshot, converted);
      WithDoc(s, d, if EpochFinished(merged, request.epoch) then Enqueue(merged, WriteFinished) else merged)
  }

  function RunAcceptLocally(s: State, d: DocId, epoch: nat): State
    requires d in s.docs
  {
    if !LiveEpoch(s, epoch) then s
    else
      var c := s.comp.value;
      var t := WithComp(s, c.(converted := Some(c.buffer.revision),
                              buffer := c.buffer.(entries := AcceptLocal(c.buffer.entries))));
      if HasPendingConversion(c.buffer.entries) then RenderLive(t, d) else t
  }

  // Runs the edit at the front of the queue.
  function RunEditBody(s: State, d: DocId, edit: Edit): State
    requires d in s.docs
  {
    match edit
    case ReadContext(epoch) => RunReadContext(s, d, epoch)
    case Show(epoch, ended) => RunShow(s, d, epoch, ended)
    case ApplyResult(sequence, request, converted) => RunApply(s, d, sequence, request, converted)
    case Commit(epoch, sample, entries) => WithDoc(s, d, RunCommit(s.docs[d], epoch, sample, entries))
    case Discard(epoch) => WithDoc(s, d, HostDiscards(s.docs[d], epoch))
    case Seal(epoch) => WithDoc(s, d, Placed(HostSeals(s.docs[d], epoch), epoch))
    case Backspace => WithDoc(s, d, EraseInOrder(s.docs[d]))
    case WriteFinished => WithDoc(s, d, WriteFrom(s.docs[d], 0, false))
    case AcceptLocally(epoch) => RunAcceptLocally(s, d, epoch)
  }

  function Popped(s: State, d: DocId): State
    requires d in s.docs && s.docs[d].queue != []
  {
    WithDoc(s, d, s.docs[d].(queue := s.docs[d].queue[1..]))
  }

  function RunFront(s: State, d: DocId): State
    requires d in s.docs && s.docs[d].queue != []
  {
    RunEditBody(Popped(s, d), d, s.docs[d].queue[0])
  }

  // An edit queues at most one write, and a write queues nothing.
  function Weight(queue: seq<Edit>): nat {
    if queue == [] then 0 else (if queue[0].WriteFinished? then 1 else 2) + Weight(queue[1..])
  }

  lemma {:induction false} WeightConcat(a: seq<Edit>, b: seq<Edit>)
    ensures Weight(a + b) == Weight(a) + Weight(b)
  {
    if a == [] {
      assert a + b == b;
    } else {
      assert (a + b)[1..] == a[1..] + b;
      WeightConcat(a[1..], b);
    }
  }

  lemma WriteFromQueue(doc: Doc, i: nat, earlierWaiting: bool)
    requires i <= |doc.segments|
    ensures WriteFrom(doc, i, earlierWaiting).queue == doc.queue
    decreases |doc.segments| - i
  {
  }

  // An edit leaves the queue alone or queues one write.
  predicate QueuesAtMostWrite(s: State, r: State, d: DocId)
    requires d in s.docs
  {
    && r.docs.Keys == s.docs.Keys
    && (r.docs[d].queue == s.docs[d].queue || r.docs[d].queue == s.docs[d].queue + [WriteFinished])
  }

  lemma ConvertSegmentQueue(s: State, d: DocId, i: nat)
    requires d in s.docs && i < |s.docs[d].segments|
    ensures ConvertSegment(s, d, i).docs.Keys == s.docs.Keys
    ensures ConvertSegment(s, d, i).docs[d].queue == s.docs[d].queue
    ensures |ConvertSegment(s, d, i).docs[d].segments| == |s.docs[d].segments|
  {
  }

  lemma ReadContextQueue(s: State, d: DocId, epoch: nat)
    requires d in s.docs
    ensures QueuesAtMostWrite(s, RunReadContext(s, d, epoch), d)
  {
    var preceding := ContextBefore(s.docs[d]);
    var read := WithDoc(s, d, HostReads(s.docs[d], epoch));
    var i := SegmentOf(read.docs[d].segments, epoch);
    if !LiveEpoch(s, epoch) && i < |read.docs[d].segments| {
      var known := WithDoc(read, d, SetSegment(read.docs[d], i, read.docs[d].segments[i].(preceding := Some(preceding))));
      ConvertSegmentQueue(known, d, i);
    }
  }

  lemma ApplyQueue(s: State, d: DocId, sequence: nat, request: Request, converted: seq<Output>)
    requires d in s.docs
    ensures QueuesAtMostWrite(s, RunApply(s, d, sequence, request, converted), d)
  {
  }

  lemma SealQueue(s: State, d: DocId, epoch: nat)
    requires d in s.docs
    ensures QueuesAtMostWrite(s, RunEditBody(s, d, Seal(epoch)), d)
    ensures QueuesAtMostWrite(s, RunEditBody(s, d, Backspace), d)
  {
  }

  lemma BodyQueue(s: State, d: DocId, edit: Edit)
    requires d in s.docs
    ensures var r := RunEditBody(s, d, edit);
            QueuesAtMostWrite(s, r, d) && (edit.WriteFinished? ==> r.docs[d].queue == s.docs[d].queue)
  {
    match edit
    case ReadContext(epoch) => ReadContextQueue(s, d, epoch);
    case Show(epoch, ended) =>
    case ApplyResult(sequence, request, converted) => ApplyQueue(s, d, sequence, request, converted);
    case Commit(epoch, sample, entries) =>
    case Discard(epoch) =>
    case Seal(epoch) => SealQueue(s, d, epoch);
    case Backspace => SealQueue(s, d, 0);
    case WriteFinished => WriteFromQueue(s.docs[d], 0, false);
    case AcceptLocally(epoch) =>
  }

  lemma RunFrontQueue(s: State, d: DocId)
    requires d in s.docs && s.docs[d].queue != []
    ensures var r := RunFront(s, d);
            QueuesAtMostWrite(Popped(s, d), r, d) && Weight(r.docs[d].queue) < Weight(s.docs[d].queue)
  {
    var queue := s.docs[d].queue;
    BodyQueue(Popped(s, d), d, queue[0]);
    WeightConcat(queue[1..], [WriteFinished]);
    assert Weight([WriteFinished]) == 1;
  }

  // A grant drains the queue, including edits queued meanwhile.
  function Drain(s: State, d: DocId): State
    decreases if d in s.docs then Weight(s.docs[d].queue) else 0
  {
    if d !in s.docs || s.docs[d].queue == [] then s
    else
      RunFrontQueue(s, d);
      Drain(RunFront(s, d), d)
  }

  // Queues an edit; the host may grant the document at once. A document that is
  // gone takes no edit.
  function RunEdit(s: State, d: DocId, edit: Edit, granted: bool): State {
    if d !in s.docs then s
    else
      var queued := WithDoc(s, d, Enqueue(s.docs[d], edit));
      if granted then Drain(queued, d) else queued
  }

  // ---- ending a composition --------------------------------------------------------

  function Intend(s: State, d: DocId, intent: Intent): State {
    if d in s.docs then WithDoc(s, d, s.docs[d].(intents := s.docs[d].intents + [intent])) else s
  }

  function EndedAs(c: Composition): Ended {
    Ended(c.epoch, c.buffer, c.applied, c.candidates.held, c.lost)
  }

  function CommitComposition(s: State, granted: bool): State
    requires s.comp.Some?
  {
    var c := s.comp.value;
    var ended := Intend(s.(comp := None), c.document, Typed(EndedAs(c)));
    RunEdit(ended, c.document, Commit(c.epoch, TrainingSample(c.buffer, c.preceding), c.buffer.entries), granted)
  }

  function DiscardComposition(s: State, granted: bool): State
    requires s.comp.Some?
  {
    RunEdit(s.(comp := None), s.comp.value.document, Discard(s.comp.value.epoch), granted)
  }

  // The conversion that will finish a composition sealed now, if it is underway.
  function InFlight(s: State, frozen: bool): Option<nat>
    requires s.comp.Some?
  {
    var c := s.comp.value;
    if !frozen && c.sent.Some? && c.sent.value.revision == c.buffer.revision && c.sent.value.sequence in s.conversions.pending
    then Some(c.sent.value.sequence) else None
  }

  // The new segment of the document, waiting, converting or finished.
  function AddSegment(s: State, c: Composition, inFlight: Option<nat>): State
    requires c.document in s.docs
  {
    var d := c.document;
    var doc := s.docs[d];
    var segment := NewSegment(c.epoch, d, c.buffer, c.preceding);
    var added := WithDoc(s, d, doc.(segments := doc.segments + [segment]));
    if inFlight.Some? then
      WithDoc(added, d, SetSegment(added.docs[d], |doc.segments|, segment.(stage := Converting(inFlight.value))))
    else if segment.preceding.Some? then ConvertSegment(added, d, |doc.segments|)
    else added
  }

  function SealComposition(s: State, g: Grants): State {
    if s.comp.None? then s
    else
      var c := s.comp.value.(buffer := FreezeReadings(s.comp.value.buffer));
      var frozen := HasUncomposedReading(s.comp.value.buffer.entries);
      if Settled(c) then CommitComposition(WithComp(s, c), g.first)
      else if c.document !in s.docs then s.(comp := None)
      else
        var added := AddSegment(Intend(s.(comp := None), c.document, TypedSealed(c.epoch, c.buffer)), c, InFlight(WithComp(s, c), frozen));
        var written := if EpochFinished(added.docs[c.document], c.epoch)
                       then RunEdit(added, c.document, WriteFinished, g.first) else added;
        RunEdit(written, c.document, Seal(c.epoch), g.second)
  }

  // ---- keys -----------------------------------------------------------------------------

  // No effect while any composition is open.
  function Open(s: State, d: DocId, granted: bool): State {
    if s.comp.Some? || d !in s.docs then s
    else
      var c := Composition(s.nextEpoch, d, None, EmptyBuffer(s.immediate), UNLOCKED, None, None, [], false);
      RunEdit(s.(comp := Some(c), nextEpoch := s.nextEpoch + 1), d, ReadContext(c.epoch), granted)
  }

  function ShowComposition(s: State, granted: bool): State
    requires s.comp.Some?
  {
    RunEdit(s, s.comp.value.document, Show(s.comp.value.epoch, Render(s.comp.value.buffer)), granted)
  }

  // The buffer changed: show it and send it, or drop an empty composition.
  function Update(s: State, buffer: Buffer, granted: bool): State
    requires s.comp.Some?
  {
    var t := WithComp(s, s.comp.value.(buffer := buffer));
    if buffer.entries == [] then DiscardComposition(t, granted)
    else
      var shown := ShowComposition(t, granted);
      if shown.comp.Some? then RequestConversion(shown) else shown
  }

  function TypeReading(s: State, d: DocId, symbol: char, table: Table, g: Grants): State {
    var ready := Open(s, d, g.first);
    if !Owns(ready, d) then ready else Update(ready, Add(ready.comp.value.buffer, symbol, table), g.second)
  }

  function TypeText(s: State, d: DocId, text: string, g: Grants): State {
    if text == "" then s
    else
      var ready := Open(s, d, g.first);
      if !Owns(ready, d) then ready else Update(ready, AddAllChosen(ready.comp.value.buffer, text), g.second)
  }

  function DiscardReading(s: State, d: DocId, g: Grants): State {
    if !Owns(s, d) || DiscardCurrentReading(s.comp.value.buffer).None? then s
    else Update(s, DiscardCurrentReading(s.comp.value.buffer).value, g.first)
  }

  function BackspaceKey(s: State, d: DocId, g: Grants): State {
    if !Owns(s, d) || RemoveLast(s.comp.value.buffer).None? then s
    else Update(s, RemoveLast(s.comp.value.buffer).value, g.first)
  }

  function MoveCaretKey(s: State, d: DocId, forward: bool, toEdge: bool, g: Grants): State {
    if !Owns(s, d) || MoveCaret(s.comp.value.buffer, forward, toEdge).None? then s
    else ShowComposition(WithComp(s, s.comp.value.(buffer := MoveCaret(s.comp.value.buffer, forward, toEdge).value)), g.first)
  }

  // A settled composition is committed, any other is sent once more and sealed.
  function Enter(s: State, d: DocId, g: Grants): State {
    if !Owns(s, d) || HasUncomposedReading(s.comp.value.buffer.entries) then s
    else if Settled(s.comp.value) then CommitComposition(s, g.first)
    else SealComposition(RequestConversion(s), g)
  }

  function Escape(s: State, d: DocId, g: Grants): State {
    if Owns(s, d) then DiscardComposition(s, g.first) else s
  }

  function BackspaceInOrder(s: State, d: DocId, g: Grants): State {
    if Owns(s, d) then s else RunEdit(Intend(s, d, Erased), d, Backspace, g.first)
  }

  function CandidatesOpened(s: State, entry: nat): State {
    if s.comp.None? then s else WithComp(s, s.comp.value.(candidates := Opened(s.comp.value.candidates, entry)))
  }

  // A selection and the step that finalizes it.
  function Pick(s: State, d: DocId, entry: nat, index: nat, g: Grants): State {
    if !Owns(s, d) then s
    else
      var b := s.comp.value.buffer;
      var picked := SelectCandidate(b, entry, index);
      Update(s, NextOrStay(if picked.Some? then picked.value else b), g.first)
  }

  // The lock is released and what it kept is merged.
  function CandidatesClosed(s: State, d: DocId, g: Grants): State {
    if !Owns(s, d) then s
    else
      var c := s.comp.value;
      var held := c.candidates.held;
      if held.None? then WithComp(s, c.(candidates := UNLOCKED))
      else
        var outcome := MergeConversion(c.buffer, held.value.sequence, [held.value.requested], [held.value.converted], None);
        var t := WithComp(s, c.(candidates := UNLOCKED, buffer := outcome.buffer));
        if outcome.changed then ShowComposition(t, g.first) else t
  }

  // ---- results ------------------------------------------------------------------------------

  function FinishEverywhere(s: State): State {
    s.(docs := map d <- s.docs :: FinishAll(s.docs[d]), conversions := s.conversions.(dropped := false))
  }

  function DrainAll(s: State, granted: seq<DocId>): State
    decreases |granted|
  {
    if granted == [] then s else DrainAll(Drain(s, granted[0]), granted[1..])
  }

  // Segments and composition stop waiting and keep the candidates they have.
  // granted: the documents the host grants before the call returns.
  function LoseBackend(s: State, granted: seq<DocId>, g: Grants): State {
    var finished := DrainAll(FinishEverywhere(s.(conversions := Cleared(s.conversions))), granted);
    if finished.comp.None? then finished
    else
      var c := finished.comp.value.(sent := None, lost := true);
      RunEdit(WithComp(finished, c), c.document, AcceptLocally(c.epoch), g.first)
  }

  // A published answer reaches the controller.
  function Deliver(s: State, sequence: nat, granted: seq<DocId>, g: Grants): State {
    if sequence !in s.conversions.worker.answers then s
    else
      var answer := s.conversions.worker.answers[sequence];
      var taken := s.(conversions := Receive(s.conversions, sequence));
      if sequence !in s.conversions.pending then taken
      else
        var request := s.conversions.pending[sequence];
        match answer
        case Superseded => taken
        case BackendLost => LoseBackend(taken, granted, g)
        case Converted(padding) =>
          if LiveEpoch(taken, request.epoch) then
            RunEdit(taken, request.document, ApplyResult(sequence, request, padding), g.first)
          else if request.document !in taken.docs then taken
          else
            var merged := MergeSealed(taken.docs[request.document], request.epoch, sequence, request.snapshot, padding);
            var t := WithDoc(taken, request.document, merged);
            if EpochFinished(merged, request.epoch) then RunEdit(t, request.document, WriteFinished, g.first) else t
  }

  // Seals what is open, then no segment waits any more.
  function Shutdown(s: State, granted: seq<DocId>, g: Grants): State {
    var stopped := s.(conversions := Cleared(s.conversions).(backend := false, worker := IDLE_WORKER));
    DrainAll(FinishEverywhere(SealComposition(stopped, g)), granted)
  }

  // ---- runs ---------------------------------------------------------------------------------------

  datatype Event =
    | KeyReading(d: DocId, symbol: char, g: Grants)
    | KeyText(d: DocId, text: string, g: Grants)
    | KeyDiscardReading(d: DocId, g: Grants)
    | KeyBackspace(d: DocId, g: Grants)
    | KeyMoveCaret(d: DocId, forward: bool, toEdge: bool, g: Grants)
    | KeyEnter(d: DocId, g: Grants)
    | KeyEscape(d: DocId, g: Grants)
    | KeyBackspaceInOrder(d: DocId, g: Grants)
    | ListOpened(entry: nat)
    | ListPick(d: DocId, entry: nat, index: nat, g: Grants)
    | ListClosed(d: DocId, g: Grants)
    | Sealing(g: Grants)
    | Granted(d: DocId)
    | OtherWork(kind: Kind, group: nat)
    | JobStarts
    | JobEnds(answer: Answer)
    | Answered(sequence: nat, granted: seq<DocId>, g: Grants)
    | DocumentOpened(d: DocId, text: string)
    | DocumentClosed(d: DocId)
    | BackendStarts
    | ShuttingDown(granted: seq<DocId>, g: Grants)

  function Step(s: State, e: Event, table: Table): State {
    match e
    case KeyReading(d, symbol, g) => TypeReading(s, d, symbol, table, g)
    case KeyText(d, text, g) => TypeText(s, d, text, g)
    case KeyDiscardReading(d, g) => DiscardReading(s, d, g)
    case KeyBackspace(d, g) => BackspaceKey(s, d, g)
    case KeyMoveCaret(d, forward, toEdge, g) => MoveCaretKey(s, d, forward, toEdge, g)
    case KeyEnter(d, g) => Enter(s, d, g)
    case KeyEscape(d, g) => Escape(s, d, g)
    case KeyBackspaceInOrder(d, g) => BackspaceInOrder(s, d, g)
    case ListOpened(entry) => CandidatesOpened(s, entry)
    case ListPick(d, entry, index, g) => Pick(s, d, entry, index, g)
    case ListClosed(d, g) => CandidatesClosed(s, d, g)
    case Sealing(g) => SealComposition(s, g)
    case Granted(d) => Drain(s, d)
    case OtherWork(kind, group) => s.(conversions := SubmitOther(s.conversions, kind, group))
    case JobStarts => s.(conversions := StartJob(s.conversions))
    case JobEnds(answer) => s.(conversions := FinishJob(s.conversions, answer))
    case Answered(sequence, granted, g) => Deliver(s, sequence, granted, g)
    case DocumentOpened(d, text) => if d in s.docs then s else WithDoc(s, d, NewDoc(text))
    case DocumentClosed(d) => s.(comp := if Owns(s, d) then None else s.comp, docs := s.docs - {d})
    case BackendStarts => s.(conversions := s.conversions.(backend := true))
    case ShuttingDown(granted, g) => Shutdown(s, granted, g)
  }

  function Run(s: State, events: seq<Event>, table: Table): State {
    if events == [] then s else Step(Run(s, events[..|events| - 1], table), events[|events| - 1], table)
  }

  function Start(immediate: bool, backend: bool): State {
    State(None, 1, immediate, Tracker(backend, 0, map[], IDLE_WORKER, map[], false, map[], map[], backend), map[])
  }
}
