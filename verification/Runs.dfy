/**
 What holds in every run of the composition protocol: any keys, results and
 grants, in any order.
 */
module Runs {
  import opened Wrappers
  import opened Text
  import opened Bopomofo
  import opened Buffers
  import opened BufferProofs
  import opened CandidateLocks
  import opened Conversions
  import opened Documents
  import opened DocumentProofs
  import opened DocumentInv
  import opened DocumentSteps
  import opened Controller
  import opened ControllerInv
  import opened GrantProofs
  import opened SegmentGrants
  import opened MovingProofs
  import opened CallProofs
  import opened SealProofs
  import opened KeyProofs
  import opened ResultProofs

  // ---- every run ---------------------------------------------------------------------------

  // Events that edit or end the composition.
  predicate EditsComposition(e: Event) {
    || e.KeyReading? || e.KeyText? || e.KeyDiscardReading? || e.KeyBackspace? || e.KeyMoveCaret? || e.KeyEnter?
    || e.KeyEscape? || e.KeyBackspaceInOrder?
  }

  lemma KeyStepKeeps(s: State, e: Event, table: Table)
    requires Good(s) && EditsComposition(e)
    ensures Good(Step(s, e, table))
  {
    match e
    case KeyReading(d, symbol, g) => TypeReadingKeeps(s, d, symbol, table, g);
    case KeyText(d, text, g) => TypeTextKeeps(s, d, text, g);
    case KeyDiscardReading(d, g) => DiscardReadingKeeps(s, d, g);
    case KeyBackspace(d, g) => BackspaceKeyKeeps(s, d, g);
    case KeyMoveCaret(d, forward, toEdge, g) => MoveCaretKeeps(s, d, forward, toEdge, g);
    case KeyEnter(d, g) => EnterKeeps(s, d, g);
    case KeyEscape(d, g) => EscapeKeeps(s, d, g);
    case KeyBackspaceInOrder(d, g) => EraseKeyKeeps(s, d, g);
  }

  // Events of the conversion worker.
  predicate WorksBehind(e: Event) {
    e.OtherWork? || e.JobStarts? || e.JobEnds? || e.BackendStarts?
  }

  // What the worker's step makes of the tracker.
  function WorkedOn(t: Tracker, e: Event): Tracker
    requires WorksBehind(e)
  {
    match e
    case OtherWork(kind, group) => SubmitOther(t, kind, group)
    case JobStarts => StartJob(t)
    case JobEnds(answer) => FinishJob(t, answer)
    case BackendStarts => t.(backend := true)
  }

  lemma WorkedOnKeeps(t: Tracker, e: Event)
    requires WorksBehind(e) && TrackerInv(t)
    ensures TrackerInv(WorkedOn(t, e))
    ensures WorkedOn(t, e) == t.(worker := WorkedOn(t, e).worker, backend := WorkedOn(t, e).backend)
  {
    match e
    case OtherWork(kind, group) => SubmitOtherKeeps(t, kind, group);
    case JobStarts => StartJobKeeps(t);
    case JobEnds(answer) => FinishJobKeeps(t, answer);
    case BackendStarts =>
  }

  lemma WorkerStepKeeps(s: State, e: Event, table: Table)
    requires Good(s) && WorksBehind(e)
    ensures Good(Step(s, e, table))
  {
    WorkedOnKeeps(s.conversions, e);
    WorkerKeeps(s, Step(s, e, table));
  }

  lemma OtherStepKeeps(s: State, e: Event, table: Table)
    requires Good(s) && !EditsComposition(e) && !WorksBehind(e) && !e.Answered? && !e.ShuttingDown?
    ensures Good(Step(s, e, table))
  {
    match e
    case ListOpened(entry) => if s.comp.Some? { SameShown(s, CandidatesOpened(s, entry)); }
    case ListPick(d, entry, index, g) => PickKeeps(s, d, entry, index, g);
    case ListClosed(d, g) => ClosedKeeps(s, d, g);
    case Sealing(g) => SealKeeps(s, g);
    case Granted(d) => GrantKeeps(s, d, true);
    case DocumentOpened(d, text) => if d !in s.docs { OpenedDocument(s, d, text); }
    case DocumentClosed(d) => ClosedDocument(s, d);
  }

  lemma StepKeeps(s: State, e: Event, table: Table)
    requires Good(s)
    ensures Good(Step(s, e, table))
  {
    if e.Answered? {
      DeliverGood(s, e.sequence, e.granted, e.g);
    } else if e.ShuttingDown? {
      ShutdownKeeps(s, e.granted, e.g);
    } else if EditsComposition(e) {
      KeyStepKeeps(s, e, table);
    } else if WorksBehind(e) {
      WorkerStepKeeps(s, e, table);
    } else {
      OtherStepKeeps(s, e, table);
    }
  }

  lemma {:induction false} RunKeeps(s: State, events: seq<Event>, table: Table)
    requires Good(s)
    ensures Good(Run(s, events, table))
  {
    if events != [] {
      RunKeeps(s, events[..|events| - 1], table);
      StepKeeps(Run(s, events[..|events| - 1], table), events[|events| - 1], table);
    }
  }

  lemma RunIsGood(immediate: bool, backend: bool, events: seq<Event>, table: Table)
    ensures Good(Run(Start(immediate, backend), events, table))
  {
    RunKeeps(Start(immediate, backend), events, table);
  }

  // ---- the text -----------------------------------------------------------------------------

  // Nothing is queued for the document, and no conversion of its text is awaited.
  predicate Quiet(s: State, d: DocId)
    requires d in s.docs
  {
    s.docs[d].queue == [] && forall q <- s.conversions.pending :: s.conversions.pending[q].document != d
  }

  // A quiet document has no sealed segment left.
  lemma QuietIsWritten(s: State, d: DocId)
    requires Good(s) && d in s.docs && Quiet(s, d)
    ensures s.docs[d].segments == []
  {
    var doc := s.docs[d];
    assert DocOk(s, d) && DocMoves(doc, d, s.conversions);
    assert SealsOf(doc.queue) == [] && |Epochs(doc.segments)| == |doc.segments|;
    forall i | 0 <= i < |doc.segments| ensures doc.segments[i].stage.Finished? && doc.segments[i].inDocument {
      assert MovesOn(doc.segments[i], doc.queue, s.conversions, d);
    }
    FinishedIsWritable(doc.segments);
  }

  lemma FinishedIsWritable(segments: seq<Segment>)
    requires forall i :: 0 <= i < |segments| ==> segments[i].stage.Finished? && segments[i].inDocument
    ensures segments != [] ==> SomeWritable(segments)
  {
    if segments != [] {
      assert Writable(segments[0], 0 > 0);
    }
  }

  lemma QuietText(doc: Doc, d: DocId)
    requires DocInv(doc, d) && doc.queue == [] && doc.segments == []
    ensures forall intent <- doc.intents :: intent.TypedSealed? ==> intent.epoch in doc.written
    ensures forall f: map<nat, string> | Agrees(f, doc.written) :: PiecesText(doc.pieces) == Replay(doc.initial, doc.intents, f)
  {
    SealedMembers(doc.pieces);
    assert SealedEpochs(doc.pieces) == Epochs([]) == [];
    forall f: map<nat, string> | Agrees(f, doc.written) ensures PiecesText(doc.pieces) == Replay(doc.initial, doc.intents, f) {
      TargetPlain("", doc.pieces, [], f);
      assert FutureText(doc, f) == Replay(doc.initial, doc.intents, f);
    }
  }

  // Once every conversion has landed and every edit has run, the document reads
  // as if each sealed text had been final from the start and each Backspace had
  // removed one character at once, whatever the order things happened in.
  lemma TextIsReference(immediate: bool, backend: bool, events: seq<Event>, table: Table, d: DocId)
    requires d in Run(Start(immediate, backend), events, table).docs
    requires Quiet(Run(Start(immediate, backend), events, table), d)
    ensures var doc := Run(Start(immediate, backend), events, table).docs[d];
            && (forall intent <- doc.intents :: intent.TypedSealed? ==> intent.epoch in doc.written)
            && (forall f: map<nat, string> | Agrees(f, doc.written) :: PiecesText(doc.pieces) == Replay(doc.initial, doc.intents, f))
  {
    var s := Run(Start(immediate, backend), events, table);
    var doc := s.docs[d];
    RunIsGood(immediate, backend, events, table);
    QuietIsWritten(s, d);
    assert DocOk(s, d);
    QuietText(doc, d);
  }

  // ---- the calls the host receives ------------------------------------------------------

  predicate Ends(c: HostCall) {
    c.Committed? || c.Discarded? || c.SealedCall?
  }

  // How a call continues those before it. Epochs increase from block to block;
  // a block opens with its one preceding_text, and nothing of an epoch follows
  // its end. What is committed or sealed was rendered last, and is what the
  // buffer read when the composition ended.
  predicate Continues(before: seq<HostCall>, c: HostCall) {
    && (forall b <- before :: b.epoch <= c.epoch && (Ends(b) || c.PrecedingText? ==> b.epoch < c.epoch))
    && (!c.PrecedingText? ==> before != [] && before[|before| - 1].epoch == c.epoch)
    && (c.Committed? || c.SealedCall? ==> before != [] && before[|before| - 1] == Rendered(c.epoch, c.ended))
  }

  predicate InBlocks(calls: seq<HostCall>) {
    forall i :: 0 <= i < |calls| ==> Continues(calls[..i], calls[i])
  }

  // What the protocol's state says of the calls so far.
  predicate Reached(calls: seq<HostCall>, p: Protocol) {
    match p
    case Between(next) => forall c <- calls :: c.epoch < next
    case Within(epoch, last) =>
      && calls != [] && calls[|calls| - 1].epoch == epoch && (forall c <- calls :: c.epoch <= epoch && (Ends(c) ==> c.epoch < epoch))
      && (last.Some? ==> calls[|calls| - 1] == Rendered(epoch, last.value))
    case Broken => true
  }

  lemma ProtocolContinues(calls: seq<HostCall>, c: HostCall)
    requires Reached(calls, AfterCalls(calls)) && AfterCall(AfterCalls(calls), c) != Broken
    ensures Continues(calls, c) && Reached(calls + [c], AfterCall(AfterCalls(calls), c))
  {
    assert forall x <- calls + [c] :: x == c || x in calls;
  }

  lemma BlocksGrow(calls: seq<HostCall>, c: HostCall)
    requires InBlocks(calls) && Continues(calls, c)
    ensures InBlocks(calls + [c])
  {
    var both := calls + [c];
    forall i | 0 <= i < |both| ensures Continues(both[..i], both[i]) {
      assert both[..i] == calls[..i];
      if i == |calls| {
        assert calls[..i] == calls;
      } else {
        assert Continues(calls[..i], calls[i]);
      }
    }
  }

  lemma {:induction false} ProtocolMeansBlocks(calls: seq<HostCall>)
    ensures Reached(calls, AfterCalls(calls)) && (AfterCalls(calls) != Broken ==> InBlocks(calls))
  {
    if calls != [] {
      var front, last := calls[..|calls| - 1], calls[|calls| - 1];
      assert front + [last] == calls;
      ProtocolMeansBlocks(front);
      if AfterCalls(calls) != Broken {
        ProtocolContinues(front, last);
        BlocksGrow(front, last);
      }
    }
  }

  lemma HostCallsInBlocks(immediate: bool, backend: bool, events: seq<Event>, table: Table, d: DocId)
    requires d in Run(Start(immediate, backend), events, table).docs
    ensures InBlocks(Run(Start(immediate, backend), events, table).docs[d].calls)
  {
    var s := Run(Start(immediate, backend), events, table);
    RunIsGood(immediate, backend, events, table);
    assert DocOk(s, d);
    ProtocolMeansBlocks(s.docs[d].calls);
  }

  // ---- nothing is forgotten ---------------------------------------------------------------

  // The answer to a conversion is published, or its job is with the worker; it
  // is not going to be Superseded.
  predicate WillBeAnswered(t: Tracker, sequence: nat) {
    Underway(t.worker, sequence) && (sequence in t.worker.answers ==> !t.worker.answers[sequence].Superseded?)
  }

  // A sealed segment that is not final has its context read queued, its
  // conversion underway, or that conversion's result queued; one that can be
  // written has a write queued.
  predicate OnItsWay(s: State, d: DocId, i: nat)
    requires d in s.docs && i < |s.docs[d].segments|
  {
    var x, doc := s.docs[d].segments[i], s.docs[d];
    && (Writable(x, i > 0) ==> WriteFinished in doc.queue)
    && match x.stage
       case WaitingForContext => ReadContext(x.epoch) in doc.queue
       case Converting(awaited) =>
         || (awaited in s.conversions.pending && s.conversions.pending[awaited].epoch == x.epoch && WillBeAnswered(s.conversions, awaited))
         || Carried(doc.queue, awaited, x.epoch)
       case Finished => true
  }

  lemma NoSegmentIsStuck(immediate: bool, backend: bool, events: seq<Event>, table: Table, d: DocId, i: nat)
    requires d in Run(Start(immediate, backend), events, table).docs
    requires i < |Run(Start(immediate, backend), events, table).docs[d].segments|
    ensures OnItsWay(Run(Start(immediate, backend), events, table), d, i)
  {
    var s := Run(Start(immediate, backend), events, table);
    var doc, t := s.docs[d], s.conversions;
    RunIsGood(immediate, backend, events, table);
    assert DocOk(s, d) && DocMoves(doc, d, t);
    var x := doc.segments[i];
    assert MovesOn(x, doc.queue, t, d);
    if x.stage.Converting? && x.stage.awaited in t.pending {
      assert Underway(t.worker, x.stage.awaited);
    }
  }

  // ---- training ------------------------------------------------------------------------------

  // Every sample handed to training is the text the document held for it, all
  // of it picked by the user or converted by the model.
  lemma SamplesAreTexts(immediate: bool, backend: bool, events: seq<Event>, table: Table, d: DocId)
    requires d in Run(Start(immediate, backend), events, table).docs
    ensures forall r <- Run(Start(immediate, backend), events, table).docs[d].records ::
              r.sample.answer == r.held == FinalText(r.entries) && (forall e <- r.entries :: e.chosen || e.modelConverted)
  {
    var s := Run(Start(immediate, backend), events, table);
    RunIsGood(immediate, backend, events, table);
    assert DocOk(s, d);
    forall r <- s.docs[d].records ensures RecordOk(r) && forall e <- r.entries :: e.chosen || e.modelConverted {
      assert RecordOk(r);
    }
  }

  // ---- the buffer -------------------------------------------------------------------------------

  // The candidate shown exists, the caret is on the buffer, ids stay unique,
  // and a composition between keys is never empty.
  lemma BufferStaysWellFormed(immediate: bool, backend: bool, events: seq<Event>, table: Table)
    requires Run(Start(immediate, backend), events, table).comp.Some?
    ensures var b := Run(Start(immediate, backend), events, table).comp.value.buffer;
            && b.entries != [] && -1 <= b.idx < |b.entries| && UniqueIds(b.entries)
            && (forall e <- b.entries :: e.compositable ==> 0 <= e.chooseIndex < |e.candidates|)
  {
    RunIsGood(immediate, backend, events, table);
    var b := Run(Start(immediate, backend), events, table).comp.value.buffer;
    assert forall e <- b.entries :: e.Wf();
  }
}
