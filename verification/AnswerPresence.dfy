/** While no loss is reported and nothing is shut down the backend is there all along. */
module AnswerPresence {
  import opened Wrappers
  import opened Bopomofo
  import opened Buffers
  import opened BufferProofs
  import opened CandidateLocks
  import opened Conversions
  import opened Documents
  import opened DocumentInv
  import opened DocumentSteps
  import opened Controller
  import opened GrantProofs
  import opened SegmentGrants
  import opened SealProofs

  // No answer on its way reports a loss.
  predicate NoLoss(w: Worker) {
    forall q <- w.answers :: !w.answers[q].BackendLost?
  }

  predicate SamePresence(s: State, r: State) {
    r.conversions.present == s.conversions.present && (NoLoss(s.conversions.worker) ==> NoLoss(r.conversions.worker))
  }

  lemma SendPresence(t: Tracker, request: Request)
    ensures Send(t, request).present == t.present && (NoLoss(t.worker) ==> NoLoss(Send(t, request).worker))
  {
  }

  lemma ConvertPresence(s: State, d: DocId, i: nat)
    requires d in s.docs && i < |s.docs[d].segments|
    ensures SamePresence(s, ConvertSegment(s, d, i))
  {
    hide Send;
    var x := s.docs[d].segments[i];
    var snapshot := ConversionSnapshot(x.buffer);
    if snapshot.Some? {
      SendPresence(s.conversions, Request(x.epoch, snapshot.value.revision, d, snapshot.value.entries));
    }
  }

  lemma RequestPresence(s: State)
    requires s.comp.Some?
    ensures SamePresence(s, RequestConversion(s))
  {
    hide Send;
    var c := s.comp.value;
    if ConversionSnapshot(c.buffer).Some? {
      SendPresence(s.conversions, RequestFor(c, ConversionSnapshot(c.buffer).value));
    }
  }

  lemma ContextPresence(s: State, d: DocId, epoch: nat, preceding: string)
    requires d in s.docs
    ensures SamePresence(s, SealedContextReady(s, d, epoch, preceding))
  {
    hide ConvertSegment, SealedContextReady;
    var i := SegmentOf(s.docs[d].segments, epoch);
    SealedContextIs(s, d, epoch, preceding);
    if i < |s.docs[d].segments| {
      ConvertPresence(Known(s, d, i, preceding), d, i);
    }
  }

  lemma ReadPresence(s: State, d: DocId, epoch: nat)
    requires d in s.docs
    ensures SamePresence(s, RunReadContext(s, d, epoch))
  {
    hide SealedContextReady, RequestConversion;
    var preceding := ContextBefore(s.docs[d]);
    var read := WithDoc(s, d, HostReads(s.docs[d], epoch));
    if LiveEpoch(s, epoch) {
      RequestPresence(WithComp(read, s.comp.value.(preceding := Some(preceding))));
    } else {
      ContextPresence(read, d, epoch, preceding);
    }
  }

  lemma BodyPresence(s: State, d: DocId, e: Edit)
    requires d in s.docs
    ensures SamePresence(s, RunEditBody(s, d, e))
  {
    hide RunReadContext;
    if e.ReadContext? {
      ReadPresence(s, d, e.epoch);
    }
  }

  lemma {:induction false} DrainPresence(s: State, d: DocId)
    ensures SamePresence(s, Drain(s, d))
    decreases if d in s.docs then Weight(s.docs[d].queue) else 0
  {
    hide RunEditBody;
    if d in s.docs && s.docs[d].queue != [] {
      RunFrontQueue(s, d);
      BodyPresence(Popped(s, d), d, s.docs[d].queue[0]);
      DrainPresence(RunFront(s, d), d);
    }
  }

  lemma EditPresence(s: State, d: DocId, e: Edit, granted: bool)
    ensures SamePresence(s, RunEdit(s, d, e, granted))
  {
    if d in s.docs {
      DrainPresence(WithDoc(s, d, Enqueue(s.docs[d], e)), d);
    }
  }

  lemma {:induction false} DrainAllPresence(s: State, granted: seq<DocId>)
    ensures SamePresence(s, DrainAll(s, granted))
    decreases |granted|
  {
    if granted != [] {
      DrainPresence(s, granted[0]);
      DrainAllPresence(Drain(s, granted[0]), granted[1..]);
    }
  }

  lemma CommitPresence(s: State, granted: bool)
    requires s.comp.Some?
    ensures SamePresence(s, CommitComposition(s, granted)) && SamePresence(s, DiscardComposition(s, granted))
  {
    var c := s.comp.value;
    var ended := Intend(s.(comp := None), c.document, Typed(EndedAs(c)));
    EditPresence(ended, c.document, Commit(c.epoch, TrainingSample(c.buffer, c.preceding), c.buffer.entries), granted);
    EditPresence(s.(comp := None), c.document, Discard(c.epoch), granted);
  }

  lemma AddPresence(s: State, c: Composition, inFlight: Option<nat>)
    requires c.document in s.docs
    ensures SamePresence(s, AddSegment(s, c, inFlight)) && c.document in AddSegment(s, c, inFlight).docs
  {
    hide ConvertSegment;
    var doc := s.docs[c.document];
    var added := WithDoc(s, c.document, doc.(segments := doc.segments + [NewSegment(c.epoch, c.document, c.buffer, c.preceding)]));
    ConvertPresence(added, c.document, |doc.segments|);
    ConvertSegmentQueue(added, c.document, |doc.segments|);
  }

  lemma SealPresence(s: State, g: Grants)
    ensures SamePresence(s, SealComposition(s, g))
  {
    hide AddSegment, RunEdit, CommitComposition;
    if s.comp.Some? {
      var c := FrozenComp(s);
      if Settled(c) {
        CommitPresence(WithComp(s, c), g.first);
      } else if c.document in s.docs {
        var intended := Intend(s.(comp := None), c.document, TypedSealed(c.epoch, c.buffer));
        var inFlight := InFlight(WithComp(s, c), HasUncomposedReading(s.comp.value.buffer.entries));
        AddPresence(intended, c, inFlight);
        var added := AddSegment(intended, c, inFlight);
        EditPresence(added, c.document, WriteFinished, g.first);
        var written := if EpochFinished(added.docs[c.document], c.epoch) then RunEdit(added, c.document, WriteFinished, g.first) else added;
        EditPresence(written, c.document, Seal(c.epoch), g.second);
      }
    }
  }

  // ---- keys and answers -----------------------------------------------------------------

  lemma OpenPresence(s: State, d: DocId, granted: bool)
    ensures SamePresence(s, Open(s, d, granted))
  {
    var c := Composition(s.nextEpoch, d, None, EmptyBuffer(s.immediate), UNLOCKED, None, None, [], false);
    EditPresence(s.(comp := Some(c), nextEpoch := s.nextEpoch + 1), d, ReadContext(c.epoch), granted);
  }

  lemma ShowPresence(s: State, granted: bool)
    requires s.comp.Some?
    ensures SamePresence(s, ShowComposition(s, granted))
  {
    EditPresence(s, s.comp.value.document, Show(s.comp.value.epoch, Render(s.comp.value.buffer)), granted);
  }

  lemma UpdatePresence(s: State, buffer: Buffer, granted: bool)
    requires s.comp.Some?
    ensures SamePresence(s, Update(s, buffer, granted))
  {
    hide ShowComposition, DiscardComposition, RequestConversion;
    var t := WithComp(s, s.comp.value.(buffer := buffer));
    CommitPresence(t, granted);
    ShowPresence(t, granted);
    var shown := ShowComposition(t, granted);
    if shown.comp.Some? {
      RequestPresence(shown);
    }
  }

  lemma TypingPresence(s: State, d: DocId, symbol: char, text: string, table: Table, g: Grants)
    ensures SamePresence(s, TypeReading(s, d, symbol, table, g)) && SamePresence(s, TypeText(s, d, text, g))
  {
    hide Open, Update;
    OpenPresence(s, d, g.first);
    var ready := Open(s, d, g.first);
    if Owns(ready, d) {
      UpdatePresence(ready, Add(ready.comp.value.buffer, symbol, table), g.second);
      UpdatePresence(ready, AddAllChosen(ready.comp.value.buffer, text), g.second);
    }
  }

  lemma BufferKeyPresence(s: State, d: DocId, g: Grants)
    ensures SamePresence(s, DiscardReading(s, d, g)) && SamePresence(s, BackspaceKey(s, d, g))
  {
    hide Update;
    if Owns(s, d) {
      var b := s.comp.value.buffer;
      if DiscardCurrentReading(b).Some? {
        UpdatePresence(s, DiscardCurrentReading(b).value, g.first);
      }
      if RemoveLast(b).Some? {
        UpdatePresence(s, RemoveLast(b).value, g.first);
      }
    }
  }

  lemma CaretPresence(s: State, d: DocId, forward: bool, toEdge: bool, g: Grants)
    ensures SamePresence(s, MoveCaretKey(s, d, forward, toEdge, g)) && SamePresence(s, Escape(s, d, g))
  {
    hide ShowComposition, DiscardComposition;
    if Owns(s, d) {
      CommitPresence(s, g.first);
      var moved := MoveCaret(s.comp.value.buffer, forward, toEdge);
      if moved.Some? {
        ShowPresence(WithComp(s, s.comp.value.(buffer := moved.value)), g.first);
      }
    }
  }

  lemma EnterPresence(s: State, d: DocId, g: Grants)
    ensures SamePresence(s, Enter(s, d, g)) && SamePresence(s, BackspaceInOrder(s, d, g))
  {
    hide CommitComposition, SealComposition, RequestConversion, RunEdit;
    if Owns(s, d) {
      CommitPresence(s, g.first);
      RequestPresence(s);
      SealPresence(RequestConversion(s), g);
    }
    EditPresence(Intend(s, d, Erased), d, Backspace, g.first);
  }

  lemma ListPresence(s: State, d: DocId, entry: nat, index: nat, g: Grants)
    ensures SamePresence(s, CandidatesOpened(s, entry)) && SamePresence(s, Pick(s, d, entry, index, g))
    ensures SamePresence(s, CandidatesClosed(s, d, g))
  {
    hide Update, ShowComposition, MergeConversion, SelectCandidate;
    if Owns(s, d) {
      var c := s.comp.value;
      var picked := SelectCandidate(c.buffer, entry, index);
      UpdatePresence(s, NextOrStay(if picked.Some? then picked.value else c.buffer), g.first);
      var held := c.candidates.held;
      if held.Some? {
        var outcome := MergeConversion(c.buffer, held.value.sequence, [held.value.requested], [held.value.converted], None);
        ShowPresence(WithComp(s, c.(candidates := UNLOCKED, buffer := outcome.buffer)), g.first);
      }
    }
  }

  lemma ReceivePresence(t: Tracker, sequence: nat)
    ensures Receive(t, sequence).present == t.present && (NoLoss(t.worker) ==> NoLoss(Receive(t, sequence).worker))
  {
  }

  lemma DeliverPresence(s: State, sequence: nat, granted: seq<DocId>, g: Grants)
    requires NoLoss(s.conversions.worker)
    ensures SamePresence(s, Deliver(s, sequence, granted, g))
  {
    hide RunEdit, LoseBackend, Receive, MergeSealed;
    var taken := s.(conversions := Receive(s.conversions, sequence));
    ReceivePresence(s.conversions, sequence);
    if sequence in s.conversions.worker.answers && sequence in s.conversions.pending {
      var answer, request := s.conversions.worker.answers[sequence], s.conversions.pending[sequence];
      if answer.Converted? {
        EditPresence(taken, request.document, ApplyResult(sequence, request, answer.padding), g.first);
        if request.document in taken.docs {
          var merged := MergeSealed(taken.docs[request.document], request.epoch, sequence, request.snapshot, answer.padding);
          EditPresence(WithDoc(taken, request.document, merged), request.document, WriteFinished, g.first);
        }
      }
    }
  }

  // Events that report no loss and do not shut down.
  predicate Untroubled(e: Event) {
    !e.ShuttingDown? && !(e.JobEnds? && e.answer.BackendLost?)
  }

  lemma KeyPresence(s: State, e: Event, table: Table)
    requires e.KeyReading? || e.KeyText? || e.KeyDiscardReading? || e.KeyBackspace? || e.KeyMoveCaret? || e.KeyEnter?
          || e.KeyEscape? || e.KeyBackspaceInOrder?
    ensures SamePresence(s, Step(s, e, table))
  {
    match e
    case KeyReading(d, symbol, g) => TypingPresence(s, d, symbol, "", table, g);
    case KeyText(d, text, g) => TypingPresence(s, d, ' ', text, table, g);
    case KeyDiscardReading(d, g) => BufferKeyPresence(s, d, g);
    case KeyBackspace(d, g) => BufferKeyPresence(s, d, g);
    case KeyMoveCaret(d, forward, toEdge, g) => CaretPresence(s, d, forward, toEdge, g);
    case KeyEnter(d, g) => EnterPresence(s, d, g);
    case KeyEscape(d, g) => CaretPresence(s, d, false, false, g);
    case KeyBackspaceInOrder(d, g) => EnterPresence(s, d, g);
  }

  lemma WorkPresence(s: State, e: Event, table: Table)
    requires Untroubled(e) && (e.OtherWork? || e.JobStarts? || e.JobEnds? || e.BackendStarts?)
    ensures SamePresence(s, Step(s, e, table))
  {
  }

  lemma StepPresence(s: State, e: Event, table: Table)
    requires Untroubled(e) && NoLoss(s.conversions.worker)
    ensures SamePresence(s, Step(s, e, table))
  {
    hide TypeReading, TypeText, DiscardReading, BackspaceKey, MoveCaretKey, Enter, Escape, BackspaceInOrder, Pick,
         CandidatesOpened, CandidatesClosed, SealComposition, Drain, Deliver, SubmitOther, StartJob, FinishJob;
    match e
    case ListOpened(entry) => ListPresence(s, 0, entry, 0, Grants(false, false));
    case ListPick(d, entry, index, g) => ListPresence(s, d, entry, index, g);
    case ListClosed(d, g) => ListPresence(s, d, 0, 0, g);
    case Sealing(g) => SealPresence(s, g);
    case Granted(d) => DrainPresence(s, d);
    case Answered(sequence, granted, g) => DeliverPresence(s, sequence, granted, g);
    case OtherWork(_, _) => WorkPresence(s, e, table);
    case JobStarts => WorkPresence(s, e, table);
    case JobEnds(_) => WorkPresence(s, e, table);
    case BackendStarts => WorkPresence(s, e, table);
    case DocumentOpened(_, _) =>
    case DocumentClosed(_) =>
    case _ => KeyPresence(s, e, table);
  }

  // A run that starts with a backend keeps it unless a loss is reported or it is shut down.
  lemma {:induction false} PresentThroughout(immediate: bool, events: seq<Event>, table: Table)
    requires forall e <- events :: Untroubled(e)
    ensures var t := Run(Start(immediate, true), events, table).conversions; t.present && NoLoss(t.worker)
  {
    hide Step;
    if events != [] {
      var front, last := events[..|events| - 1], events[|events| - 1];
      assert last in events && forall e <- front :: e in events;
      PresentThroughout(immediate, front, table);
      StepPresence(Run(Start(immediate, true), front, table), last, table);
    }
  }
}
