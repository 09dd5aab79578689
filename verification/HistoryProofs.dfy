/** What a document's history records is what the user did, whatever runs meanwhile. */
module HistoryProofs {
  import opened Wrappers
  import opened Bopomofo
  import opened Buffers
  import opened BufferProofs
  import opened CandidateLocks
  import opened Conversions
  import opened Documents
  import opened DocumentProofs
  import opened DocumentInv
  import opened DocumentSteps
  import opened Controller
  import opened ControllerInv
  import opened GrantProofs
  import opened SegmentGrants
  import opened MovingProofs
  import opened CallProofs
  import opened SealProofs
  import opened ResultProofs

  // Nothing the user did is recorded or forgotten.
  predicate SameHistory(s: State, r: State) {
    && r.docs.Keys == s.docs.Keys
    && forall d <- s.docs :: r.docs[d].intents == s.docs[d].intents && r.docs[d].initial == s.docs[d].initial
  }

  predicate SameDocHistory(doc: Doc, r: Doc) {
    r.intents == doc.intents && r.initial == doc.initial
  }

  lemma {:induction false} WriteHistory(doc: Doc, i: nat, earlierWaiting: bool)
    requires i <= |doc.segments|
    ensures SameDocHistory(doc, WriteFrom(doc, i, earlierWaiting))
    decreases |doc.segments| - i
  {
    if i < |doc.segments| {
      if Writable(doc.segments[i], earlierWaiting) {
        WriteHistory(Written(doc, i), i, earlierWaiting);
      } else {
        WriteHistory(doc, i + 1, true);
      }
    }
  }

  lemma ContextHistory(s: State, d: DocId, epoch: nat, preceding: string)
    requires d in s.docs
    ensures SameHistory(s, SealedContextReady(s, d, epoch, preceding))
  {
    hide Send;
    SealedContextIs(s, d, epoch, preceding);
  }

  lemma ReadHistory(s: State, d: DocId, epoch: nat)
    requires d in s.docs
    ensures SameHistory(s, RunReadContext(s, d, epoch))
  {
    var read := WithDoc(s, d, HostReads(s.docs[d], epoch));
    if !LiveEpoch(s, epoch) {
      ContextHistory(read, d, epoch, ContextBefore(s.docs[d]));
    }
  }

  lemma ApplyHistory(s: State, d: DocId, sequence: nat, request: Request, converted: seq<Output>)
    requires d in s.docs
    ensures SameHistory(s, RunApply(s, d, sequence, request, converted))
  {
  }

  lemma SegmentEditHistory(s: State, d: DocId, e: Edit)
    requires d in s.docs && (e.Seal? || e.Backspace? || e.WriteFinished?)
    ensures SameHistory(s, RunEditBody(s, d, e))
  {
    if e.WriteFinished? {
      WriteHistory(s.docs[d], 0, false);
    }
  }

  lemma BodyHistory(s: State, d: DocId, e: Edit)
    requires d in s.docs
    ensures SameHistory(s, RunEditBody(s, d, e))
  {
    match e
    case ReadContext(epoch) => ReadHistory(s, d, epoch);
    case ApplyResult(sequence, request, converted) => ApplyHistory(s, d, sequence, request, converted);
    case Seal(_) => SegmentEditHistory(s, d, e);
    case Backspace => SegmentEditHistory(s, d, e);
    case WriteFinished => SegmentEditHistory(s, d, e);
    case _ =>
  }

  lemma {:induction false} DrainHistory(s: State, d: DocId)
    ensures SameHistory(s, Drain(s, d))
    decreases if d in s.docs then Weight(s.docs[d].queue) else 0
  {
    if d in s.docs && s.docs[d].queue != [] {
      RunFrontQueue(s, d);
      BodyHistory(Popped(s, d), d, s.docs[d].queue[0]);
      DrainHistory(RunFront(s, d), d);
    }
  }

  lemma RunEditHistory(s: State, d: DocId, e: Edit, granted: bool)
    ensures SameHistory(s, RunEdit(s, d, e, granted))
  {
    if d in s.docs {
      DrainHistory(WithDoc(s, d, Enqueue(s.docs[d], e)), d);
    }
  }

  lemma {:induction false} DrainAllHistory(s: State, granted: seq<DocId>)
    ensures SameHistory(s, DrainAll(s, granted))
    decreases |granted|
  {
    if granted != [] {
      DrainHistory(s, granted[0]);
      DrainAllHistory(Drain(s, granted[0]), granted[1..]);
    }
  }

  // ---- keys ----------------------------------------------------------------------------

  lemma UpdateHistory(s: State, buffer: Buffer, granted: bool)
    requires s.comp.Some?
    ensures SameHistory(s, Update(s, buffer, granted))
  {
    hide Drain, Render;
    var t := WithComp(s, s.comp.value.(buffer := buffer));
    RunEditHistory(t.(comp := None), t.comp.value.document, Discard(t.comp.value.epoch), granted);
    RunEditHistory(t, t.comp.value.document, Show(t.comp.value.epoch, Render(buffer)), granted);
  }

  lemma OpenHistory(s: State, d: DocId, granted: bool)
    ensures SameHistory(s, Open(s, d, granted))
  {
    if s.comp.None? && d in s.docs {
      OpenRuns(s, d, granted);
    }
  }

  lemma OpenRuns(s: State, d: DocId, granted: bool)
    requires s.comp.None? && d in s.docs
    ensures SameHistory(s, Open(s, d, granted))
  {
    var c := Composition(s.nextEpoch, d, None, EmptyBuffer(s.immediate), UNLOCKED, None, None, [], false);
    RunEditHistory(s.(comp := Some(c), nextEpoch := s.nextEpoch + 1), d, ReadContext(c.epoch), granted);
  }

  lemma TypeHistory(s: State, d: DocId, symbol: char, text: string, table: Table, g: Grants)
    ensures SameHistory(s, TypeReading(s, d, symbol, table, g)) && SameHistory(s, TypeText(s, d, text, g))
  {
    OpenHistory(s, d, g.first);
    var ready := Open(s, d, g.first);
    if Owns(ready, d) {
      UpdateHistory(ready, Add(ready.comp.value.buffer, symbol, table), g.second);
      UpdateHistory(ready, AddAllChosen(ready.comp.value.buffer, text), g.second);
    }
  }

  lemma ShowHistory(s: State, granted: bool)
    requires s.comp.Some?
    ensures SameHistory(s, ShowComposition(s, granted))
  {
    RunEditHistory(s, s.comp.value.document, Show(s.comp.value.epoch, Render(s.comp.value.buffer)), granted);
  }

  lemma BufferKeyHistory(s: State, d: DocId, g: Grants)
    ensures SameHistory(s, DiscardReading(s, d, g)) && SameHistory(s, BackspaceKey(s, d, g))
  {
    if Owns(s, d) {
      var b := s.comp.value.buffer;
      if DiscardCurrentReading(b).Some? {
        UpdateHistory(s, DiscardCurrentReading(b).value, g.first);
      }
      if RemoveLast(b).Some? {
        UpdateHistory(s, RemoveLast(b).value, g.first);
      }
    }
  }

  lemma CaretHistory(s: State, d: DocId, forward: bool, toEdge: bool, g: Grants)
    ensures SameHistory(s, MoveCaretKey(s, d, forward, toEdge, g)) && SameHistory(s, Escape(s, d, g))
  {
    if Owns(s, d) {
      var c := s.comp.value;
      if MoveCaret(c.buffer, forward, toEdge).Some? {
        ShowHistory(WithComp(s, c.(buffer := MoveCaret(c.buffer, forward, toEdge).value)), g.first);
      }
      RunEditHistory(s.(comp := None), d, Discard(c.epoch), g.first);
    }
  }

  lemma ListHistory(s: State, d: DocId, entry: nat, index: nat, g: Grants)
    ensures SameHistory(s, CandidatesOpened(s, entry)) && SameHistory(s, Pick(s, d, entry, index, g))
    ensures SameHistory(s, CandidatesClosed(s, d, g))
  {
    hide Drain, RunEdit, Update;
    if Owns(s, d) {
      var c := s.comp.value;
      var picked := SelectCandidate(c.buffer, entry, index);
      UpdateHistory(s, NextOrStay(if picked.Some? then picked.value else c.buffer), g.first);
      var held := c.candidates.held;
      if held.Some? {
        var outcome := MergeConversion(c.buffer, held.value.sequence, [held.value.requested], [held.value.converted], None);
        ShowHistory(WithComp(s, c.(candidates := UNLOCKED, buffer := outcome.buffer)), g.first);
      }
    }
  }

  // ---- results ---------------------------------------------------------------------------------

  lemma LoseBackendHistory(s: State, granted: seq<DocId>, g: Grants)
    ensures SameHistory(s, LoseBackend(s, granted, g))
  {
    var finished := FinishEverywhere(s.(conversions := Cleared(s.conversions)));
    DrainAllHistory(finished, granted);
    var drained := DrainAll(finished, granted);
    if drained.comp.Some? {
      var c := drained.comp.value.(sent := None, lost := true);
      RunEditHistory(WithComp(drained, c), c.document, AcceptLocally(c.epoch), g.first);
    }
  }

  lemma SealedAnswerHistory(s: State, sequence: nat, granted: seq<DocId>, g: Grants)
    requires sequence in s.conversions.worker.answers && s.conversions.worker.answers[sequence].Converted?
    requires sequence in s.conversions.pending && !LiveEpoch(s, s.conversions.pending[sequence].epoch)
    ensures SameHistory(s, Deliver(s, sequence, granted, g))
  {
    hide Deliver, Drain;
    var d, padding := s.conversions.pending[sequence].document, s.conversions.worker.answers[sequence].padding;
    var written := SealedAnswerIs(s, sequence, granted, g);
    if d in s.docs {
      MergedHistory(s, sequence, padding);
      hide MergedDoc;
      DrainHistory(WithDoc(Taken(s, sequence), d, MergedDoc(s, sequence, padding)), d);
    }
  }

  lemma MergedHistory(s: State, sequence: nat, padding: seq<Output>)
    requires sequence in s.conversions.pending && s.conversions.pending[sequence].document in s.docs
    ensures var d := s.conversions.pending[sequence].document;
            SameHistory(s, WithDoc(Taken(s, sequence), d, MergedDoc(s, sequence, padding)))
  {
  }

  lemma DeliverHistory(s: State, sequence: nat, granted: seq<DocId>, g: Grants)
    ensures SameHistory(s, Deliver(s, sequence, granted, g))
  {
    if sequence in s.conversions.worker.answers && sequence in s.conversions.pending {
      var answer, request := s.conversions.worker.answers[sequence], s.conversions.pending[sequence];
      if answer.BackendLost? {
        LoseBackendHistory(Taken(s, sequence), granted, g);
      } else if answer.Converted? {
        if LiveEpoch(s, request.epoch) {
          RunEditHistory(Taken(s, sequence), request.document, ApplyResult(sequence, request, answer.padding), g.first);
        } else {
          SealedAnswerHistory(s, sequence, granted, g);
        }
      }
    }
  }

  // ---- the end of a composition --------------------------------------------------------------------

  // What ending the composition by sealing it adds to the history of a document.
  function SealIntents(s: State, d: DocId): seq<Intent> {
    if !Owns(s, d) then []
    else if Settled(FrozenComp(s)) then [Typed(EndedAs(FrozenComp(s)))]
    else [TypedSealed(s.comp.value.epoch, FrozenComp(s).buffer)]
  }

  // What an event adds to the history of a document.
  function IntentsOf(s: State, e: Event, d: DocId): seq<Intent> {
    match e
    case KeyEnter(x, _) =>
      if x != d || !Owns(s, d) || HasUncomposedReading(s.comp.value.buffer.entries) then []
      else if Settled(s.comp.value) then [Typed(EndedAs(s.comp.value))]
      else [TypedSealed(s.comp.value.epoch, s.comp.value.buffer)]
    case KeyBackspaceInOrder(x, _) => if x == d && !Owns(s, d) then [Erased] else []
    case Sealing(_) => SealIntents(s, d)
    case ShuttingDown(_, _) => SealIntents(s, d)
    case _ => []
  }

  // The history of document d grows by what is intended.
  predicate Grown(s: State, r: State, d: DocId, intended: seq<Intent>)
    requires d in s.docs
  {
    d in r.docs && r.docs[d].intents == s.docs[d].intents + intended && r.docs[d].initial == s.docs[d].initial
  }

  // And no document comes or goes.
  predicate GrownAlone(s: State, r: State, d: DocId, intended: seq<Intent>)
    requires d in s.docs
  {
    r.docs.Keys == s.docs.Keys && Grown(s, r, d, intended)
  }

  lemma CommitHistory(s: State, granted: bool, d: DocId)
    requires s.comp.Some? && d in s.docs
    ensures GrownAlone(s, CommitComposition(s, granted), d, if Owns(s, d) then [Typed(EndedAs(s.comp.value))] else [])
  {
    var c := s.comp.value;
    var ended := Intend(s.(comp := None), c.document, Typed(EndedAs(c)));
    RunEditHistory(ended, c.document, CommitEdit(c), granted);
  }

  lemma SegmentHistory(s: State, x: DocId, intent: Intent, c: Composition, inFlight: Option<nat>, d: DocId)
    requires c.document == x && x in s.docs && d in s.docs
    ensures c.document in Intend(s, x, intent).docs
    ensures GrownAlone(s, AddSegment(Intend(s, x, intent), c, inFlight), d, if x == d then [intent] else [])
  {
  }

  lemma SealStepsHistory(s: State, added: State, x: DocId, epoch: nat, g: Grants)
    requires x in added.docs
    ensures SameHistory(added, SealSteps(s, added, x, epoch, g))
  {
    RunEditHistory(added, x, WriteFinished, g.first);
    var written := if EpochFinished(added.docs[x], epoch) then RunEdit(added, x, WriteFinished, g.first) else added;
    RunEditHistory(written, x, Seal(epoch), g.second);
  }

  lemma SealHistory(s: State, g: Grants, d: DocId)
    requires d in s.docs && (s.comp.Some? ==> Wf(s.comp.value.buffer) && s.comp.value.document in s.docs)
    ensures GrownAlone(s, SealComposition(s, g), d, SealIntents(s, d))
  {
    if s.comp.Some? {
      var c := FrozenComp(s);
      FreezePreserves(s.comp.value.buffer);
      if Settled(c) {
        CommitHistory(WithComp(s, c), g.first, d);
      } else {
        var inFlight := InFlight(WithComp(s, c), HasUncomposedReading(s.comp.value.buffer.entries));
        SegmentHistory(s.(comp := None), c.document, TypedSealed(c.epoch, c.buffer), c, inFlight, d);
        var added := AddSegment(Intend(s.(comp := None), c.document, TypedSealed(c.epoch, c.buffer)), c, inFlight);
        SealIsSteps(s, g);
        SealStepsHistory(s, added, c.document, c.epoch, g);
      }
    }
  }

  lemma EraseHistory(s: State, x: DocId, g: Grants, d: DocId)
    requires d in s.docs
    ensures GrownAlone(s, BackspaceInOrder(s, x, g), d, if x == d && !Owns(s, d) then [Erased] else [])
  {
    RunEditHistory(Intend(s, x, Erased), x, Backspace, g.first);
  }

  lemma EnterHistory(s: State, x: DocId, g: Grants, d: DocId)
    requires Good(s) && d in s.docs
    ensures GrownAlone(s, Enter(s, x, g), d, IntentsOf(s, KeyEnter(x, g), d))
  {
    if Owns(s, x) && !HasUncomposedReading(s.comp.value.buffer.entries) {
      if Settled(s.comp.value) {
        CommitHistory(s, g.first, d);
      } else {
        hide Good, SealComposition;
        AskedAlike(s, d);
        SealHistory(RequestConversion(s), g, d);
      }
    }
  }

  // Sending an unsettled composition leaves what is going to be sealed as it is.
  lemma AskedAlike(s: State, d: DocId)
    requires Good(s) && s.comp.Some? && !HasUncomposedReading(s.comp.value.buffer.entries) && !Settled(s.comp.value)
    ensures var r := RequestConversion(s);
            && r.docs == s.docs && r.comp.Some? && Wf(r.comp.value.buffer) && r.comp.value.document in r.docs
            && SealIntents(r, d) == if Owns(s, d) then [TypedSealed(s.comp.value.epoch, s.comp.value.buffer)] else []
  {
    hide RequestConversion;
    RequestKeeps(s);
  }

  lemma GrowsThrough(s: State, ended: State, r: State, d: DocId, intended: seq<Intent>)
    requires d in s.docs && GrownAlone(s, ended, d, intended) && SameHistory(ended, r)
    ensures GrownAlone(s, r, d, intended)
  {
  }

  lemma FinishHistory(s: State)
    ensures SameHistory(s, FinishEverywhere(s))
  {
  }

  lemma ShutdownHistory(s: State, granted: seq<DocId>, g: Grants, d: DocId)
    requires Good(s) && d in s.docs
    ensures GrownAlone(s, Shutdown(s, granted, g), d, SealIntents(s, d))
  {
    var stopped := s.(conversions := Cleared(s.conversions).(backend := false, worker := IDLE_WORKER));
    assert s.comp.Some? ==> Wf(s.comp.value.buffer) && s.comp.value.document in s.docs;
    hide Good, SealComposition, DrainAll, FinishEverywhere, GrownAlone, SameHistory;
    SealHistory(stopped, g, d);
    var sealed := SealComposition(stopped, g);
    assert GrownAlone(s, sealed, d, SealIntents(s, d)) by {
      SameStart(s, stopped, sealed, d);
    }
    FinishHistory(sealed);
    GrowsThrough(s, sealed, FinishEverywhere(sealed), d, SealIntents(s, d));
    DrainAllHistory(FinishEverywhere(sealed), granted);
    GrowsThrough(s, FinishEverywhere(sealed), DrainAll(FinishEverywhere(sealed), granted), d, SealIntents(s, d));
  }

  lemma SameStart(s: State, t: State, r: State, d: DocId)
    requires t == s.(conversions := t.conversions) && d in s.docs && GrownAlone(t, r, d, SealIntents(t, d))
    ensures GrownAlone(s, r, d, SealIntents(s, d))
  {
  }

  // Events that end no composition and erase nothing.
  predicate Neutral(e: Event) {
    !e.KeyEnter? && !e.KeyBackspaceInOrder? && !e.Sealing? && !e.ShuttingDown? && !e.DocumentOpened? && !e.DocumentClosed?
  }

  lemma BufferEventHistory(s: State, e: Event, table: Table)
    requires e.KeyReading? || e.KeyText? || e.KeyDiscardReading? || e.KeyBackspace? || e.KeyMoveCaret? || e.KeyEscape?
    ensures SameHistory(s, Step(s, e, table))
  {
    match e
    case KeyReading(x, symbol, g) => TypeHistory(s, x, symbol, "", table, g);
    case KeyText(x, text, g) => TypeHistory(s, x, ' ', text, table, g);
    case KeyDiscardReading(x, g) => BufferKeyHistory(s, x, g);
    case KeyBackspace(x, g) => BufferKeyHistory(s, x, g);
    case KeyMoveCaret(x, forward, toEdge, g) => CaretHistory(s, x, forward, toEdge, g);
    case KeyEscape(x, g) => CaretHistory(s, x, false, false, g);
  }

  lemma ListEventHistory(s: State, e: Event, table: Table)
    requires e.ListOpened? || e.ListPick? || e.ListClosed?
    ensures SameHistory(s, Step(s, e, table))
  {
    match e
    case ListOpened(entry) => ListHistory(s, 0, entry, 0, Grants(false, false));
    case ListPick(x, entry, index, g) => ListHistory(s, x, entry, index, g);
    case ListClosed(x, g) => ListHistory(s, x, 0, 0, g);
  }

  lemma NeutralHistory(s: State, e: Event, table: Table)
    requires Neutral(e)
    ensures SameHistory(s, Step(s, e, table))
  {
    match e
    case Granted(x) => DrainHistory(s, x);
    case Answered(sequence, granted, g) => DeliverHistory(s, sequence, granted, g);
    case ListOpened(_) => ListEventHistory(s, e, table);
    case ListPick(_, _, _, _) => ListEventHistory(s, e, table);
    case ListClosed(_, _) => ListEventHistory(s, e, table);
    case OtherWork(_, _) =>
    case JobStarts =>
    case JobEnds(_) =>
    case BackendStarts =>
    case _ => BufferEventHistory(s, e, table);
  }

  lemma EndingHistory(s: State, e: Event, table: Table, d: DocId)
    requires Good(s) && d in s.docs && (e.KeyEnter? || e.KeyBackspaceInOrder? || e.Sealing? || e.ShuttingDown?)
    ensures GrownAlone(s, Step(s, e, table), d, IntentsOf(s, e, d))
  {
    match e
    case KeyEnter(x, g) => EnterHistory(s, x, g, d);
    case KeyBackspaceInOrder(x, g) => EraseHistory(s, x, g, d);
    case Sealing(g) => SealHistory(s, g, d);
    case ShuttingDown(granted, g) => ShutdownHistory(s, granted, g, d);
  }

  // Only opening a document brings one.
  lemma NothingOpened(s: State, e: Event, table: Table)
    requires Good(s) && !e.DocumentOpened?
    ensures Step(s, e, table).docs.Keys <= s.docs.Keys
  {
    if Neutral(e) {
      NeutralHistory(s, e, table);
    } else if !e.DocumentClosed? {
      if x :| x in s.docs {
        EndingHistory(s, e, table, x);
      } else {
        NothingToEnd(s, e, table);
      }
    }
  }

  lemma NothingToEnd(s: State, e: Event, table: Table)
    requires Good(s) && s.docs == map[] && (e.KeyEnter? || e.KeyBackspaceInOrder? || e.Sealing? || e.ShuttingDown?)
    ensures Step(s, e, table).docs.Keys == {}
  {
    assert s.comp.None?;
    if e.ShuttingDown? {
      var stopped := s.(conversions := Cleared(s.conversions).(backend := false, worker := IDLE_WORKER));
      DrainAllHistory(FinishEverywhere(SealComposition(stopped, e.g)), e.granted);
    }
  }

  // The history of a document that stays open is what the user did to it: a
  // committed composition as it read, a sealed one, an erase; nothing else.
  lemma HistoryIsIntended(s: State, e: Event, table: Table, d: DocId)
    requires Good(s) && d in s.docs && e != DocumentClosed(d)
    ensures Grown(s, Step(s, e, table), d, IntentsOf(s, e, d))
  {
    hide Good, TypeReading, TypeText, DiscardReading, BackspaceKey, MoveCaretKey, Enter, Escape, BackspaceInOrder, Pick,
         CandidatesOpened, CandidatesClosed, SealComposition, Drain, Deliver, Shutdown, SealIntents;
    if Neutral(e) {
      NeutralHistory(s, e, table);
      SameIsGrown(s, Step(s, e, table), d);
    } else if !e.DocumentOpened? && !e.DocumentClosed? {
      EndingHistory(s, e, table, d);
    } else {
      SameIsGrown(s, s, d);
    }
  }

  lemma SameIsGrown(s: State, r: State, d: DocId)
    requires SameHistory(s, r) && d in s.docs
    ensures Grown(s, r, d, [])
  {
    assert s.docs[d].intents + [] == s.docs[d].intents;
  }
}
