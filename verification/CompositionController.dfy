/**
 The composition state machine as it runs: its methods change the composition,
 the queues and the documents step by step. Serving events one after another it
 passes through the states of the run, and stays a state the theorems hold of.
 */
module CompositionControllers {
  import opened Wrappers
  import opened Bopomofo
  import opened Buffers
  import opened CandidateLocks
  import opened Conversions
  import opened Documents
  import opened Controller
  import opened SegmentGrants
  import opened SealProofs
  import opened ControllerInv
  import opened CallProofs
  import opened Runs
  import opened AnswerInv
  import opened AnswerRuns

  class CompositionController {
    var composition: Option<Composition>
    var nextEpoch: nat
    var conversions: Tracker
    var docs: map<DocId, Doc>
    const immediate: bool

    function View(): State
      reads this
    {
      State(composition, nextEpoch, immediate, conversions, docs)
    }

    ghost predicate Valid()
      reads this
    {
      Good(View()) && Told(View())
    }

    constructor (immediateConversion: bool, backend: bool)
      ensures Valid() && View() == Start(immediateConversion, backend)
    {
      composition, nextEpoch, immediate := None, 1, immediateConversion;
      conversions, docs := Tracker(backend, 0, map[], IDLE_WORKER, map[], false, map[], map[], backend), map[];
      new;
      RunIsTold(immediateConversion, backend, [], map[]);
      RunIsGood(immediateConversion, backend, [], map[]);
    }

    // ---- events ------------------------------------------------------------------------

    // A list of events takes the controller where the run of them goes.
    method Serve(events: seq<Event>, table: Table)
      requires Valid()
      modifies this
      ensures Valid() && View() == Run(old(View()), events, table)
    {
      hide Good, Told, Step;
      for i := 0 to |events|
        invariant Valid() && View() == Run(old(View()), events[..i], table)
      {
        Handle(events[i], table);
        assert events[..i + 1][..i] == events[..i];
      }
      assert events[..|events|] == events;
    }

    method Handle(e: Event, table: Table)
      requires Valid()
      modifies this
      ensures Valid() && View() == Step(old(View()), e, table)
    {
      hide Good, Told;
      StepKeeps(View(), e, table);
      StepTold(View(), e, table);
      if EditsComposition(e) {
        OnKey(e, table);
      } else if WorksBehind(e) {
        conversions := WorkedOn(conversions, e);
      } else {
        OnOther(e);
      }
    }

    method OnKey(e: Event, table: Table)
      requires EditsComposition(e)
      modifies this
      ensures View() == Step(old(View()), e, table)
    {
      match e
      case KeyReading(d, symbol, g) => OnReading(d, symbol, table, g);
      case KeyText(d, text, g) => OnText(d, text, g);
      case KeyDiscardReading(d, g) => OnDiscardReading(d, g);
      case KeyBackspace(d, g) => OnBackspace(d, g);
      case KeyMoveCaret(d, forward, toEdge, g) => OnMoveCaret(d, forward, toEdge, g);
      case KeyEnter(d, g) => OnEnter(d, g);
      case KeyEscape(d, g) => OnEscape(d, g);
      case KeyBackspaceInOrder(d, g) => OnBackspaceInOrder(d, g);
    }

    method OnOther(e: Event)
      requires !EditsComposition(e) && !WorksBehind(e)
      modifies this
      ensures forall table :: View() == Step(old(View()), e, table)
    {
      match e
      case ListOpened(entry) => OnListOpened(entry);
      case ListPick(d, entry, index, g) => OnPick(d, entry, index, g);
      case ListClosed(d, g) => OnListClosed(d, g);
      case Sealing(g) => SealNow(g);
      case Granted(d) => RunQueued(d);
      case Answered(sequence, granted, g) => OnConversion(sequence, granted, g);
      case DocumentOpened(d, text) => OnOpened(d, text);
      case DocumentClosed(d) => OnClosed(d);
      case ShuttingDown(granted, g) => Stop(granted, g);
    }

    // ---- documents ---------------------------------------------------------------------

    method OnOpened(d: DocId, text: string)
      modifies this`docs
      ensures forall table :: View() == Step(old(View()), DocumentOpened(d, text), table)
    {
      if d !in docs {
        docs := docs[d := NewDoc(text)];
      }
    }

    method OnClosed(d: DocId)
      modifies this`docs, this`composition
      ensures forall table :: View() == Step(old(View()), DocumentClosed(d), table)
    {
      if composition.Some? && composition.value.document == d {
        composition := None;
      }
      docs := docs - {d};
    }

    // ---- requests ----------------------------------------------------------------------

    method Request()
      requires composition.Some?
      modifies this`conversions, this`composition
      ensures View() == RequestConversion(old(View()))
    {
      var c := composition.value;
      if c.preceding.None? {
        return;
      }
      var snapshot := ConversionSnapshot(c.buffer);
      if snapshot.None? || (c.sent.Some? && c.sent.value.revision == snapshot.value.revision) {
        return;
      }
      conversions := Send(conversions, RequestFor(c, snapshot.value));
      if conversions.backend {
        composition := Some(c.(sent := Some(Sent(snapshot.value.revision, conversions.sequence))));
      }
    }

    method Convert(d: DocId, i: nat)
      requires d in docs && i < |docs[d].segments|
      modifies this`conversions, this`docs
      ensures View() == ConvertSegment(old(View()), d, i)
    {
      var segment := docs[d].segments[i];
      var snapshot := ConversionSnapshot(segment.buffer);
      if snapshot.Some? && conversions.backend {
        conversions := Send(conversions, Conversions.Request(segment.epoch, snapshot.value.revision, d, snapshot.value.entries));
        docs := docs[d := SetSegment(docs[d], i, segment.(stage := Converting(conversions.sequence)))];
      } else {
        docs := docs[d := SetSegment(docs[d], i, FinishSegment(segment))];
      }
    }

    // ---- edits ----------------------------------------------------------------------------

    method ContextReady(d: DocId, epoch: nat, preceding: string)
      requires d in docs
      modifies this
      ensures View() == SealedContextReady(old(View()), d, epoch, preceding)
    {
      var i := SegmentOf(docs[d].segments, epoch);
      if i == |docs[d].segments| {
        return;
      }
      docs := docs[d := SetSegment(docs[d], i, docs[d].segments[i].(preceding := Some(preceding)))];
      if !docs[d].segments[i].stage.WaitingForContext? {
        return;
      }
      ghost var known := View();
      ConvertSegmentQueue(known, d, i);
      Convert(d, i);
      docs := docs[d := WriteIfFinished(docs[d], i)];
    }

    method ReadPreceding(d: DocId, epoch: nat)
      requires d in docs
      modifies this
      ensures View() == RunReadContext(old(View()), d, epoch)
    {
      var preceding := ContextBefore(docs[d]);
      docs := docs[d := HostReads(docs[d], epoch)];
      if composition.Some? && composition.value.epoch == epoch {
        composition := Some(composition.value.(preceding := Some(preceding)));
        Request();
      } else {
        ContextReady(d, epoch, preceding);
      }
    }

    method Render(d: DocId)
      requires d in docs && composition.Some?
      modifies this`docs
      ensures View() == RenderLive(old(View()), d)
    {
      docs := docs[d := HostRenders(docs[d], composition.value.epoch, Buffers.Render(composition.value.buffer))];
    }

    method ApplyConverted(d: DocId, sequence: nat, request: Request, converted: seq<Output>)
      requires d in docs
      modifies this
      ensures View() == RunApply(old(View()), d, sequence, request, converted)
    {
      if composition.Some? && composition.value.epoch == request.epoch {
        var (c, changed) := Apply(composition.value, sequence, request, converted);
        composition := Some(c);
        if changed {
          Render(d);
        }
      } else {
        docs := docs[d := MergeSealed(docs[d], request.epoch, sequence, request.snapshot, converted)];
        if EpochFinished(docs[d], request.epoch) {
          docs := docs[d := Enqueue(docs[d], WriteFinished)];
        }
      }
    }

    method AcceptAll(d: DocId, epoch: nat)
      requires d in docs
      modifies this
      ensures View() == RunAcceptLocally(old(View()), d, epoch)
    {
      if composition.None? || composition.value.epoch != epoch {
        return;
      }
      var c := composition.value;
      var changed := HasPendingConversion(c.buffer.entries);
      composition := Some(c.(converted := Some(c.buffer.revision), buffer := c.buffer.(entries := AcceptLocal(c.buffer.entries))));
      if changed {
        Render(d);
      }
    }

    // Runs the edit at the front of the queue.
    method RunNext(d: DocId)
      requires d in docs && docs[d].queue != []
      modifies this
      ensures View() == RunFront(old(View()), d)
    {
      var edit := docs[d].queue[0];
      docs := docs[d := docs[d].(queue := docs[d].queue[1..])];
      match edit
      case ReadContext(epoch) => ReadPreceding(d, epoch);
      case Show(epoch, ended) =>
        var live := composition.Some? && composition.value.epoch == epoch;
        docs := docs[d := HostRenders(docs[d], epoch, if live then Buffers.Render(composition.value.buffer) else ended)];
      case ApplyResult(sequence, request, converted) => ApplyConverted(d, sequence, request, converted);
      case Commit(epoch, sample, entries) => docs := docs[d := RunCommit(docs[d], epoch, sample, entries)];
      case Discard(epoch) => docs := docs[d := HostDiscards(docs[d], epoch)];
      case Seal(epoch) => docs := docs[d := Placed(HostSeals(docs[d], epoch), epoch)];
      case Backspace => docs := docs[d := EraseInOrder(docs[d])];
      case WriteFinished => docs := docs[d := WriteFrom(docs[d], 0, false)];
      case AcceptLocally(epoch) => AcceptAll(d, epoch);
    }

    // Runs the queue of one document until it is empty.
    method RunQueued(d: DocId)
      modifies this
      ensures View() == Drain(old(View()), d)
    {
      while d in docs && docs[d].queue != []
        invariant Drain(View(), d) == Drain(old(View()), d)
        decreases if d in docs then Weight(docs[d].queue) else 0
      {
        RunFrontQueue(View(), d);
        RunNext(d);
      }
    }

    method Edit(d: DocId, edit: Edit, granted: bool)
      modifies this
      ensures View() == RunEdit(old(View()), d, edit, granted)
    {
      if d !in docs {
        return;
      }
      docs := docs[d := Enqueue(docs[d], edit)];
      if granted {
        RunQueued(d);
      }
    }

    // ---- ending a composition --------------------------------------------------------------

    method Note(d: DocId, intent: Intent)
      modifies this`docs
      ensures View() == Intend(old(View()), d, intent)
    {
      if d in docs {
        docs := docs[d := docs[d].(intents := docs[d].intents + [intent])];
      }
    }

    // Already when the edit is queued no composition is open: a grant may follow at once.
    method CommitNow(granted: bool)
      requires composition.Some?
      modifies this
      ensures View() == CommitComposition(old(View()), granted)
    {
      var c := composition.value;
      composition := None;
      Note(c.document, Typed(EndedAs(c)));
      Edit(c.document, Commit(c.epoch, TrainingSample(c.buffer, c.preceding), c.buffer.entries), granted);
    }

    method DiscardNow(granted: bool)
      requires composition.Some?
      modifies this
      ensures View() == DiscardComposition(old(View()), granted)
    {
      var c := composition.value;
      composition := None;
      Edit(c.document, Discard(c.epoch), granted);
    }

    method Add(c: Composition, inFlight: Option<nat>)
      requires c.document in docs
      modifies this`docs, this`conversions
      ensures View() == AddSegment(old(View()), c, inFlight)
    {
      var d := c.document;
      var i := |docs[d].segments|;
      var segment := NewSegment(c.epoch, d, c.buffer, c.preceding);
      docs := docs[d := docs[d].(segments := docs[d].segments + [segment])];
      if inFlight.Some? {
        docs := docs[d := SetSegment(docs[d], i, segment.(stage := Converting(inFlight.value)))];
      } else if segment.preceding.Some? {
        Convert(d, i);
      }
    }

    method SealNow(g: Grants)
      modifies this
      ensures View() == SealComposition(old(View()), g)
    {
      if composition.None? {
        return;
      }
      ghost var before := View();
      var frozen := HasUncomposedReading(composition.value.buffer.entries);
      var c := composition.value.(buffer := FreezeReadings(composition.value.buffer));
      composition := Some(c);
      if Settled(c) {
        CommitNow(g.first);
        return;
      }
      // The answer that finishes the segment is underway already.
      var inFlight: Option<nat> := None;
      if !frozen && c.sent.Some? && c.sent.value.revision == c.buffer.revision && c.sent.value.sequence in conversions.pending {
        inFlight := Some(c.sent.value.sequence);
      }
      composition := None;
      if c.document in docs {
        Leave(c, inFlight, g);
      }
    }

    // The composition stays in its document as a sealed segment.
    method Leave(c: Composition, inFlight: Option<nat>, g: Grants)
      requires c.document in docs
      modifies this
      ensures var added := AddSegment(Intend(old(View()), c.document, TypedSealed(c.epoch, c.buffer)), c, inFlight);
              c.document in added.docs && View() == SealSteps(old(View()), added, c.document, c.epoch, g)
    {
      Note(c.document, TypedSealed(c.epoch, c.buffer));
      Add(c, inFlight);
      if EpochFinished(docs[c.document], c.epoch) {
        Edit(c.document, WriteFinished, g.first);
      }
      Edit(c.document, Seal(c.epoch), g.second);
    }

    // ---- keys --------------------------------------------------------------------------------

    method OpenIn(d: DocId, granted: bool)
      modifies this
      ensures View() == Open(old(View()), d, granted)
    {
      if composition.Some? || d !in docs {
        return;
      }
      var epoch := nextEpoch;
      composition := Some(Composition(epoch, d, None, EmptyBuffer(immediate), UNLOCKED, None, None, [], false));
      nextEpoch := nextEpoch + 1;
      Edit(d, ReadContext(epoch), granted);
    }

    method ShowNow(granted: bool)
      requires composition.Some?
      modifies this
      ensures View() == ShowComposition(old(View()), granted)
    {
      var c := composition.value;
      Edit(c.document, Show(c.epoch, Buffers.Render(c.buffer)), granted);
    }

    method UpdateTo(buffer: Buffer, granted: bool)
      requires composition.Some?
      modifies this
      ensures View() == Update(old(View()), buffer, granted)
    {
      composition := Some(composition.value.(buffer := buffer));
      if buffer.entries == [] {
        DiscardNow(granted);
        return;
      }
      ShowNow(granted);
      if composition.Some? {
        Request();
      }
    }

    method OnReading(d: DocId, symbol: char, table: Table, g: Grants)
      modifies this
      ensures View() == TypeReading(old(View()), d, symbol, table, g)
    {
      OpenIn(d, g.first);
      if composition.Some? && composition.value.document == d {
        UpdateTo(Buffers.Add(composition.value.buffer, symbol, table), g.second);
      }
    }

    method OnText(d: DocId, text: string, g: Grants)
      modifies this
      ensures View() == TypeText(old(View()), d, text, g)
    {
      if text == "" {
        return;
      }
      OpenIn(d, g.first);
      if composition.Some? && composition.value.document == d {
        UpdateTo(AddAllChosen(composition.value.buffer, text), g.second);
      }
    }

    method OnDiscardReading(d: DocId, g: Grants)
      modifies this
      ensures View() == DiscardReading(old(View()), d, g)
    {
      if composition.Some? && composition.value.document == d {
        var discarded := DiscardCurrentReading(composition.value.buffer);
        if discarded.Some? {
          UpdateTo(discarded.value, g.first);
        }
      }
    }

    method OnBackspace(d: DocId, g: Grants)
      modifies this
      ensures View() == BackspaceKey(old(View()), d, g)
    {
      if composition.Some? && composition.value.document == d {
        var removed := RemoveLast(composition.value.buffer);
        if removed.Some? {
          UpdateTo(removed.value, g.first);
        }
      }
    }

    method OnMoveCaret(d: DocId, forward: bool, toEdge: bool, g: Grants)
      modifies this
      ensures View() == MoveCaretKey(old(View()), d, forward, toEdge, g)
    {
      if composition.Some? && composition.value.document == d {
        var moved := MoveCaret(composition.value.buffer, forward, toEdge);
        if moved.Some? {
          composition := Some(composition.value.(buffer := moved.value));
          ShowNow(g.first);
        }
      }
    }

    method OnEnter(d: DocId, g: Grants)
      modifies this
      ensures View() == Enter(old(View()), d, g)
    {
      if composition.None? || composition.value.document != d || HasUncomposedReading(composition.value.buffer.entries) {
        return;
      }
      if Settled(composition.value) {
        CommitNow(g.first);
        return;
      }
      Request();
      SealNow(g);
    }

    method OnEscape(d: DocId, g: Grants)
      modifies this
      ensures View() == Escape(old(View()), d, g)
    {
      if composition.Some? && composition.value.document == d {
        DiscardNow(g.first);
      }
    }

    method OnBackspaceInOrder(d: DocId, g: Grants)
      modifies this
      ensures View() == BackspaceInOrder(old(View()), d, g)
    {
      if composition.Some? && composition.value.document == d {
        return;
      }
      Note(d, Erased);
      Edit(d, Backspace, g.first);
    }

    // ---- the candidate list ---------------------------------------------------------------------

    method OnListOpened(entry: nat)
      modifies this`composition
      ensures View() == CandidatesOpened(old(View()), entry)
    {
      if composition.Some? {
        composition := Some(composition.value.(candidates := Opened(composition.value.candidates, entry)));
      }
    }

    method OnPick(d: DocId, entry: nat, index: nat, g: Grants)
      modifies this
      ensures View() == Pick(old(View()), d, entry, index, g)
    {
      if composition.None? || composition.value.document != d {
        return;
      }
      var buffer := composition.value.buffer;
      var picked := SelectCandidate(buffer, entry, index);
      if picked.Some? {
        buffer := picked.value;
      }
      UpdateTo(NextOrStay(buffer), g.first);
    }

    method OnListClosed(d: DocId, g: Grants)
      modifies this
      ensures View() == CandidatesClosed(old(View()), d, g)
    {
      if composition.None? || composition.value.document != d {
        return;
      }
      var c := composition.value;
      var held := c.candidates.held;
      composition := Some(c.(candidates := UNLOCKED));
      if held.None? {
        return;
      }
      var outcome := MergeConversion(c.buffer, held.value.sequence, [held.value.requested], [held.value.converted], None);
      composition := Some(composition.value.(buffer := outcome.buffer));
      if outcome.changed {
        ShowNow(g.first);
      }
    }

    // ---- results -----------------------------------------------------------------------------------

    method FinishLocally()
      modifies this`docs, this`conversions
      ensures View() == FinishEverywhere(old(View()))
    {
      docs := map d <- docs :: FinishAll(docs[d]);
      conversions := conversions.(dropped := false);
    }

    method RunAll(granted: seq<DocId>)
      modifies this
      ensures View() == DrainAll(old(View()), granted)
    {
      for i := 0 to |granted|
        invariant DrainAll(View(), granted[i..]) == DrainAll(old(View()), granted)
      {
        assert granted[i..][0] == granted[i] && granted[i..][1..] == granted[i + 1..];
        RunQueued(granted[i]);
      }
    }

    method OnBackendLost(granted: seq<DocId>, g: Grants)
      modifies this
      ensures View() == LoseBackend(old(View()), granted, g)
    {
      conversions := Cleared(conversions);
      FinishLocally();
      RunAll(granted);
      if composition.None? {
        return;
      }
      composition := Some(composition.value.(sent := None, lost := true));
      Edit(composition.value.document, AcceptLocally(composition.value.epoch), g.first);
    }

    method OnConversion(sequence: nat, granted: seq<DocId>, g: Grants)
      modifies this
      ensures View() == Deliver(old(View()), sequence, granted, g)
    {
      if sequence !in conversions.worker.answers {
        return;
      }
      var answer := conversions.worker.answers[sequence];
      if sequence !in conversions.pending {
        conversions := Receive(conversions, sequence);
        return;
      }
      var request := conversions.pending[sequence];
      conversions := Receive(conversions, sequence);
      match answer
      case Superseded =>
      case BackendLost => OnBackendLost(granted, g);
      case Converted(padding) =>
        if composition.Some? && composition.value.epoch == request.epoch {
          Edit(request.document, ApplyResult(sequence, request, padding), g.first);
        } else if request.document in docs {
          docs := docs[request.document :=
            MergeSealed(docs[request.document], request.epoch, sequence, request.snapshot, padding)];
          if EpochFinished(docs[request.document], request.epoch) {
            Edit(request.document, WriteFinished, g.first);
          }
        }
    }

    method Stop(granted: seq<DocId>, g: Grants)
      modifies this
      ensures View() == Shutdown(old(View()), granted, g)
    {
      conversions := Cleared(conversions).(backend := false, worker := IDLE_WORKER);
      SealNow(g);
      FinishLocally();
      RunAll(granted);
    }
  }
}
