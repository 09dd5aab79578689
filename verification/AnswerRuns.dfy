/**
 In every run: sealed text is what was sealed with the answers to its requests
 merged, the newest for exactly that content among them; and what is committed
 is the conversion of its content.
 */
module AnswerRuns {
  import opened Wrappers
  import opened Text
  import opened Bopomofo
  import opened Buffers
  import opened BufferProofs
  import opened BufferHistory
  import opened BufferRuns
  import opened CandidateLocks
  import opened Merging
  import opened Absorbing
  import opened Conversions
  import opened Documents
  import opened DocumentProofs
  import opened DocumentInv
  import opened Controller
  import opened ControllerInv
  import opened CallProofs
  import opened HistoryProofs
  import opened Runs
  import opened IntentRuns
  import opened AnswerInv
  import opened AnswerSteps
  import opened AnswerLive
  import opened AnswerGrants
  import opened AnswerEvents
  import opened AnswerEndings
  import opened AnswerResults

  // ---- every run ---------------------------------------------------------------------------

  lemma KeyStepTold(s: State, e: Event, table: Table)
    requires Told(s) && Good(s) && EditsComposition(e)
    ensures Told(Step(s, e, table))
  {
    hide Told, Good;
    match e
    case KeyReading(d, symbol, g) => TypingTold(s, d, symbol, "", table, g);
    case KeyText(d, text, g) => TypingTold(s, d, ' ', text, table, g);
    case KeyDiscardReading(d, g) => ErasingTold(s, d, g);
    case KeyBackspace(d, g) => ErasingTold(s, d, g);
    case KeyMoveCaret(d, forward, toEdge, g) => CaretTold(s, d, forward, toEdge, g);
    case KeyEnter(d, g) => EnterTold(s, d, g);
    case KeyEscape(d, g) => EscapeTold(s, d, g);
    case KeyBackspaceInOrder(d, g) => EraseKeyTold(s, d, g);
  }

  lemma WorkStepTold(s: State, e: Event, table: Table)
    requires Told(s) && WorksBehind(e)
    ensures Told(Step(s, e, table))
  {
    hide Told, Submit;
    WorkerTold(s, Step(s, e, table));
  }

  lemma OtherStepTold(s: State, e: Event, table: Table)
    requires Told(s) && Good(s) && !EditsComposition(e) && !WorksBehind(e)
    ensures Told(Step(s, e, table))
  {
    hide Told, Good, Drain;
    match e
    case ListOpened(entry) => ListOpenedTold(s, entry);
    case ListPick(d, entry, index, g) => PickTold(s, d, entry, index, g);
    case ListClosed(d, g) => ListClosedTold(s, d, g);
    case Sealing(g) => GoodIsSafe(s); SealingTold(s, g);
    case Granted(d) => GoodIsSafe(s); GrantTold(s, d, true);
    case Answered(sequence, granted, g) => DeliverTold(s, sequence, granted, g);
    case DocumentOpened(d, text) => if d !in s.docs { OpenedDocumentTold(s, d, text); }
    case DocumentClosed(d) => ClosedDocumentTold(s, d);
    case ShuttingDown(granted, g) => ShutdownTold(s, granted, g);
  }

  lemma GoodIsSafe(s: State)
    requires Good(s)
    ensures Safe(s) && (s.comp.Some? ==> s.comp.value.buffer.entries != [])
  {
  }

  lemma StepTold(s: State, e: Event, table: Table)
    requires Told(s) && Good(s)
    ensures Told(Step(s, e, table))
  {
    hide Told, Good, Step;
    if EditsComposition(e) {
      KeyStepTold(s, e, table);
    } else if WorksBehind(e) {
      WorkStepTold(s, e, table);
    } else {
      OtherStepTold(s, e, table);
    }
  }

  lemma {:induction false} RunIsTold(immediate: bool, backend: bool, events: seq<Event>, table: Table)
    ensures Told(Run(Start(immediate, backend), events, table))
  {
    if events != [] {
      hide Told, Good, Step;
      var front, last := events[..|events| - 1], events[|events| - 1];
      RunIsTold(immediate, backend, front, table);
      RunIsGood(immediate, backend, front, table);
      StepTold(Run(Start(immediate, backend), front, table), last, table);
    }
  }

  // ---- sealed text -------------------------------------------------------------------------

  // The written segment w is the conversion of what was sealed: its text is that
  // of the content with answers to requests of its epoch merged, each once. The
  // newest request was for exactly this content, and its answer is among them,
  // unless the backend was lost or missing or all of it was erased.
  predicate ConversionOf(t: Tracker, content: Buffer, w: Segment) {
    && w.origin == content
    && FinalText(w.buffer.entries) == FinalText(MergeAll(content, w.answers).entries)
    && DistinctSequences(w.answers) && (forall r <- w.answers :: Truthful(t, r, w.epoch))
    && (w.local ==> !t.present || content.entries == [])
    && (w.local || w.erased >= |w.buffer.entries| || (NewestIsOf(t, w) && HasNewest(t, w)))
  }

  lemma AcceptedReads(a: seq<Entry>, b: seq<Entry>)
    requires AcceptLocal(a) == AcceptLocal(b)
    ensures FinalText(a) == FinalText(b)
  {
    assert |a| == |AcceptLocal(a)| == |b|;
    forall i | 0 <= i < |a| ensures a[i].Current() == b[i].Current() {
      assert AcceptLocal(a)[i] == AcceptLocal(b)[i];
    }
    assert Currents(a) == Currents(b);
  }

  lemma WrittenIsConversion(t: Tracker, w: Segment, epoch: nat)
    requires WrittenTold(t, w, epoch)
    ensures ConversionOf(t, w.origin, w)
  {
    AcceptedReads(w.buffer.entries, MergeAll(w.origin, w.answers).entries);
  }

  // Once everything has run the document reads as if every conversion had been
  // instant: each sealed text as the conversion of what was sealed.
  lemma ReadsAsConverted(immediate: bool, backend: bool, events: seq<Event>, table: Table, d: DocId)
    requires d in Run(Start(immediate, backend), events, table).docs
    requires Quiet(Run(Start(immediate, backend), events, table), d)
    ensures var s, past := Run(Start(immediate, backend), events, table), PastOf(immediate, backend, events, table, d);
      var doc := s.docs[d];
      && (forall f: map<nat, string> | Agrees(f, doc.written) :: PiecesText(doc.pieces) == Replay(past.initial, past.intents, f))
      && forall intent <- past.intents :: intent.TypedSealed? ==>
           intent.epoch in doc.written && ConversionOf(s.conversions, intent.content, doc.written[intent.epoch])
  {
    var s, past := Run(Start(immediate, backend), events, table), PastOf(immediate, backend, events, table, d);
    var doc := s.docs[d];
    ReadsAsTyped(immediate, backend, events, table, d);
    PastIsKept(immediate, backend, events, table, d);
    RunIsTold(immediate, backend, events, table);
    forall intent <- past.intents | intent.TypedSealed? ensures ConversionOf(s.conversions, intent.content, doc.written[intent.epoch]) {
      SealedIntent(s, d, intent);
    }
  }

  lemma SealedIntent(s: State, d: DocId, intent: Intent)
    requires Told(s) && d in s.docs && intent in s.docs[d].intents && intent.TypedSealed? && intent.epoch in s.docs[d].written
    ensures ConversionOf(s.conversions, intent.content, s.docs[d].written[intent.epoch])
    ensures WrittenTold(s.conversions, s.docs[d].written[intent.epoch], intent.epoch)
  {
    hide SegmentTold, EndedTold;
    var doc := s.docs[d];
    assert DocumentTold(s.conversions, doc, d);
    assert IntentTold(s.conversions, doc, intent);
    WrittenIsConversion(s.conversions, doc.written[intent.epoch], intent.epoch);
  }

  // The map of what was written is one of those.
  function Finals(written: map<nat, Segment>): map<nat, string> {
    map e <- written :: FinalText(written[e].buffer.entries)
  }

  lemma FinalsAgree(t: Tracker, written: map<nat, Segment>)
    requires forall e <- written :: WrittenTold(t, written[e], e)
    ensures Agrees(Finals(written), written)
  {
    forall e <- written ensures MayBecome(written[e], Finals(written)[e]) {
      FinalTextPrefix(written[e].buffer.entries, 0);
    }
  }

  lemma ReadsAsWritten(immediate: bool, backend: bool, events: seq<Event>, table: Table, d: DocId)
    requires d in Run(Start(immediate, backend), events, table).docs
    requires Quiet(Run(Start(immediate, backend), events, table), d)
    ensures var doc, past := Run(Start(immediate, backend), events, table).docs[d], PastOf(immediate, backend, events, table, d);
      PiecesText(doc.pieces) == Replay(past.initial, past.intents, Finals(doc.written))
  {
    var s := Run(Start(immediate, backend), events, table);
    ReadsAsTyped(immediate, backend, events, table, d);
    RunIsTold(immediate, backend, events, table);
    TellsDocument(s, d);
    FinalsAgree(s.conversions, s.docs[d].written);
  }

  // ---- the newest answer -------------------------------------------------------------------------

  // The answer changes each entry of the content that is not fixed.
  predicate ConvertsAll(content: seq<Entry>, r: Result) {
    forall item <- content :: item.chosen || Hits(item, r)
  }

  // No older answer marks an output for the content as chosen.
  predicate NoneOlderChosen(content: seq<Entry>, rs: seq<Result>, newest: nat) {
    forall item <- content, r <- rs :: Hits(item, r) && BringsChosen(item, r) ==> r.sequence >= newest
  }

  lemma NewestEntry(item: Entry, rs: seq<Result>, w: Result, content: seq<Entry>)
    requires AllProper(rs) && DistinctSequences(rs) && w in rs && (forall r <- rs :: r.sequence <= w.sequence) && item in content
    requires (item.chosen || Hits(item, w)) && NoneOlderChosen(content, rs, w.sequence)
    ensures MergeEntryAll(item, rs) == if item.chosen then item else Landed(item, w)
  {
    if item.chosen {
      NothingHits(item, rs);
    } else {
      forall i: nat | Stops(item, rs, i) ensures rs[i] == w {
        assert rs[i] in rs;
        SameResult(rs, rs[i], w);
      }
      NewestWins(item, rs, w);
    }
  }

  // Text that was converted reads as the newest answer alone makes it.
  lemma NewestAnswerAlone(t: Tracker, content: Buffer, w: Segment, newest: Result)
    requires LogOk(t) && ConversionOf(t, content, w) && UniqueIds(content.entries)
    requires newest in w.answers && newest.sequence == t.newest[w.epoch]
    requires ConvertsAll(content.entries, newest) && NoneOlderChosen(content.entries, w.answers, newest.sequence)
    ensures FinalText(w.buffer.entries) == FinalText(MergedWith(content, newest).entries)
  {
    var rs := w.answers;
    forall i | 0 <= i < |rs| ensures Proper(rs[i]) && rs[i].sequence <= newest.sequence {
      assert rs[i] in rs && Truthful(t, rs[i], w.epoch);
    }
    MergeAllByEntry(content, rs);
    MergeByEntry(content, newest, None);
    forall i | 0 <= i < |content.entries| ensures MergeAll(content, rs).entries[i] == MergedWith(content, newest).entries[i] {
      assert content.entries[i] in content.entries;
      NewestEntry(content.entries[i], rs, newest, content.entries);
      MergeEntryIs(content.entries[i], newest);
    }
    assert MergeAll(content, rs).entries == MergedWith(content, newest).entries;
  }

  // ---- what is committed -------------------------------------------------------------------------

  // Merging the result again would change nothing.
  predicate Merged(b: Buffer, r: Result) {
    MergedWith(b, r) == b
  }

  lemma MergedExactly(b: Buffer, r: Result)
    requires UniqueIds(b.entries) && Proper(r)
    ensures Merged(b, r) <==> MergedBut(b.entries, r, None)
  {
    MergeByEntry(b, r, None);
    if MergedBut(b.entries, r, None) {
      forall i | 0 <= i < |b.entries| ensures MergedWith(b, r).entries[i] == b.entries[i] {
        MergeEntryIs(b.entries[i], r);
        assert b.entries[i] in b.entries;
      }
      assert MergedWith(b, r).entries == b.entries;
    }
    if Merged(b, r) && |r.requested| == |r.converted| {
      forall k: nat, x: Entry | k < |r.requested| && x in b.entries && x.id == r.requested[k].id ensures Absorbs(x, r, k) {
        var i :| 0 <= i < |b.entries| && b.entries[i] == x;
        MergeEntryIs(x, r);
        SameIndex(r.requested, Asked(x, r), k);
      }
    }
  }

  // A result for what is typed now is held back behind the list, and its output
  // would change the entry.
  predicate HoldsBack(t: Tracker, c: Composition) {
    c.candidates.held.Some? && StillLands(c.buffer.entries, c.candidates.held.value)
    && c.candidates.held.value.sequence in t.asked && t.asked[c.candidates.held.value.sequence].revision == c.buffer.revision
  }

  predicate StillLands(s: seq<Entry>, held: Held) {
    exists x <- s :: x.id == held.requested.id && Lands(x, held.sequence, held.requested, held.converted)
      && Buffers.Converted(x, held.sequence, held.converted) != x
  }

  // A result for exactly what is typed now.
  predicate OfRevision(t: Tracker, c: Composition, r: Result) {
    r in c.applied && r.sequence in t.asked && t.asked[r.sequence].revision == c.buffer.revision
  }

  // Of a revision there is one request, so its result is the newest.
  lemma OfRevisionIsNewest(t: Tracker, c: Composition, queue: seq<Edit>, r: Result)
    requires LogOk(t) && CompositionTold(t, c, queue) && !c.lost && OfRevision(t, c, r)
    ensures r.sequence == LastSequence(c.applied) && OfContent(t, r.sequence, c.buffer.entries) && Proper(r)
  {
    LastIsNewest(c.applied);
    var w :| w in c.applied && w.sequence == LastSequence(c.applied);
    assert Truthful(t, w, c.epoch) && Truthful(t, r, c.epoch);
    assert SentOf(t, w.sequence, c.buffer) && SentOf(t, r.sequence, c.buffer);
  }

  lemma HeldOfRevision(t: Tracker, c: Composition, queue: seq<Edit>, r: Result)
    requires LogOk(t) && CompositionTold(t, c, queue) && Wf(c.buffer) && !c.lost && OfRevision(t, c, r)
    ensures Merged(c.buffer, r) <==> !HoldsBack(t, c)
  {
    OfRevisionIsNewest(t, c, queue, r);
    MergedExactly(c.buffer, r);
    hide RequestsTold, OfContent;
    assert MergedBut(c.buffer.entries, r, c.candidates.held);
    if HoldsBack(t, c) {
      var held := c.candidates.held.value;
      var x: Result, k: nat :| x in c.applied && k < |x.requested| == |x.converted| && HoldsOutput(c.candidates.held, x, k);
      OfRevisionIsNewest(t, c, queue, x);
      SameResult(c.applied, x, r);
      var item :| item in c.buffer.entries && item.id == held.requested.id && Lands(item, held.sequence, held.requested, held.converted)
        && Buffers.Converted(item, held.sequence, held.converted) != item;
      assert !Absorbs(item, r, k);
    } else if |r.requested| == |r.converted| {
      forall k: nat, x: Entry | k < |r.requested| && x in c.buffer.entries && x.id == r.requested[k].id ensures Absorbs(x, r, k) {
        if HoldsOutput(c.candidates.held, r, k) {
          assert Truthful(t, r, c.epoch);
        }
      }
    }
  }

  // A composition said to be converted has a result of what it holds, and has all
  // such results merged if and only if none of them is held back behind the list.
  lemma ConvertedExactly(immediate: bool, backend: bool, events: seq<Event>, table: Table)
    requires var s := Run(Start(immediate, backend), events, table);
             s.comp.Some? && s.comp.value.converted == Some(s.comp.value.buffer.revision) && !s.comp.value.lost
    ensures var s := Run(Start(immediate, backend), events, table);
            var t, c := s.conversions, s.comp.value;
            && (exists r <- c.applied :: OfRevision(t, c, r) && OfContent(t, r.sequence, c.buffer.entries))
            && ((forall r <- c.applied :: OfRevision(t, c, r) ==> Merged(c.buffer, r)) <==> !HoldsBack(t, c))
  {
    var s := Run(Start(immediate, backend), events, table);
    var t, c := s.conversions, s.comp.value;
    RunIsGood(immediate, backend, events, table);
    RunIsTold(immediate, backend, events, table);
    OpenIsTold(s);
    var r := ResultOfRevision(t, c);
    var queue := s.docs[c.document].queue;
    OfRevisionIsNewest(t, c, queue, r);
    HeldOfRevision(t, c, queue, r);
    forall x <- c.applied | OfRevision(t, c, x) ensures x == r {
      OfRevisionIsNewest(t, c, queue, x);
      GivenOnce(t, c, queue, x, r);
    }
  }

  lemma GivenOnce(t: Tracker, c: Composition, queue: seq<Edit>, x: Result, r: Result)
    requires Given(t, c.applied, c.epoch, queue) && x in c.applied && r in c.applied && x.sequence == r.sequence
    ensures x == r
  {
    SameResult(c.applied, x, r);
  }

  lemma OpenIsTold(s: State)
    requires Told(s) && Good(s) && s.comp.Some?
    ensures s.comp.value.document in s.docs && Wf(s.comp.value.buffer) && LogOk(s.conversions)
    ensures CompositionTold(s.conversions, s.comp.value, s.docs[s.comp.value.document].queue)
    ensures Given(s.conversions, s.comp.value.applied, s.comp.value.epoch, s.docs[s.comp.value.document].queue)
  {
  }

  lemma ResultOfRevision(t: Tracker, c: Composition) returns (r: Result)
    requires ConvertedTold(t, c) && c.converted == Some(c.buffer.revision) && !c.lost
    ensures OfRevision(t, c, r)
  {
    r :| r in c.applied && r.sequence in t.asked && t.asked[r.sequence].revision == c.converted.value;
  }

  // An event commits the composition: it is fixed text, or the backend was lost, or
  // a result for exactly this content was given and is merged but for what is held back.
  lemma CommitIsConversion(immediate: bool, backend: bool, events: seq<Event>, table: Table, e: Event, d: DocId, ended: Ended)
    requires d in Run(Start(immediate, backend), events, table).docs && e != DocumentClosed(d)
    requires Typed(ended) in IntentsOf(Run(Start(immediate, backend), events, table), e, d)
    ensures EndedTold(Step(Run(Start(immediate, backend), events, table), e, table).conversions, ended)
  {
    var s := Run(Start(immediate, backend), events, table);
    RunIsGood(immediate, backend, events, table);
    RunIsTold(immediate, backend, events, table);
    StepTold(s, e, table);
    HistoryIsIntended(s, e, table, d);
    var r := Step(s, e, table);
    TellsDocument(r, d);
    assert Typed(ended) in r.docs[d].intents;
    assert IntentTold(r.conversions, r.docs[d], Typed(ended));
  }

  // ---- edits are not overwritten --------------------------------------------------------------------

  // In every run, of what was sent for the open composition and what it holds now:
  // no version goes back, under one version an entry is the syllable it was, and a
  // result for what was sent leaves an entry typed otherwise or fixed since as it is.
  lemma ResultsMissEditedInRun(immediate: bool, backend: bool, events: seq<Event>, table: Table, q: nat, e: Entry, p: nat,
                               sequence: nat, converted: seq<Output>, locked: Option<nat>)
    requires var s := Run(Start(immediate, backend), events, table);
             && s.comp.Some? && AskedFor(s.conversions, q, s.comp.value.epoch) && e in s.conversions.asked[q].snapshot
             && p < |s.comp.value.buffer.entries| && s.comp.value.buffer.entries[p].id == e.id
    ensures var s := Run(Start(immediate, backend), events, table);
            var b, sent := s.comp.value.buffer, s.conversions.asked[q].snapshot;
            var x, m := b.entries[p], MergeConversion(b, sequence, sent, converted, locked).buffer;
            && e.version <= x.version
            && (e.version == x.version ==>
                  e.initial == x.initial && e.medial == x.medial && e.final == x.final && e.tone == x.tone && (e.chosen ==> x.chosen))
            && (x.chosen || x.Reading() != e.Reading() ==> |m.entries| == |b.entries| && m.entries[p] == x)
  {
    var s := Run(Start(immediate, backend), events, table);
    var c := s.comp.value;
    RunIsGood(immediate, backend, events, table);
    RunIsTold(immediate, backend, events, table);
    OpenIsTold(s);
    SentIsOlder(s.conversions, c, q, e, c.buffer.entries[p]);
    if c.buffer.entries[p].chosen || c.buffer.entries[p].Reading() != e.Reading() {
      SucceedsItself(c.buffer.entries);
      EditedMissed(c.buffer, s.conversions.asked[q].snapshot, e, c.buffer.entries[p], p, sequence, converted, locked);
    }
  }

  lemma SentIsOlder(t: Tracker, c: Composition, q: nat, e: Entry, x: Entry)
    requires RequestsTold(t, c) && AskedFor(t, q, c.epoch) && e in t.asked[q].snapshot && x in c.buffer.entries && x.id == e.id
    ensures Later(e, x) && UniqueIds(t.asked[q].snapshot)
  {
    assert SentOf(t, q, c.buffer);
  }
}
