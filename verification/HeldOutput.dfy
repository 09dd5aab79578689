/**
 An output held back behind an open list is not committed with the rest: a run
 in which Enter commits another text than the conversion of what was typed.
 */
module HeldOutput {
  import opened Wrappers
  import opened Text
  import opened Bopomofo
  import opened Buffers
  import opened BufferProofs
  import opened CandidateLocks
  import opened Merging
  import opened Conversions
  import opened Documents
  import opened Controller
  import opened GrantProofs
  import opened HistoryProofs
  import opened AnswerSteps
  import opened AnswerRuns

  // ---- everything is granted at once -----------------------------------------------------

  // Document d shows the composition and nothing is queued.
  predicate Idles(s: State, d: DocId) {
    d in s.docs && s.docs[d].queue == []
  }

  lemma Drained(s: State, d: DocId, e: Edit)
    requires d in s.docs && s.docs[d].queue == [e]
    ensures RunFront(s, d) == RunEditBody(WithDoc(s, d, s.docs[d].(queue := [])), d, e)
    ensures Idles(RunFront(s, d), d) ==> Drain(s, d) == RunFront(s, d)
  {
    assert s.docs[d].queue[1..] == [];
    RunFrontQueue(s, d);
  }

  lemma RunsAtOnce(s: State, d: DocId, e: Edit)
    requires Idles(s, d) && Idles(RunEditBody(s, d, e), d)
    ensures RunEdit(s, d, e, true) == RunEditBody(s, d, e)
  {
    var queued := WithDoc(s, d, Enqueue(s.docs[d], e));
    assert queued.docs[d].queue == [e];
    assert WithDoc(queued, d, queued.docs[d].(queue := [])) == s;
    Drained(queued, d, e);
  }

  lemma OpensAtOnce(s: State, d: DocId)
    requires s.comp.None? && Idles(s, d)
    ensures var r := Open(s, d, true);
            && Idles(r, d) && r.conversions == s.conversions && r.comp.Some? && r.comp.value.preceding.Some?
            && r.comp.value == Composition(s.nextEpoch, d, r.comp.value.preceding, EmptyBuffer(s.immediate), UNLOCKED, None, None, [], false)
  {
    var c := Composition(s.nextEpoch, d, None, EmptyBuffer(s.immediate), UNLOCKED, None, None, [], false);
    var begun := s.(comp := Some(c), nextEpoch := s.nextEpoch + 1);
    RunsAtOnce(begun, d, ReadContext(c.epoch));
  }

  lemma UpdatesAtOnce(s: State, buffer: Buffer)
    requires s.comp.Some? && Idles(s, s.comp.value.document) && buffer.entries != []
    ensures var t, r := WithComp(s, s.comp.value.(buffer := buffer)), Update(s, buffer, true);
            && Idles(r, s.comp.value.document)
            && r.comp == RequestConversion(t).comp && r.conversions == RequestConversion(t).conversions
  {
    hide Render, Send;
    var c := s.comp.value.(buffer := buffer);
    RunsAtOnce(WithComp(s, c), c.document, Show(c.epoch, Render(buffer)));
  }

  lemma AnswersAtOnce(s: State, q: nat)
    requires s.comp.Some? && q in s.conversions.worker.answers && s.conversions.worker.answers[q].Converted?
    requires q in s.conversions.pending && s.conversions.pending[q].epoch == s.comp.value.epoch
    requires s.conversions.pending[q].document == s.comp.value.document && Idles(s, s.comp.value.document)
    ensures var request, padding := s.conversions.pending[q], s.conversions.worker.answers[q].padding;
            var r := Deliver(s, q, [], Grants(true, true));
            && Idles(r, s.comp.value.document) && r.conversions == Receive(s.conversions, q)
            && r.comp == Some(Apply(s.comp.value, q, request, padding).0)
  {
    hide Render, Receive, MergeConversion;
    var request, padding := s.conversions.pending[q], s.conversions.worker.answers[q].padding;
    var taken := s.(conversions := Receive(s.conversions, q));
    RunsAtOnce(taken, request.document, ApplyResult(q, request, padding));
  }

  // ---- the run ------------------------------------------------------------------------------

  const G := Grants(true, true)
  const TABLE: Table := map["ㄇㄚ " := "ab"]

  // One syllable, typed as three symbols, and a fixed character behind it.
  const SYLLABLE := Entry(Some('ㄇ'), None, Some('ㄚ'), Some(' '), 0, false, false, true, false, true, false, false, 1, 2, 0, "ab")
  const SIGN := Entry(None, None, None, None, 0, true, true, false, false, true, false, false, 2, 0, 0, "x")

  // The first answer reads a, the second reads b.
  const FIRST: Output := SYLLABLE.(predicted := true)
  const CONVERTED := SYLLABLE.(conversionPending := false, modelConverted := true, convertedBy := 1)
  const SECOND: Output := CONVERTED.(predicted := true, candidates := "ba")
  const KEPT: Output := SIGN

  const TYPED := Buffer([SYLLABLE], 0, false, 3, 2)
  const READ := Buffer([CONVERTED], 0, false, 3, 2)
  const LONGER := Buffer([CONVERTED, SIGN], 1, false, 4, 3)

  const ASKED := Request(1, 3, 0, [SYLLABLE])
  const ASKED_AGAIN := Request(1, 4, 0, [CONVERTED, SIGN])

  // The composition but for the text before it, and the tracker.
  predicate Stands(s: State, c: Composition, t: Tracker) {
    s.comp.Some? && s.comp.value.preceding.Some? && s.comp.value.(preceding := None) == c && s.conversions == t && Idles(s, 0)
  }

  function Composed(b: Buffer, lock: Lock, sent: Option<Sent>, converted: Option<nat>, applied: seq<Result>): Composition {
    Composition(1, 0, None, b, lock, sent, converted, applied, false)
  }

  const START := Tracker(true, 0, map[], IDLE_WORKER, map[], false, map[], map[], true)

  function Waiting(b: Buffer): Composition {
    Composed(b, UNLOCKED, None, None, [])
  }

  // Up to its tone the syllable is not sent.
  const ONE := Buffer([FreshEntry(1).(initial := Some('ㄇ'))], 0, false, 1, 2)
  const TWO := Buffer([FreshEntry(1).(initial := Some('ㄇ'), final := Some('ㄚ'), version := 1)], 0, false, 2, 2)

  lemma FirstSymbol()
    ensures Add(EmptyBuffer(false), 'ㄇ', TABLE) == ONE
  {
    hide InsertAfterCaret;
    FirstAccepted();
    FirstInserted();
  }

  lemma FirstInserted()
    ensures InsertAfterCaret(EmptyBuffer(false), FreshEntry(0).(initial := Some('ㄇ'))) == ONE
  {
  }

  lemma FirstAccepted()
    ensures FreshEntry(0).Accept('ㄇ', TABLE) == Some(FreshEntry(0).(initial := Some('ㄇ')))
  {
    assert 'ㄇ' == INITIALS[2];
  }

  lemma SecondSymbol()
    ensures Add(ONE, 'ㄚ', TABLE) == TWO
  {
    assert 'ㄚ' == FINALS[0];
    assert 'ㄚ' !in INITIALS && 'ㄚ' !in MEDIALS;
    assert Add(ONE, 'ㄚ', TABLE).entries == TWO.entries;
  }

  lemma ThirdSymbol()
    ensures Add(TWO, ' ', TABLE) == TYPED
  {
    assert ' ' == TONES[0];
    assert ' ' !in INITIALS && ' ' !in MEDIALS && ' ' !in FINALS;
    var e := TWO.entries[0];
    assert e.(tone := Some(' ')).Reading() == "ㄇㄚ ";
    assert Add(TWO, ' ', TABLE).entries == TYPED.entries;
  }

  lemma TextBehind()
    ensures AddAllChosen(READ, "x") == LONGER
  {
    assert "x"[..0] == "" && AddAllChosen(READ, "") == READ;
    assert AddChosen(READ, 'x').entries == LONGER.entries;
  }

  lemma NotSentYet()
    ensures ConversionSnapshot(ONE) == None && ConversionSnapshot(TWO) == None
  {
    assert ONE.entries[0] in ONE.entries && TWO.entries[0] in TWO.entries;
  }

  lemma SnapshotsTaken()
    ensures ConversionSnapshot(TYPED) == Some(Snapshot(3, [SYLLABLE]))
    ensures ConversionSnapshot(LONGER) == Some(Snapshot(4, [CONVERTED, SIGN]))
  {
    assert TYPED.entries[0] in TYPED.entries && LONGER.entries[0] in LONGER.entries;
  }

  lemma FirstKey(s: State)
    requires s.comp.None? && Idles(s, 0) && s.nextEpoch == 1 && !s.immediate && s.conversions == START
    ensures Stands(Step(s, KeyReading(0, 'ㄇ', G), TABLE), Waiting(ONE), START)
  {
    hide Open, Update, Add, Drain;
    FirstSymbol();
    NotSentYet();
    OpensAtOnce(s, 0);
    UpdatesAtOnce(Open(s, 0, true), ONE);
  }

  // A symbol that leaves the syllable unfinished.
  lemma Goes(s: State)
    requires Stands(s, Waiting(ONE), START)
    ensures Stands(Step(s, KeyReading(0, 'ㄚ', G), TABLE), Waiting(TWO), START)
  {
    SecondSymbol();
    NotSentYet();
    UpdatesAtOnce(s, TWO);
  }

  // A request while the worker has nothing to do.
  lemma SendsAlone(t: Tracker, request: Request)
    requires t.backend && t.worker.jobs == []
    ensures var r := Send(t, request);
            r == t.(sequence := t.sequence + 1, pending := t.pending[t.sequence + 1 := request],
                    newest := t.newest[request.epoch := t.sequence + 1], asked := t.asked[t.sequence + 1 := request],
                    worker := t.worker.(jobs := [Job(Predict, t.sequence + 1, request.epoch)]))
  {
    var job := Job(Predict, t.sequence + 1, request.epoch);
    assert Remaining([], job) == [] && Dropped([], job) == {};
    assert t.worker.answers + (map q <- Dropped([], job) :: Superseded) == t.worker.answers;
  }

  const SENT := Tracker(true, 1, map[1 := ASKED], Worker([Job(Predict, 1, 1)], None, map[]), map[1 := 1], false, map[1 := ASKED], map[], true)

  lemma Sends(s: State)
    requires Stands(s, Waiting(TWO), START)
    ensures Stands(Step(s, KeyReading(0, ' ', G), TABLE), Composed(TYPED, UNLOCKED, Some(Sent(3, 1)), None, []), SENT)
  {
    hide Update, Add, Send;
    ThirdSymbol();
    SnapshotsTaken();
    UpdatesAtOnce(s, TYPED);
    SendsAlone(START, ASKED);
  }

  // The worker takes the job and the backend answers.
  function Back(t: Tracker, q: nat, answer: Answer): Tracker {
    t.(worker := Worker([], None, map[q := answer]))
  }

  lemma Works(s: State, c: Composition, t: Tracker, q: nat, answer: Answer)
    requires Stands(s, c, t) && t.worker == Worker([Job(Predict, q, 1)], None, map[]) && !answer.Superseded?
    ensures Stands(Step(Step(s, JobStarts, TABLE), JobEnds(answer), TABLE), c, Back(t, q, answer))
  {
    hide StartJob, FinishJob, TypeReading, TypeText, Enter, Pick, CandidatesClosed, SealComposition, Deliver, Shutdown;
    TrackerWorks(t, q, answer);
  }

  lemma TrackerWorks(t: Tracker, q: nat, answer: Answer)
    requires t.worker == Worker([Job(Predict, q, 1)], None, map[]) && !answer.Superseded?
    ensures FinishJob(StartJob(t), answer) == Back(t, q, answer)
  {
    assert t.worker.jobs[1..] == [];
    assert StartJob(t).worker == Worker([], Some(Job(Predict, q, 1)), map[]);
  }

  // An answer for the open composition is granted at once.
  lemma Answers(s: State, c: Composition, t: Tracker, q: nat, padding: seq<Output>)
    requires Stands(s, c, Back(t, q, Answer.Converted(padding))) && c.document == 0 && c.preceding.None?
    requires q in t.pending && t.pending[q].epoch == c.epoch && t.pending[q].document == 0
    ensures Stands(Step(s, Answered(q, [], G), TABLE), Apply(c, q, t.pending[q], padding).0,
                   Receive(Back(t, q, Answer.Converted(padding)), q))
  {
    hide Deliver, Receive, MergeConversion;
    AnswersAtOnce(s, q);
  }

  const ANSWERED := Tracker(true, 1, map[], Worker([], None, map[]), map[1 := 1], false, map[1 := ASKED], map[1 := [FIRST]], true)
  const FIRST_RESULT := Result(1, [SYLLABLE], [FIRST])

  lemma FirstMerges()
    ensures MergeConversion(TYPED, 1, [SYLLABLE], [FIRST], None) == MergeOutcome(READ, true, None)
  {
    assert IndexOf(TYPED.entries, 1) == 0;
    assert TYPED.entries[0 := CONVERTED] == READ.entries;
    assert MergeFrom(READ, 1, [SYLLABLE], [FIRST], None, 1, true, None) == MergeOutcome(READ, true, None);
  }

  lemma FirstTaken()
    ensures Receive(Back(SENT, 1, Answer.Converted([FIRST])), 1) == ANSWERED
  {
    var t := Back(SENT, 1, Answer.Converted([FIRST]));
    assert t.worker.answers - {1} == map[] && t.pending - {1} == map[];
  }

  lemma FirstApplied()
    ensures Apply(Composed(TYPED, UNLOCKED, Some(Sent(3, 1)), None, []), 1, ASKED, [FIRST]).0
            == Composed(READ, UNLOCKED, Some(Sent(3, 1)), Some(3), [FIRST_RESULT])
  {
    hide MergeConversion;
    FirstMerges();
    assert [] + [FIRST_RESULT] == [FIRST_RESULT];
  }

  lemma FirstAnswer(s: State)
    requires Stands(s, Composed(TYPED, UNLOCKED, Some(Sent(3, 1)), None, []), Back(SENT, 1, Answer.Converted([FIRST])))
    ensures Stands(Step(s, Answered(1, [], G), TABLE), Composed(READ, UNLOCKED, Some(Sent(3, 1)), Some(3), [FIRST_RESULT]), ANSWERED)
  {
    hide Stands, Receive, Apply;
    FirstTaken();
    FirstApplied();
    Answers(s, Composed(TYPED, UNLOCKED, Some(Sent(3, 1)), None, []), SENT, 1, [FIRST]);
  }

  const SENT_AGAIN := Tracker(true, 2, map[2 := ASKED_AGAIN], Worker([Job(Predict, 2, 1)], None, map[]), map[1 := 2], false,
                              map[1 := ASKED, 2 := ASKED_AGAIN], map[1 := [FIRST]], true)

  lemma SendsAgain(s: State)
    requires Stands(s, Composed(READ, UNLOCKED, Some(Sent(3, 1)), Some(3), [FIRST_RESULT]), ANSWERED)
    ensures Stands(Step(s, KeyText(0, "x", G), TABLE), Composed(LONGER, UNLOCKED, Some(Sent(4, 2)), Some(3), [FIRST_RESULT]), SENT_AGAIN)
  {
    hide Update, AddAllChosen, Send;
    TextBehind();
    SnapshotsTaken();
    UpdatesAtOnce(s, LONGER);
    SendsAlone(ANSWERED, ASKED_AGAIN);
  }

  const LOCKED := Lock(Some(1), None)
  const HOLDING := Lock(Some(1), Some(Held(2, CONVERTED, SECOND)))
  const SECOND_RESULT := Result(2, [CONVERTED, SIGN], [SECOND, KEPT])
  const ANSWERED_AGAIN := Tracker(true, 2, map[], Worker([], None, map[]), map[1 := 2], false, map[1 := ASKED, 2 := ASKED_AGAIN],
                                  map[1 := [FIRST], 2 := [SECOND, KEPT]], true)

  lemma SecondWaits()
    ensures MergeConversion(LONGER, 2, [CONVERTED, SIGN], [SECOND, KEPT], Some(1)) == MergeOutcome(LONGER, false, Some((CONVERTED, SECOND)))
  {
    assert IndexOf(LONGER.entries, 1) == 0;
    assert LONGER.entries[1..] == [SIGN] && IndexOf([SIGN], 2) == 0;
    assert IndexOf(LONGER.entries, 2) == 1;
    var held := Some((CONVERTED, SECOND));
    assert MergeFrom(LONGER, 2, [CONVERTED, SIGN], [SECOND, KEPT], Some(1), 2, false, held) == MergeOutcome(LONGER, false, held);
    assert MergeFrom(LONGER, 2, [CONVERTED, SIGN], [SECOND, KEPT], Some(1), 1, false, held) == MergeOutcome(LONGER, false, held);
  }

  lemma SecondTaken()
    ensures Receive(Back(SENT_AGAIN, 2, Answer.Converted([SECOND, KEPT])), 2) == ANSWERED_AGAIN
  {
    var t := Back(SENT_AGAIN, 2, Answer.Converted([SECOND, KEPT]));
    assert t.worker.answers - {2} == map[] && t.pending - {2} == map[];
  }

  lemma SecondApplied()
    ensures Apply(Composed(LONGER, LOCKED, Some(Sent(4, 2)), Some(3), [FIRST_RESULT]), 2, ASKED_AGAIN, [SECOND, KEPT]).0
            == Composed(LONGER, HOLDING, Some(Sent(4, 2)), Some(4), [FIRST_RESULT, SECOND_RESULT])
  {
    hide MergeConversion;
    SecondWaits();
    assert [FIRST_RESULT] + [SECOND_RESULT] == [FIRST_RESULT, SECOND_RESULT];
  }

  lemma SecondAnswer(s: State)
    requires Stands(s, Composed(LONGER, LOCKED, Some(Sent(4, 2)), Some(3), [FIRST_RESULT]), Back(SENT_AGAIN, 2, Answer.Converted([SECOND, KEPT])))
    ensures Stands(Step(s, Answered(2, [], G), TABLE),
                   Composed(LONGER, HOLDING, Some(Sent(4, 2)), Some(4), [FIRST_RESULT, SECOND_RESULT]), ANSWERED_AGAIN)
  {
    hide Stands, Receive, Apply;
    SecondTaken();
    SecondApplied();
    Answers(s, Composed(LONGER, LOCKED, Some(Sent(4, 2)), Some(3), [FIRST_RESULT]), SENT_AGAIN, 2, [SECOND, KEPT]);
  }

  // ---- what Enter commits -------------------------------------------------------------------------

  function After(events: seq<Event>): State {
    Run(Start(false, true), events, TABLE)
  }

  lemma Then(events: seq<Event>, e: Event)
    ensures After(events + [e]) == Step(After(events), e, TABLE)
  {
    assert (events + [e])[..|events|] == events;
  }

  lemma Begins()
    ensures var s := After([DocumentOpened(0, "")]);
            s.comp.None? && Idles(s, 0) && s.nextEpoch == 1 && !s.immediate && s.conversions == START
  {
    Then([], DocumentOpened(0, ""));
    assert [] + [DocumentOpened(0, "")] == [DocumentOpened(0, "")];
  }

  lemma Reads() returns (events: seq<Event>)
    ensures Stands(After(events), Composed(READ, UNLOCKED, Some(Sent(3, 1)), Some(3), [FIRST_RESULT]), ANSWERED)
  {
    hide Step, Stands, After;
    events := [DocumentOpened(0, "")];
    Begins();
    FirstKey(After(events));
    Then(events, KeyReading(0, 'ㄇ', G));
    events := events + [KeyReading(0, 'ㄇ', G)];
    Goes(After(events));
    Then(events, KeyReading(0, 'ㄚ', G));
    events := events + [KeyReading(0, 'ㄚ', G)];
    Sends(After(events));
    Then(events, KeyReading(0, ' ', G));
    events := events + [KeyReading(0, ' ', G)];
    Works(After(events), Composed(TYPED, UNLOCKED, Some(Sent(3, 1)), None, []), SENT, 1, Answer.Converted([FIRST]));
    Then(events, JobStarts);
    Then(events + [JobStarts], JobEnds(Answer.Converted([FIRST])));
    events := events + [JobStarts] + [JobEnds(Answer.Converted([FIRST]))];
    FirstAnswer(After(events));
    Then(events, Answered(1, [], G));
    events := events + [Answered(1, [], G)];
  }

  lemma Locks(s: State, c: Composition, t: Tracker)
    requires Stands(s, c, t) && c.candidates == UNLOCKED
    ensures Stands(Step(s, ListOpened(1), TABLE), c.(candidates := LOCKED), t)
  {
  }

  lemma Holds() returns (events: seq<Event>)
    ensures Stands(After(events), Composed(LONGER, HOLDING, Some(Sent(4, 2)), Some(4), [FIRST_RESULT, SECOND_RESULT]), ANSWERED_AGAIN)
  {
    hide Step, Stands, After;
    events := Reads();
    SendsAgain(After(events));
    Then(events, KeyText(0, "x", G));
    events := events + [KeyText(0, "x", G)];
    var c := Composed(LONGER, UNLOCKED, Some(Sent(4, 2)), Some(3), [FIRST_RESULT]);
    Works(After(events), c, SENT_AGAIN, 2, Answer.Converted([SECOND, KEPT]));
    Then(events, JobStarts);
    Then(events + [JobStarts], JobEnds(Answer.Converted([SECOND, KEPT])));
    events := events + [JobStarts] + [JobEnds(Answer.Converted([SECOND, KEPT]))];
    Locks(After(events), c, Back(SENT_AGAIN, 2, Answer.Converted([SECOND, KEPT])));
    Then(events, ListOpened(1));
    events := events + [ListOpened(1)];
    SecondAnswer(After(events));
    Then(events, Answered(2, [], G));
    events := events + [Answered(2, [], G)];
  }

  lemma TextsDiffer()
    ensures ToText(LONGER) == "ax"
    ensures FinalText(MergedWith(LONGER, SECOND_RESULT).entries) == "bx"
  {
    ShownConcat([CONVERTED], [SIGN], false);
    SingleShows(CONVERTED, false);
    SingleShows(SIGN, false);
    assert LONGER.entries == [CONVERTED] + [SIGN];
    var m := MergedWith(LONGER, SECOND_RESULT);
    MergeByEntry(LONGER, SECOND_RESULT, None);
    MergeEntryIs(CONVERTED, SECOND_RESULT);
    MergeEntryIs(SIGN, SECOND_RESULT);
    var landed := Buffers.Converted(CONVERTED, 2, SECOND);
    assert m.entries == [landed] + [SIGN];
    ShownConcat([landed], [SIGN], false);
    SingleShows(landed, false);
  }

  // The composition is said to be converted and Enter commits "ax", though the
  // result for exactly this content, given but held back, reads "bx".
  lemma CommitsWithoutHeld() returns (events: seq<Event>)
    ensures var s := Run(Start(false, true), events, TABLE);
            && s.comp.Some? && !s.comp.value.lost && s.comp.value.converted == Some(s.comp.value.buffer.revision)
            && HoldsBack(s.conversions, s.comp.value)
            && IntentsOf(s, KeyEnter(0, G), 0) == [Typed(EndedAs(s.comp.value))] && ToText(s.comp.value.buffer) == "ax"
            && OfRevision(s.conversions, s.comp.value, SECOND_RESULT)
            && FinalText(MergedWith(s.comp.value.buffer, SECOND_RESULT).entries) == "bx"
  {
    events := Holds();
    TextsDiffer();
    HeldStillLands();
    var s := After(events);
    assert SECOND_RESULT in s.comp.value.applied;
  }

  lemma HeldStillLands()
    ensures StillLands(LONGER.entries, Held(2, CONVERTED, SECOND))
    ensures ReadyToCommit(LONGER) && !HasUncomposedReading(LONGER.entries)
  {
    assert LONGER.entries[0] in LONGER.entries;
  }
}
