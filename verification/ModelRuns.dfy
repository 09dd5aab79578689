/**
 A model that converts at once. While the backend answers every request as the
 model does and is never lost, a document reads, once everything has run, as
 if the model had converted each composition the moment it ended.
 */
module ModelRuns {
  import opened Wrappers
  import opened Text
  import opened Bopomofo
  import opened Buffers
  import opened BufferProofs
  import opened BufferHistory
  import opened CandidateLocks
  import opened Merging
  import opened Absorbing
  import opened Conversions
  import opened Documents
  import opened DocumentProofs
  import opened DocumentInv
  import opened Controller
  import opened ControllerInv
  import opened CallProofs
  import opened Runs
  import opened IntentRuns
  import opened AnswerInv
  import opened AnswerSteps
  import opened AnswerGrants
  import opened AnswerPresence
  import opened AnswerRuns

  // ---- what the model says ---------------------------------------------------------

  // What the user typed: a syllable, or text that is fixed.
  datatype Token =
    | Syllable(initial: Option<char>, medial: Option<char>, final: Option<char>, tone: Option<char>)
    | Fixed(text: string)

  function TokenOf(e: Entry): Token {
    if e.chosen then Fixed(e.Current()) else Syllable(e.initial, e.medial, e.final, e.tone)
  }

  function Tokens(s: seq<Entry>): seq<Token> {
    seq(|s|, i requires 0 <= i < |s| => TokenOf(s[i]))
  }

  // The character for the syllable at a position, in its surroundings.
  type Model = (seq<Token>, nat) -> char

  function SpokenOne(tokens: seq<Token>, i: nat, model: Model): string
    requires i < |tokens|
  {
    if tokens[i].Fixed? then tokens[i].text else [model(tokens, i)]
  }

  function Spoken(tokens: seq<Token>, model: Model): string {
    Concat(seq(|tokens|, i requires 0 <= i < |tokens| => SpokenOne(tokens, i, model)))
  }

  // The reference: the model converts each composition as it ends, and each
  // Backspace behind it removes one character.
  function ReplayedOne(before: string, intent: Intent, model: Model): string {
    match intent
    case Typed(ended) => before + Spoken(Tokens(ended.buffer.entries), model)
    case TypedSealed(_, content) => before + Spoken(Tokens(content.entries), model)
    case Erased => DropLast(before, 1)
  }

  function Replayed(initial: string, intents: seq<Intent>, model: Model): string {
    if intents == [] then initial
    else ReplayedOne(Replayed(initial, intents[..|intents| - 1], model), intents[|intents| - 1], model)
  }

  // The answer gives for every syllable the model's character first, and marks
  // nothing as chosen that was not fixed.
  predicate Speaks(requested: seq<Entry>, converted: seq<Output>, model: Model) {
    |converted| == |requested| && forall k :: 0 <= k < |requested| ==> SpeaksOne(requested, converted, k, model)
  }

  predicate SpeaksOne(requested: seq<Entry>, converted: seq<Output>, k: nat, model: Model)
    requires k < |requested| == |converted|
  {
    !requested[k].chosen ==>
      converted[k].predicted && !converted[k].chosen && converted[k].candidates != [] && converted[k].candidates[0] == model(Tokens(requested), k)
  }

  predicate AnswersAs(t: Tracker, model: Model) {
    forall q <- t.answered :: q in t.asked ==> Speaks(t.asked[q].snapshot, t.answered[q], model)
  }

  lemma ModelIsRegular(t: Tracker, model: Model)
    requires AnswersAs(t, model)
    ensures AllRegular(t)
  {
    forall q <- t.answered | q in t.asked ensures Regular(t.asked[q].snapshot, t.answered[q]) {
      forall k | 0 <= k < |t.asked[q].snapshot| && t.answered[q][k].chosen ensures t.asked[q].snapshot[k].chosen {
        assert SpeaksOne(t.asked[q].snapshot, t.answered[q], k, model);
      }
    }
  }

  // What was asked for is what is held, syllable by syllable.
  lemma SameTokens(t: Tracker, q: nat, s: seq<Entry>)
    requires OfContent(t, q, s) && AllRegular(t)
    ensures Tokens(t.asked[q].snapshot) == Tokens(s)
  {
    var sent := t.asked[q].snapshot;
    forall i | 0 <= i < |s| ensures TokenOf(sent[i]) == TokenOf(s[i]) {
      assert Later(sent[i], s[i]) && sent[i] in sent && s[i] in s;
    }
  }

  // ---- an entry ---------------------------------------------------------------------------

  lemma LandedSpeaks(item: Entry, r: Result, model: Model)
    requires Hits(item, r) && !item.chosen && item.compositable && SpeaksOne(r.requested, r.converted, Asked(item, r), model)
    requires !r.requested[Asked(item, r)].chosen
    ensures Landed(item, r).Current() == [model(Tokens(r.requested), Asked(item, r))]
  {
  }

  lemma SpokenEntries(s: seq<Entry>, content: seq<Entry>, model: Model)
    requires |s| == |content| && forall i :: 0 <= i < |s| ==> s[i].Current() == SpokenOne(Tokens(content), i, model)
    ensures FinalText(s) == Spoken(Tokens(content), model)
  {
    assert Currents(s) == seq(|content|, i requires 0 <= i < |content| => SpokenOne(Tokens(content), i, model));
  }

  // ---- sealed text --------------------------------------------------------------------------

  // Outputs are chosen only where the text was fixed, so no answer stops an entry that is not.
  lemma NeverStopped(t: Tracker, w: Segment, item: Entry)
    requires AllRegular(t) && Given(t, w.answers, w.epoch, []) && AnswersFit(w) && item in w.origin.entries
    ensures forall i: nat :: !Stops(item, w.answers, i)
  {
    forall r <- w.answers | Hits(item, r) ensures !BringsChosen(item, r) {
      var k := Asked(item, r);
      assert Truthful(t, r, w.epoch) && r.requested[k] in r.requested;
      assert Later(r.requested[k], item);
    }
    forall i: nat ensures i < |w.answers| ==> w.answers[i] in w.answers {
    }
  }

  lemma SealedEntry(t: Tracker, w: Segment, i: nat, newest: Result, model: Model)
    requires LogOk(t) && AnswersAs(t, model) && AllRegular(t) && SegmentTold(t, w, []) && NewestIsOf(t, w)
    requires newest in w.answers && newest.sequence == t.newest[w.epoch] && i < |w.origin.entries|
    ensures MergeEntryAll(w.origin.entries[i], w.answers).Current() == SpokenOne(Tokens(w.origin.entries), i, model)
  {
    var item := w.origin.entries[i];
    assert item in w.origin.entries && Truthful(t, newest, w.epoch);
    AnswersAreProper(t, w);
    if item.chosen {
      NothingHits(item, w.answers);
    } else {
      NewestHits(t, w, i, newest, model);
      NeverStopped(t, w, item);
      NewestWins(item, w.answers, newest);
      SameTokens(t, newest.sequence, w.origin.entries);
      LandedSpeaks(item, newest, model);
    }
  }

  lemma AnswersAreProper(t: Tracker, w: Segment)
    requires LogOk(t) && Given(t, w.answers, w.epoch, [])
    ensures AllProper(w.answers)
    ensures forall r <- w.answers :: w.epoch in t.newest && r.sequence <= t.newest[w.epoch]
  {
    forall j | 0 <= j < |w.answers| ensures Proper(w.answers[j]) {
      assert w.answers[j] in w.answers && Truthful(t, w.answers[j], w.epoch);
    }
    forall r <- w.answers ensures w.epoch in t.newest && r.sequence <= t.newest[w.epoch] {
      assert Truthful(t, r, w.epoch);
    }
  }

  lemma NewestHits(t: Tracker, w: Segment, i: nat, newest: Result, model: Model)
    requires LogOk(t) && AnswersAs(t, model) && AllRegular(t) && SegmentTold(t, w, []) && NewestIsOf(t, w)
    requires newest in w.answers && newest.sequence == t.newest[w.epoch] && i < |w.origin.entries| && !w.origin.entries[i].chosen
    ensures var item := w.origin.entries[i];
            && Hits(item, newest) && Asked(item, newest) == i && Newest(item, w.answers, newest) && item.compositable
            && SpeaksOne(newest.requested, newest.converted, i, model) && !newest.requested[i].chosen
  {
    var item := w.origin.entries[i];
    assert item in w.origin.entries && Truthful(t, newest, w.epoch);
    assert Speaks(newest.requested, newest.converted, model);
    assert Later(newest.requested[i], item) && newest.requested[i].version == item.version;
    assert newest.requested[i].id == item.id;
    SameIndex(newest.requested, Asked(item, newest), i);
    assert SpeaksOne(newest.requested, newest.converted, i, model);
    AnswersAreProper(t, w);
  }

  // What was written is what the model says of what was sealed.
  lemma SealedSpeaks(t: Tracker, w: Segment, epoch: nat, model: Model)
    requires LogOk(t) && t.present && AnswersAs(t, model) && WrittenTold(t, w, epoch) && w.erased < |w.buffer.entries|
    ensures FinalText(w.buffer.entries) == Spoken(Tokens(w.origin.entries), model)
  {
    hide LogOk, AnswersAs, AllRegular, Given, NewestIsOf, ConvertedEarlier, OriginOk, AnswersFit, Spoken, Tokens, MergeAll;
    ModelIsRegular(t, model);
    WrittenLength(w);
    var newest := NewestOf(t, w);
    AcceptedReads(w.buffer.entries, MergeAll(w.origin, w.answers).entries);
    AnswersSpeak(t, w, newest, model);
  }

  // Text that is not erased altogether was finished by its newest answer.
  lemma NewestOf(t: Tracker, w: Segment) returns (newest: Result)
    requires SegmentTold(t, w, []) && t.present && w.stage.Finished? && w.erased < |w.buffer.entries| == |w.origin.entries|
    ensures NewestIsOf(t, w) && newest in w.answers && newest.sequence == t.newest[w.epoch]
  {
    newest :| newest in w.answers && newest.sequence == t.newest[w.epoch];
  }

  lemma AnswersSpeak(t: Tracker, w: Segment, newest: Result, model: Model)
    requires LogOk(t) && AnswersAs(t, model) && AllRegular(t) && SegmentTold(t, w, []) && NewestIsOf(t, w)
    requires newest in w.answers && newest.sequence == t.newest[w.epoch]
    ensures FinalText(MergeAll(w.origin, w.answers).entries) == Spoken(Tokens(w.origin.entries), model)
  {
    AnswersAreProper(t, w);
    MergeAllByEntry(w.origin, w.answers);
    var merged := MergeAll(w.origin, w.answers).entries;
    forall i | 0 <= i < |merged| ensures merged[i].Current() == SpokenOne(Tokens(w.origin.entries), i, model) {
      SealedEntry(t, w, i, newest, model);
    }
    SpokenEntries(merged, w.origin.entries, model);
  }

  lemma WrittenLength(w: Segment)
    requires MergedOf(w) && OriginOk(w.origin)
    ensures |w.buffer.entries| == |w.origin.entries|
  {
    MergedAllIds(w.origin, w.answers);
    assert |w.buffer.entries| == |AcceptLocal(w.buffer.entries)| == |MergeAll(w.origin, w.answers).entries|;
  }

  // ---- committed text -------------------------------------------------------------------------

  // Nothing is held back that would change the composition.
  predicate NothingHeldBack(c: Ended) {
    c.held.Some? ==> !StillLands(c.buffer.entries, c.held.value)
  }

  lemma CommittedEntry(t: Tracker, c: Ended, w: Result, i: nat, model: Model)
    requires EndedTold(t, c) && AnswersAs(t, model) && AllRegular(t) && NothingHeldBack(c)
    requires w in c.applied && w.sequence == LastSequence(c.applied) && OfContent(t, w.sequence, c.buffer.entries)
    requires MergedBut(c.buffer.entries, w, c.held) && i < |c.buffer.entries|
    ensures c.buffer.entries[i].Current() == SpokenOne(Tokens(c.buffer.entries), i, model)
  {
    var x := c.buffer.entries[i];
    assert x in c.buffer.entries && Truthful(t, w, c.epoch);
    if !x.chosen {
      assert Speaks(w.requested, w.converted, model) && SpeaksOne(w.requested, w.converted, i, model);
      assert Later(w.requested[i], x) && w.requested[i].version == x.version;
      assert Absorbs(x, w, i) || HoldsOutput(c.held, w, i);
      assert x.convertedBy <= w.sequence && x.compositable;
      assert Lands(x, w.sequence, w.requested[i], w.converted[i]);
      assert Buffers.Converted(x, w.sequence, w.converted[i]) == x;
      SameTokens(t, w.sequence, c.buffer.entries);
    }
  }

  lemma CommittedSpeaks(t: Tracker, c: Ended, model: Model)
    requires t.present && EndedTold(t, c) && AnswersAs(t, model) && NothingHeldBack(c)
    ensures ToText(c.buffer) == Spoken(Tokens(c.buffer.entries), model)
  {
    ModelIsRegular(t, model);
    ShownIsFinal(c.buffer.entries, c.buffer.immediate);
    if AllChosen(c.buffer.entries) {
      forall i | 0 <= i < |c.buffer.entries|
        ensures c.buffer.entries[i].Current() == SpokenOne(Tokens(c.buffer.entries), i, model)
      {
        assert c.buffer.entries[i] in c.buffer.entries;
      }
    } else {
      var w :| w in c.applied && w.sequence == LastSequence(c.applied) && OfContent(t, w.sequence, c.buffer.entries)
        && MergedBut(c.buffer.entries, w, c.held);
      forall i | 0 <= i < |c.buffer.entries|
        ensures c.buffer.entries[i].Current() == SpokenOne(Tokens(c.buffer.entries), i, model)
      {
        CommittedEntry(t, c, w, i, model);
      }
    }
    SpokenEntries(c.buffer.entries, c.buffer.entries, model);
  }

  // ---- the document -----------------------------------------------------------------------------

  // What the model says of each sealed segment.
  function SpokenOf(written: map<nat, Segment>, model: Model): map<nat, string> {
    map e <- written :: Spoken(Tokens(written[e].origin.entries), model)
  }

  lemma SpokenLength(s: seq<Entry>, model: Model)
    requires !HasUncomposedReading(s) && forall e <- s :: e.Wf()
    ensures |Spoken(Tokens(s), model)| == |s|
  {
    var parts := seq(|s|, i requires 0 <= i < |s| => SpokenOne(Tokens(s), i, model));
    forall p <- parts ensures |p| == 1 {
      var i :| 0 <= i < |s| && parts[i] == p;
      assert s[i] in s;
    }
    assert parts == seq(|Tokens(s)|, i requires 0 <= i < |Tokens(s)| => SpokenOne(Tokens(s), i, model));
    ConcatOfSingles(parts);
  }

  lemma SpokenAgrees(t: Tracker, written: map<nat, Segment>, model: Model)
    requires LogOk(t) && t.present && AnswersAs(t, model) && forall e <- written :: WrittenTold(t, written[e], e)
    ensures Agrees(SpokenOf(written, model), written)
  {
    forall e <- written ensures MayBecome(written[e], SpokenOf(written, model)[e]) {
      WrittenLength(written[e]);
      SpokenLength(written[e].origin.entries, model);
      if written[e].erased < |written[e].buffer.entries| {
        SealedSpeaks(t, written[e], e, model);
      }
    }
  }

  predicate SpeaksOf(f: map<nat, string>, intent: Intent, model: Model) {
    match intent
    case Typed(ended) => ToText(ended.buffer) == Spoken(Tokens(ended.buffer.entries), model)
    case TypedSealed(epoch, content) => Final(f, epoch) == Spoken(Tokens(content.entries), model)
    case Erased => true
  }

  lemma {:induction false} ReplaysAlike(initial: string, intents: seq<Intent>, f: map<nat, string>, model: Model)
    requires forall intent <- intents :: SpeaksOf(f, intent, model)
    ensures Replay(initial, intents, f) == Replayed(initial, intents, model)
  {
    if intents != [] {
      var front, last := intents[..|intents| - 1], intents[|intents| - 1];
      assert last in intents && forall intent <- front :: intent in intents;
      ReplaysAlike(initial, front, f, model);
    }
  }

  lemma IntentSpeaks(t: Tracker, doc: Doc, intent: Intent, model: Model)
    requires t.present && AnswersAs(t, model) && IntentTold(t, doc, intent)
    requires intent.Typed? ==> NothingHeldBack(intent.ended)
    requires intent.TypedSealed? ==> intent.epoch in doc.written
    ensures SpeaksOf(SpokenOf(doc.written, model), intent, model)
  {
    if intent.Typed? {
      CommittedSpeaks(t, intent.ended, model);
    }
  }

  // The backend is there throughout and answers as the model does, and no
  // composition is committed while its list holds an output back: the document
  // reads as what the model says of what the keys did.
  lemma ReadsAsSpoken(immediate: bool, events: seq<Event>, table: Table, d: DocId, model: Model)
    requires forall e <- events :: Untroubled(e)
    requires d in Run(Start(immediate, true), events, table).docs && Quiet(Run(Start(immediate, true), events, table), d)
    requires AnswersAs(Run(Start(immediate, true), events, table).conversions, model)
    requires forall intent <- PastOf(immediate, true, events, table, d).intents :: intent.Typed? ==> NothingHeldBack(intent.ended)
    ensures var past := PastOf(immediate, true, events, table, d);
            PiecesText(Run(Start(immediate, true), events, table).docs[d].pieces) == Replayed(past.initial, past.intents, model)
  {
    var s, past := Run(Start(immediate, true), events, table), PastOf(immediate, true, events, table, d);
    var doc, t := s.docs[d], s.conversions;
    ReadsAsTyped(immediate, true, events, table, d);
    PastIsKept(immediate, true, events, table, d);
    RunIsTold(immediate, true, events, table);
    PresentThroughout(immediate, events, table);
    TellsDocument(s, d);
    SpokenAgrees(t, doc.written, model);
    forall intent <- past.intents ensures SpeaksOf(SpokenOf(doc.written, model), intent, model) {
      assert IntentTold(t, doc, intent);
      IntentSpeaks(t, doc, intent, model);
    }
    ReplaysAlike(past.initial, past.intents, SpokenOf(doc.written, model), model);
  }
}
