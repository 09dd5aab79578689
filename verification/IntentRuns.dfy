/**
 What a document reads after a run, told from the events alone: what it held
 when it was opened, and what the user did to it since.
 */
module IntentRuns {
  import opened Wrappers
  import opened Text
  import opened Bopomofo
  import opened Conversions
  import opened Documents
  import opened DocumentProofs
  import opened DocumentInv
  import opened Controller
  import opened CallProofs
  import opened HistoryProofs
  import opened Runs

  datatype Past = Past(initial: string, intents: seq<Intent>)

  // The past of document d, since it was last opened.
  function PastOf(immediate: bool, backend: bool, events: seq<Event>, table: Table, d: DocId): Past {
    if events == [] then Past("", [])
    else
      var before, e := events[..|events| - 1], events[|events| - 1];
      var s := Run(Start(immediate, backend), before, table);
      var past := PastOf(immediate, backend, before, table, d);
      if d in s.docs && e != DocumentClosed(d) then past.(intents := past.intents + IntentsOf(s, e, d))
      else if e.DocumentOpened? && e.d == d then Past(e.text, [])
      else Past("", [])
  }

  // A document that was not open, or is closed, is open afterwards only if it is opened.
  lemma OpenedNow(s: State, e: Event, table: Table, d: DocId)
    requires Good(s) && (d !in s.docs || e == DocumentClosed(d)) && d in Step(s, e, table).docs
    ensures e.DocumentOpened? && e.d == d && Step(s, e, table).docs[d] == NewDoc(e.text)
  {
    if !e.DocumentOpened? {
      NothingOpened(s, e, table);
    }
  }

  lemma {:induction false} PastIsKept(immediate: bool, backend: bool, events: seq<Event>, table: Table, d: DocId)
    requires d in Run(Start(immediate, backend), events, table).docs
    ensures var doc := Run(Start(immediate, backend), events, table).docs[d];
      Past(doc.initial, doc.intents) == PastOf(immediate, backend, events, table, d)
  {
    hide Good, Step, IntentsOf;
    if events != [] {
      var before, e := events[..|events| - 1], events[|events| - 1];
      var s := Run(Start(immediate, backend), before, table);
      RunIsGood(immediate, backend, before, table);
      if d in s.docs && e != DocumentClosed(d) {
        PastIsKept(immediate, backend, before, table, d);
        HistoryIsIntended(s, e, table, d);
      } else {
        OpenedNow(s, e, table, d);
      }
    }
  }

  // Once everything has run the document reads as if every conversion had been
  // instant: what was typed, sealed and erased, in the order of the keys.
  lemma ReadsAsTyped(immediate: bool, backend: bool, events: seq<Event>, table: Table, d: DocId)
    requires d in Run(Start(immediate, backend), events, table).docs
    requires Quiet(Run(Start(immediate, backend), events, table), d)
    ensures var doc, past := Run(Start(immediate, backend), events, table).docs[d], PastOf(immediate, backend, events, table, d);
      && (forall intent <- past.intents :: intent.TypedSealed? ==> intent.epoch in doc.written)
      && (forall f: map<nat, string> | Agrees(f, doc.written) :: PiecesText(doc.pieces) == Replay(past.initial, past.intents, f))
  {
    PastIsKept(immediate, backend, events, table, d);
    TextIsReference(immediate, backend, events, table, d);
  }
}
