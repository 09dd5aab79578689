/** A composition buffer through any sequence of operations. */
module BufferRuns {
  import opened Wrappers
  import opened Bopomofo
  import opened Buffers
  import opened BufferProofs
  import opened BufferHistory
  import opened Merging

  datatype Operation =
    | AddSymbol(c: char)
    | AddChosenText(text: string)
    | Remove
    | DiscardReading
    | Move(forward: bool, toEdge: bool)
    | Select(id: nat, index: nat)
    | Snapshot
    | Merge(sequence: nat, requested: seq<Entry>, converted: seq<Output>, locked: Option<nat>)
    | Freeze
    | AcceptLocally

  // snapshots: what was ever sent to be converted.
  datatype Session = Session(buffer: Buffer, snapshots: seq<seq<Entry>>)

  // Results come for entries that were sent.
  predicate WereSent(requested: seq<Entry>, snapshots: seq<seq<Entry>>) {
    forall e <- requested :: exists k :: 0 <= k < |snapshots| && e in snapshots[k]
  }

  function OrSame(b: Buffer, r: Option<Buffer>): Buffer {
    if r.Some? then r.value else b
  }

  function Applied(b: Buffer, snapshots: seq<seq<Entry>>, o: Operation, table: Table): Buffer {
    match o
    case AddSymbol(c) => Add(b, c, table)
    case AddChosenText(text) => AddAllChosen(b, text)
    case Remove => OrSame(b, RemoveLast(b))
    case DiscardReading => OrSame(b, DiscardCurrentReading(b))
    case Move(forward, toEdge) => OrSame(b, MoveCaret(b, forward, toEdge))
    case Select(id, index) => OrSame(b, SelectCandidate(b, id, index))
    case Snapshot => b
    case Merge(sequence, requested, converted, locked) =>
      if WereSent(requested, snapshots) then MergeConversion(b, sequence, requested, converted, locked).buffer else b
    case Freeze => FreezeReadings(b)
    case AcceptLocally => b.(entries := AcceptLocal(b.entries))
  }

  function After(s: Session, o: Operation, table: Table): Session {
    Session(Applied(s.buffer, s.snapshots, o, table),
            if o.Snapshot? && ConversionSnapshot(s.buffer).Some? then s.snapshots + [ConversionSnapshot(s.buffer).value.entries]
            else s.snapshots)
  }

  function AfterAll(immediate: bool, operations: seq<Operation>, table: Table): Session {
    if operations == [] then Session(EmptyBuffer(immediate), [])
    else After(AfterAll(immediate, operations[..|operations| - 1], table), operations[|operations| - 1], table)
  }

  // The snapshots taken hold no reading still being typed.
  predicate SnapshotsFit(snapshots: seq<seq<Entry>>, b: Buffer) {
    forall k :: 0 <= k < |snapshots| ==> RequestFits(snapshots[k], b)
  }

  lemma SentIsNotOpen(requested: seq<Entry>, snapshots: seq<seq<Entry>>, b: Buffer)
    requires SnapshotsFit(snapshots, b) && WereSent(requested, snapshots)
    ensures NoneOpen(requested, b)
  {
    forall e <- requested ensures !IsOpen(b, e.id) {
      var k :| 0 <= k < |snapshots| && e in snapshots[k];
      assert RequestFits(snapshots[k], b);
    }
  }

  lemma OperationKeeps(b: Buffer, snapshots: seq<seq<Entry>>, o: Operation, table: Table)
    requires Wf(b) && SnapshotsFit(snapshots, b)
    ensures Wf(Applied(b, snapshots, o, table)) && Evolves(b, Applied(b, snapshots, o, table))
  {
    match o
    case AddSymbol(c) => AddKeeps(b, c, table);
    case AddChosenText(text) => AddAllChosenKeeps(b, text);
    case Remove => if RemoveLast(b).Some? { RemoveLastKeeps(b); }
    case DiscardReading => if DiscardCurrentReading(b).Some? { EraseKeeps(b); }
    case Select(id, index) => if SelectCandidate(b, id, index).Some? { SelectKeeps(b, id, index); }
    case Merge(sequence, requested, converted, locked) =>
      if WereSent(requested, snapshots) {
        SentIsNotOpen(requested, snapshots, b);
        MergeKeeps(b, sequence, requested, converted, locked);
      }
    case Freeze => FreezeKeeps(b);
    case AcceptLocally => AcceptLocalKeeps(b);
    case _ =>
  }

  lemma {:induction false} SessionKeeps(immediate: bool, operations: seq<Operation>, table: Table)
    ensures var s := AfterAll(immediate, operations, table); Wf(s.buffer) && SnapshotsFit(s.snapshots, s.buffer)
  {
    if operations != [] {
      var s := AfterAll(immediate, operations[..|operations| - 1], table);
      var r := AfterAll(immediate, operations, table);
      SessionKeeps(immediate, operations[..|operations| - 1], table);
      OperationKeeps(s.buffer, s.snapshots, operations[|operations| - 1], table);
      if ConversionSnapshot(s.buffer).Some? {
        SnapshotFits(s.buffer);
      }
      forall k | 0 <= k < |s.snapshots| ensures RequestFits(s.snapshots[k], r.buffer) {
        EvolvesFits(s.snapshots[k], s.buffer, r.buffer);
      }
    }
  }

  // After any operations ids are unique and every candidate shown exists.
  lemma AnyOperationsKeepWf(immediate: bool, operations: seq<Operation>, table: Table)
    ensures var b := AfterAll(immediate, operations, table).buffer;
      && UniqueIds(b.entries) && (forall e <- b.entries :: e.id < b.nextId) && -1 <= b.idx < |b.entries|
      && (forall e <- b.entries :: if e.compositable then 0 <= e.chooseIndex < |e.candidates| else e.chooseIndex == 0)
  {
    SessionKeeps(immediate, operations, table);
    var b := AfterAll(immediate, operations, table).buffer;
    assert forall e <- b.entries :: e.Wf();
  }

  // ---- what was sent, and what became of it ----------------------------------------

  lemma AppliedTaken(revision: nat, entries: seq<Entry>, b: Buffer, snapshots: seq<seq<Entry>>, o: Operation, table: Table)
    requires Wf(b) && TakenOf(revision, entries, b)
    ensures TakenOf(revision, entries, Applied(b, snapshots, o, table))
  {
    var r := Applied(b, snapshots, o, table);
    match o
    case AddSymbol(c) => AddRevises(b, c, table); RevisedTaken(revision, entries, b, r);
    case AddChosenText(text) => AddAllChosenRevises(b, text); RevisedTaken(revision, entries, b, r);
    case Remove => if RemoveLast(b).Some? { RemoveLastRevises(b); RevisedTaken(revision, entries, b, r); }
    case DiscardReading => if DiscardCurrentReading(b).Some? { DiscardRevises(b); RevisedTaken(revision, entries, b, r); }
    case Move(forward, toEdge) => if MoveCaret(b, forward, toEdge).Some? { RevisedTaken(revision, entries, b, r); }
    case Select(id, index) => if SelectCandidate(b, id, index).Some? { SelectRevises(b, id, index); RevisedTaken(revision, entries, b, r); }
    case Snapshot =>
    case Merge(sequence, requested, converted, locked) =>
      MergeRefines(b, sequence, requested, converted, locked);
      if WereSent(requested, snapshots) { RefinedTaken(revision, entries, b, r); }
    case Freeze => FreezeRevises(b); RevisedTaken(revision, entries, b, r);
    case AcceptLocally => AcceptRefines(b); RefinedTaken(revision, entries, b, r);
  }

  lemma {:induction false} StillTaken(immediate: bool, before: seq<Operation>, since: seq<Operation>, table: Table)
    ensures var b := AfterAll(immediate, before, table).buffer;
            TakenOf(b.revision, b.entries, AfterAll(immediate, before + since, table).buffer)
  {
    hide Applied, TakenOf;
    var b := AfterAll(immediate, before, table).buffer;
    if since == [] {
      assert before + since == before;
      SessionKeeps(immediate, before, table);
      TakenNow(b);
    } else {
      var front, last := since[..|since| - 1], since[|since| - 1];
      var all := before + since;
      assert all[..|all| - 1] == before + front && all[|all| - 1] == last;
      StillTaken(immediate, before, front, table);
      SessionKeeps(immediate, before + front, table);
      var s := AfterAll(immediate, before + front, table);
      AppliedTaken(b.revision, b.entries, s.buffer, s.snapshots, last, table);
    }
  }

  // No version goes back, and under one version an entry is the syllable it was.
  lemma VersionsTell(immediate: bool, before: seq<Operation>, since: seq<Operation>, table: Table, e: Entry, x: Entry)
    requires e in AfterAll(immediate, before, table).buffer.entries
    requires x in AfterAll(immediate, before + since, table).buffer.entries && e.id == x.id
    ensures e.version <= x.version
    ensures e.version == x.version ==>
      e.initial == x.initial && e.medial == x.medial && e.final == x.final && e.tone == x.tone && (e.chosen ==> x.chosen)
  {
    hide AfterAll;
    StillTaken(immediate, before, since, table);
  }

  // What was sent at some moment; what an entry was later, picked by then or
  // typed otherwise; what it is now: a result for what was sent leaves it as it is.
  lemma ResultsMissEdited(immediate: bool, before: seq<Operation>, meanwhile: seq<Operation>, since: seq<Operation>, table: Table,
                          e: Entry, y: Entry, p: nat, sequence: nat, converted: seq<Output>, locked: Option<nat>)
    requires e in AfterAll(immediate, before, table).buffer.entries
    requires y in AfterAll(immediate, before + meanwhile, table).buffer.entries && y.id == e.id
    requires p < |AfterAll(immediate, before + meanwhile + since, table).buffer.entries|
    requires AfterAll(immediate, before + meanwhile + since, table).buffer.entries[p].id == e.id
    requires y.chosen || y.Reading() != e.Reading()
    ensures var sent, b := AfterAll(immediate, before, table).buffer.entries, AfterAll(immediate, before + meanwhile + since, table).buffer;
            var m := MergeConversion(b, sequence, sent, converted, locked).buffer;
            |m.entries| == |b.entries| && m.entries[p] == b.entries[p]
  {
    var sent, b := AfterAll(immediate, before, table).buffer.entries, AfterAll(immediate, before + meanwhile + since, table).buffer;
    SessionKeeps(immediate, before, table);
    SessionKeeps(immediate, before + meanwhile + since, table);
    StillTaken(immediate, before, meanwhile, table);
    StillTaken(immediate, before + meanwhile, since, table);
    assert b.entries[p] in b.entries;
    EditedMissed(b, sent, e, y, p, sequence, converted, locked);
  }

  lemma EditedMissed(b: Buffer, sent: seq<Entry>, e: Entry, y: Entry, p: nat, sequence: nat, converted: seq<Output>, locked: Option<nat>)
    requires UniqueIds(b.entries) && UniqueIds(sent) && e in sent && p < |b.entries|
    requires Later(e, y) && Later(y, b.entries[p]) && (y.chosen || y.Reading() != e.Reading())
    ensures var m := MergeConversion(b, sequence, sent, converted, locked).buffer;
            |m.entries| == |b.entries| && m.entries[p] == b.entries[p]
  {
    var r, x := Result(sequence, sent, converted), b.entries[p];
    var i :| 0 <= i < |sent| && sent[i] == e;
    assert Asked(x, r) == i;
    assert !Hits(x, r);
    MergeByEntry(b, r, locked);
    MergeEntryIs(x, r);
    if locked.Some? {
      LockedWaits(x, r, locked.value);
    }
  }
}
