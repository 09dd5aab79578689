/**
 The composition buffer as a value: what each operation of CompositionBuffer
 makes of the entries, the caret, the content revision and the id counter.
 The class in CompositionBuffer.dfy runs the source's loops against it.
 */
module Buffers {
  import opened Wrappers
  import opened Bopomofo
  import opened Text

  datatype Snapshot = Snapshot(revision: nat, entries: seq<Entry>)

  // caret: after rendering, in characters; selection: the span of an invalid reading.
  datatype Rendering = Rendering(text: string, caret: nat, selection: Option<(nat, nat)>)

  datatype Buffer = Buffer(entries: seq<Entry>, idx: int, immediate: bool, revision: nat, nextId: nat)

  // A backend output is picked only within the candidates it brings.
  type Output = e: Entry | e.predicted && e.chosen ==> 0 <= e.chooseIndex < |e.candidates| witness FreshEntry(0)

  // What the backend made of the entries asked for, under the sequence of the request.
  datatype Result = Result(sequence: nat, requested: seq<Entry>, converted: seq<Output>)

  datatype MergeOutcome = MergeOutcome(buffer: Buffer, changed: bool, held: Option<(Entry, Output)>)

  predicate Wf(b: Buffer) {
    && -1 <= b.idx < |b.entries|
    && (forall e <- b.entries :: e.Wf() && e.id < b.nextId)
    && UniqueIds(b.entries)
  }

  predicate UniqueIds(s: seq<Entry>) {
    forall i, j :: 0 <= i < j < |s| ==> s[i].id != s[j].id
  }

  function EmptyBuffer(immediate: bool): Buffer {
    Buffer([], -1, immediate, 0, 1)
  }

  // ---- what is shown, and what it becomes -----------------------------------

  function Shown(s: seq<Entry>, immediate: bool): string {
    Concat(seq(|s|, i requires 0 <= i < |s| => s[i].Display(immediate)))
  }

  function FinalText(s: seq<Entry>): string {
    Concat(seq(|s|, i requires 0 <= i < |s| => s[i].Current()))
  }

  function ToText(b: Buffer): string {
    Shown(b.entries, b.immediate)
  }

  predicate CaretOnEntry(b: Buffer) {
    0 <= b.idx < |b.entries|
  }

  function CaretOffset(b: Buffer): nat {
    |Shown(if CaretOnEntry(b) then b.entries[..b.idx + 1]
           else if b.idx < 0 then [] else b.entries, b.immediate)|
  }

  predicate CurrentInvalid(b: Buffer) {
    CaretOnEntry(b) && b.entries[b.idx].invalid
  }

  function CurrentInvalidSpan(b: Buffer): Option<(nat, nat)> {
    if !CurrentInvalid(b) then None
    else Some((|Shown(b.entries[..b.idx], b.immediate)|, |b.entries[b.idx].Display(b.immediate)|))
  }

  function Render(b: Buffer): Rendering {
    Rendering(ToText(b), CaretOffset(b), CurrentInvalidSpan(b))
  }

  predicate HasUncomposedReading(s: seq<Entry>) {
    exists e <- s :: !e.compositable
  }

  predicate HasPendingConversion(s: seq<Entry>) {
    exists e <- s :: e.conversionPending
  }

  predicate ReadyToCommit(b: Buffer) {
    b.entries != [] && !HasUncomposedReading(b.entries) && !HasPendingConversion(b.entries)
  }

  predicate AllChosen(s: seq<Entry>) {
    forall e <- s :: e.chosen
  }

  predicate AllTrusted(s: seq<Entry>) {
    forall e <- s :: e.Trusted()
  }

  // ---- edits ---------------------------------------------------------------

  // A caret out of range, which Wf excludes, leaves the buffer alone.
  function InsertAfterCaret(b: Buffer, e: Entry): Buffer {
    if !(-1 <= b.idx < |b.entries|) then b
    else Buffer(b.entries[..b.idx + 1] + [e.(id := b.nextId)] + b.entries[b.idx + 1..],
                b.idx + 1, b.immediate, b.revision + 1, b.nextId + 1)
  }

  function EraseAtCaret(b: Buffer): Buffer
    requires CaretOnEntry(b)
  {
    b.(entries := b.entries[..b.idx] + b.entries[b.idx + 1..], idx := b.idx - 1, revision := b.revision + 1)
  }

  // The entry at i after a user edit.
  function Edit(b: Buffer, i: nat, e: Entry): Buffer
    requires i < |b.entries|
  {
    b.(entries := b.entries[i := e.(version := e.version + 1)], revision := b.revision + 1)
  }

  function WithoutInvalid(b: Buffer): Buffer {
    if CurrentInvalid(b) then EraseAtCaret(b) else b
  }

  // The entry at the caret takes the symbol, or a new one behind it does.
  function Symbolised(b: Buffer, c: char, table: Table): Buffer {
    if CaretOnEntry(b) && b.entries[b.idx].Accept(c, table).Some? then Edit(b, b.idx, b.entries[b.idx].Accept(c, table).value)
    else InsertAfterCaret(b, FreshEntry(0).Accept(c, table).value)
  }

  function Add(b: Buffer, c: char, table: Table): Buffer {
    Symbolised(WithoutInvalid(b), c, table)
  }

  function AddChosen(b: Buffer, c: char): Buffer {
    InsertAfterCaret(WithoutInvalid(b), FreshEntry(0).SetChosenCandidate(c))
  }

  function AddAllChosen(b: Buffer, text: string): Buffer {
    if text == "" then b else AddChosen(AddAllChosen(b, text[..|text| - 1]), text[|text| - 1])
  }

  // None: nothing before the caret.
  function RemoveLast(b: Buffer): Option<Buffer> {
    if !CaretOnEntry(b) then None
    else
      var e := b.entries[b.idx];
      if e.compositable || e.PopLast().None? || e.PopLast().value.IsNull() then Some(ClampCaret(EraseAtCaret(b)))
      else Some(Edit(b, b.idx, e.PopLast().value))
  }

  function ClampCaret(b: Buffer): Buffer {
    if b.entries == [] then b.(idx := -1)
    else if b.idx >= |b.entries| then b.(idx := |b.entries| - 1)
    else b
  }

  function DiscardCurrentReading(b: Buffer): Option<Buffer> {
    if !CaretOnEntry(b) || b.entries[b.idx].compositable then None else Some(EraseAtCaret(b))
  }

  function Pre(b: Buffer): Option<Buffer> {
    if b.idx < 0 then None else Some(b.(idx := b.idx - 1))
  }

  function Next(b: Buffer): Option<Buffer> {
    if b.idx + 1 >= |b.entries| then None else Some(b.(idx := b.idx + 1))
  }

  function NextOrStay(b: Buffer): Buffer {
    if Next(b).Some? then Next(b).value else b
  }

  // One step, or as many as there are. None: the caret is already there.
  function MoveCaret(b: Buffer, forward: bool, toEdge: bool): Option<Buffer> {
    var step := if forward then Next(b) else Pre(b);
    if step.None? then None
    else if !toEdge then step
    else if forward then Some(b.(idx := |b.entries| - 1))
    else Some(b.(idx := -1))
  }

  function CandidateTargetIndex(b: Buffer): int {
    if b.entries == [] then -1
    else if 0 <= b.idx + 1 < |b.entries| then b.idx + 1
    else if CaretOnEntry(b) then b.idx
    else -1
  }

  // First position of the id, or the length.
  function IndexOf(s: seq<Entry>, id: nat): (i: nat)
    ensures i <= |s| && (i < |s| ==> s[i].id == id)
    ensures forall j :: 0 <= j < i ==> s[j].id != id
  {
    if s == [] || s[0].id == id then 0 else 1 + IndexOf(s[1..], id)
  }

  // The characters of text as fixed entries with fresh ids.
  function Literals(text: string, firstId: nat, manual: bool): (r: seq<Entry>)
    ensures |r| == |text|
    ensures forall i :: 0 <= i < |r| ==> r[i].id == firstId + i && r[i].chosen && r[i].compositable && r[i].Wf()
  {
    seq(|text|, i requires 0 <= i < |text| =>
      FreshEntry(firstId + i).SetChosenCandidate(text[i]).(manuallySelected := manual))
  }

  // None: no such entry, or no such candidate.
  function SelectCandidate(b: Buffer, id: nat, index: nat): Option<Buffer> {
    var position := IndexOf(b.entries, id);
    if position == |b.entries| then None
    else
      var item := b.entries[position];
      if !item.compositable || index >= |item.GetCandidateTexts()| then None
      else
        var reading := item.MultiReadingLiteral();
        if reading.Some? && index == |item.GetCandidates()| then
          Some(b.(entries := b.entries[..position] + Literals(reading.value, b.nextId, true) + b.entries[position + 1..],
                  idx := if b.idx >= position - 1 then b.idx + |reading.value| - 1 else b.idx,
                  revision := b.revision + 1,
                  nextId := b.nextId + |reading.value|))
        else Some(Edit(b, position, item.SetChooseIndex(index)))
  }

  function ConversionSnapshot(b: Buffer): Option<Snapshot> {
    if b.entries == [] || (exists e <- b.entries :: !e.chosen && !e.compositable) || AllChosen(b.entries) then None
    else Some(Snapshot(b.revision, b.entries))
  }

  // ---- conversions -----------------------------------------------------------

  predicate Convertible(output: Output) {
    output.predicted && (output.chosen || output.candidates != [])
  }

  predicate Lands(item: Entry, sequence: nat, requested: Entry, output: Output) {
    && Convertible(output)
    && item.version == requested.version && !item.chosen && item.convertedBy <= sequence
  }

  function Converted(item: Entry, sequence: nat, output: Output): Entry {
    item.(candidates := output.candidates,
          chooseIndex := if output.chosen then output.chooseIndex else 0,
          chosen := output.chosen, conversionPending := false,
          modelConverted := true, convertedBy := sequence)
  }

  // Merges the results from position k on.
  function MergeFrom(b: Buffer, sequence: nat, requested: seq<Entry>, converted: seq<Output>,
                     locked: Option<nat>, k: nat, changed: bool, held: Option<(Entry, Output)>): MergeOutcome
    requires |requested| == |converted| && k <= |requested|
    decreases |requested| - k
  {
    if k == |requested| then MergeOutcome(b, changed, held)
    else
      var position := IndexOf(b.entries, requested[k].id);
      if position == |b.entries| || !Lands(b.entries[position], sequence, requested[k], converted[k]) then
        MergeFrom(b, sequence, requested, converted, locked, k + 1, changed, held)
      else if locked == Some(requested[k].id) then
        MergeFrom(b, sequence, requested, converted, locked, k + 1, changed, Some((requested[k], converted[k])))
      else
        var item := Converted(b.entries[position], sequence, converted[k]);
        MergeFrom(b.(entries := b.entries[position := item]), sequence, requested, converted, locked, k + 1, true, held)
  }

  function MergeConversion(b: Buffer, sequence: nat, requested: seq<Entry>, converted: seq<Output>,
                           locked: Option<nat>): MergeOutcome {
    if |requested| != |converted| then MergeOutcome(b, false, None)
    else MergeFrom(b, sequence, requested, converted, locked, 0, false, None)
  }

  // The first k entries with every unfinished reading spelled out.
  function Frozen(s: seq<Entry>, firstId: nat): (r: (seq<Entry>, nat)) {
    if s == [] then ([], firstId)
    else
      var (front, nextId) := Frozen(s[..|s| - 1], firstId);
      var item := s[|s| - 1];
      if item.compositable then (front + [item], nextId)
      else (front + Literals(item.Reading(), nextId, false), nextId + |item.Reading()|)
  }

  function FreezeReadings(b: Buffer): Buffer {
    if !HasUncomposedReading(b.entries) then b
    else
      var (frozen, nextId) := Frozen(b.entries, b.nextId);
      b.(entries := frozen, nextId := nextId, revision := b.revision + 1,
         idx := if CaretOnEntry(b) then |Frozen(b.entries[..b.idx + 1], b.nextId).0| - 1 else -1)
  }

  function AcceptLocal(s: seq<Entry>): (r: seq<Entry>)
    ensures |r| == |s|
    ensures forall i :: 0 <= i < |s| ==> r[i] == s[i].(conversionPending := false)
  {
    seq(|s|, i requires 0 <= i < |s| => s[i].(conversionPending := false))
  }
}
