/**
 One document: its text, the queue of edits it has not granted yet, and the
 sealed segments (SealedSegment) whose text it still shows unconverted.

 The text is a list of pieces with the caret behind the last one. An open
 composition is shown there, behind all pieces. Nobody but the input method
 edits the document.
 */
module Documents {
  import opened Wrappers
  import opened Text
  import opened Bopomofo
  import opened Buffers
  import opened CandidateLocks
  import opened Conversions

  // ---- data ------------------------------------------------------------------

  datatype CommitInputEntry = CommitInputEntry(reading: string, output: string, manuallySelected: bool)

  datatype CommitSample = CommitSample(context: string, answer: string, input: seq<CommitInputEntry>)

  datatype Stage = WaitingForContext | Converting(awaited: nat) | Finished

  // origin, answers and local are its history: the buffer as it was sealed, the
  // results it was given since, and whether it was finished without a conversion.
  datatype Segment = Segment(epoch: nat, document: DocId, buffer: Buffer, shown: string, preceding: Option<string>,
                             erased: nat, stage: Stage, inDocument: bool,
                             origin: Buffer, answers: seq<Result>, local: bool)

  datatype Piece = Plain(text: string) | Sealed(epoch: nat, text: string)

  // What the host shows: no composition, every later one being of epoch next or
  // more; or the composition of an epoch, with its text once it is rendered.
  datatype View = Idle(next: nat) | Composing(epoch: nat, shown: Option<Rendering>)

  datatype Edit =
    | ReadContext(epoch: nat)
    | Show(epoch: nat, ended: Rendering)
    | ApplyResult(sequence: nat, request: Request, converted: seq<Output>)
    | Commit(epoch: nat, sample: Option<CommitSample>, entries: seq<Entry>)
    | Discard(epoch: nat)
    | Seal(epoch: nat)
    | Backspace
    | WriteFinished
    | AcceptLocally(epoch: nat)

  // A composition as it was committed: its buffer, the results it was given,
  // the one held back behind its list, and whether the backend was lost meanwhile.
  datatype Ended = Ended(epoch: nat, buffer: Buffer, applied: seq<Result>, held: Option<Held>, lost: bool)

  // What the user did to the document, in order.
  datatype Intent = Typed(ended: Ended) | TypedSealed(epoch: nat, content: Buffer) | Erased

  // A sample handed to training, and the text the document then held for it.
  datatype Record = Record(epoch: nat, sample: CommitSample, entries: seq<Entry>, held: string)

  // ended: what the composition's buffer read when it ended.
  datatype HostCall =
    | PrecedingText(epoch: nat)
    | Rendered(epoch: nat, text: string)
    | Committed(epoch: nat, ended: string)
    | Discarded(epoch: nat)
    | SealedCall(epoch: nat, ended: string)

  // initial, intents, written, records and calls are the history the theorems
  // speak of. written: each segment as it was when its text was written.
  datatype Doc = Doc(queue: seq<Edit>, pieces: seq<Piece>, view: View, segments: seq<Segment>,
                     initial: string, intents: seq<Intent>, written: map<nat, Segment>,
                     records: seq<Record>, calls: seq<HostCall>)

  function NewDoc(text: string): Doc {
    Doc([], [Plain(text)], Idle(0), [], text, [], map[], [], [])
  }

  // ---- training ----------------------------------------------------------------

  function Sample(entries: seq<Entry>, context: string): CommitSample {
    CommitSample(context, FinalText(entries), seq(|entries|, i requires 0 <= i < |entries| =>
      CommitInputEntry(entries[i].Reading(), entries[i].Current(), entries[i].manuallySelected)))
  }

  // No sample as soon as one entry was neither picked nor converted.
  function TrainingSample(b: Buffer, preceding: Option<string>): Option<CommitSample> {
    if AllTrusted(b.entries) then Some(Sample(b.entries, ValueOr(preceding, ""))) else None
  }

  function ValueOr(o: Option<string>, default: string): string {
    if o.Some? then o.value else default
  }

  // ---- segments -----------------------------------------------------------------

  function NewSegment(epoch: nat, document: DocId, buffer: Buffer, preceding: Option<string>): Segment {
    Segment(epoch, document, buffer, ToText(buffer), preceding, 0, WaitingForContext, false, buffer, [], false)
  }

  function MergeSegment(s: Segment, sequence: nat, requested: seq<Entry>, converted: seq<Output>): Segment {
    s.(buffer := MergeConversion(s.buffer, sequence, requested, converted, None).buffer,
       answers := s.answers + [Result(sequence, requested, converted)],
       stage := if s.stage.Converting? && sequence >= s.stage.awaited then Finished else s.stage)
  }

  function FinishSegment(s: Segment): Segment {
    s.(buffer := s.buffer.(entries := AcceptLocal(s.buffer.entries)), stage := Finished, local := s.local || !s.stage.Finished?)
  }

  function EraseLast(s: Segment): Segment {
    s.(erased := s.erased + 1,
       stage := if s.erased + 1 >= |s.buffer.entries| then Finished else s.stage)
  }

  function Kept(s: Segment): nat {
    if s.erased <= |s.buffer.entries| then |s.buffer.entries| - s.erased else 0
  }

  function SegmentText(s: Segment): string {
    FinalText(s.buffer.entries[..Kept(s)])
  }

  function ErasesBefore(s: Segment): nat {
    if s.erased > |s.buffer.entries| then s.erased - |s.buffer.entries| else 0
  }

  function FollowingContext(s: Segment): string {
    DropLast(ValueOr(s.preceding, ""), ErasesBefore(s)) + SegmentText(s)
  }

  function SegmentSample(s: Segment): Option<CommitSample> {
    if s.erased > 0 then None else TrainingSample(s.buffer, s.preceding)
  }

  // First segment of the epoch, or the length.
  function SegmentOf(segments: seq<Segment>, epoch: nat): (i: nat)
    ensures i <= |segments| && (i < |segments| ==> segments[i].epoch == epoch)
    ensures forall j :: 0 <= j < i ==> segments[j].epoch != epoch
  {
    if segments == [] || segments[0].epoch == epoch then 0 else 1 + SegmentOf(segments[1..], epoch)
  }

  // Last segment already in the document, or -1.
  function NewestInDocument(segments: seq<Segment>): (i: int)
    ensures -1 <= i < |segments| && (i >= 0 ==> segments[i].inDocument)
    ensures forall j :: i < j < |segments| ==> !segments[j].inDocument
  {
    if segments == [] then -1
    else if segments[|segments| - 1].inDocument then |segments| - 1
    else NewestInDocument(segments[..|segments| - 1])
  }

  // ---- the host's text ------------------------------------------------------------

  function PiecesText(pieces: seq<Piece>): string {
    Concat(seq(|pieces|, i requires 0 <= i < |pieces| => pieces[i].text))
  }

  // First sealed piece of the epoch, or the length.
  function PieceOf(pieces: seq<Piece>, epoch: nat): (i: nat)
    ensures i <= |pieces| && (i < |pieces| ==> pieces[i].Sealed? && pieces[i].epoch == epoch)
    ensures forall j :: 0 <= j < i ==> !(pieces[j].Sealed? && pieces[j].epoch == epoch)
  {
    if pieces == [] || (pieces[0].Sealed? && pieces[0].epoch == epoch) then 0 else 1 + PieceOf(pieces[1..], epoch)
  }

  // The pieces without the last count characters of their text.
  function DropChars(pieces: seq<Piece>, count: nat): (r: seq<Piece>)
    ensures |r| == |pieces|
    ensures forall i :: 0 <= i < |r| ==> r[i] == pieces[i].(text := r[i].text)
  {
    if pieces == [] || count == 0 then pieces
    else
      var front, last := pieces[..|pieces| - 1], pieces[|pieces| - 1];
      if count <= |last.text| then front + [last.(text := DropLast(last.text, count))]
      else DropChars(front, count - |last.text|) + [last.(text := "")]
  }

  function SealedText(d: Doc, epoch: nat): Option<string> {
    var i := PieceOf(d.pieces, epoch);
    if i < |d.pieces| then Some(d.pieces[i].text) else None
  }

  function WriteSealed(d: Doc, epoch: nat, text: string): Doc {
    var i := PieceOf(d.pieces, epoch);
    if i < |d.pieces| then d.(pieces := d.pieces[i := Sealed(epoch, text)]) else d
  }

  function EraseBeforeSealed(d: Doc, epoch: nat, count: nat): Doc {
    var i := PieceOf(d.pieces, epoch);
    if i < |d.pieces| then d.(pieces := DropChars(d.pieces[..i], count) + d.pieces[i..]) else d
  }

  function ReleaseSealed(d: Doc, epoch: nat): Doc {
    var i := PieceOf(d.pieces, epoch);
    if i < |d.pieces| then d.(pieces := d.pieces[i := Plain(d.pieces[i].text)]) else d
  }

  // The caret is behind the last piece whenever no composition is shown.
  predicate CaretAfterSealed(d: Doc, epoch: nat) {
    var i := PieceOf(d.pieces, epoch);
    i < |d.pieces| && PiecesText(d.pieces[i + 1..]) == ""
  }

  function EraseBeforeCaret(d: Doc): Doc {
    d.(pieces := DropChars(d.pieces, 1))
  }

  function HostReads(d: Doc, epoch: nat): Doc {
    d.(view := Composing(epoch, None), calls := d.calls + [PrecedingText(epoch)])
  }

  function HostRenders(d: Doc, epoch: nat, r: Rendering): Doc {
    d.(view := Composing(epoch, Some(r)), calls := d.calls + [Rendered(epoch, r.text)])
  }

  // The text shown for the epoch, if it is the one shown.
  function ShownText(d: Doc, epoch: nat): Option<string> {
    if d.view.Composing? && d.view.epoch == epoch && d.view.shown.Some? then Some(d.view.shown.value.text) else None
  }

  function HostCommits(d: Doc, epoch: nat, ended: string): Doc {
    var shown := ShownText(d, epoch);
    d.(view := Idle(epoch + 1), calls := d.calls + [Committed(epoch, ended)],
       pieces := if shown.Some? then d.pieces + [Plain(shown.value)] else d.pieces)
  }

  function HostDiscards(d: Doc, epoch: nat): Doc {
    d.(view := Idle(epoch + 1), calls := d.calls + [Discarded(epoch)])
  }

  // The text the segment of the epoch was sealed with.
  function SealedAs(d: Doc, epoch: nat): string {
    var i := SegmentOf(d.segments, epoch);
    if i < |d.segments| then d.segments[i].shown else ""
  }

  function HostSeals(d: Doc, epoch: nat): Doc {
    var shown := ShownText(d, epoch);
    d.(view := Idle(epoch + 1), calls := d.calls + [SealedCall(epoch, SealedAs(d, epoch))],
       pieces := if shown.Some? then d.pieces + [Sealed(epoch, shown.value)] else d.pieces)
  }

  function Recorded(d: Doc, epoch: nat, sample: Option<CommitSample>, entries: seq<Entry>, held: string): Doc {
    if sample.None? then d else d.(records := d.records + [Record(epoch, sample.value, entries, held)])
  }

  // The text keeps what the composition showed, and the call is recorded.
  function RunCommit(d: Doc, epoch: nat, sample: Option<CommitSample>, entries: seq<Entry>): Doc {
    Recorded(HostCommits(d, epoch, FinalText(entries)), epoch, sample, entries, ValueOr(ShownText(d, epoch), ""))
  }

  // ---- the sealed queue of the document ---------------------------------------------

  function Enqueue(d: Doc, e: Edit): Doc {
    d.(queue := d.queue + [e])
  }

  function NewestAtCaret(d: Doc): (i: int)
    ensures -1 <= i < |d.segments| && (i >= 0 ==> d.segments[i].inDocument)
  {
    var i := NewestInDocument(d.segments);
    if i >= 0 && CaretAfterSealed(d, d.segments[i].epoch) then i else -1
  }

  function SetSegment(d: Doc, i: nat, s: Segment): Doc
    requires i < |d.segments|
  {
    d.(segments := d.segments[i := s])
  }

  // A segment that just became final gets a write queued.
  function WriteIfFinished(d: Doc, i: nat): Doc
    requires i < |d.segments|
  {
    if d.segments[i].stage.Finished? then Enqueue(d, WriteFinished) else d
  }

  function EraseInOrder(d: Doc): Doc {
    var i := NewestAtCaret(d);
    if i < 0 then EraseBeforeCaret(d) else WriteIfFinished(SetSegment(d, i, EraseLast(d.segments[i])), i)
  }

  function Placed(d: Doc, epoch: nat): Doc {
    var i := SegmentOf(d.segments, epoch);
    if i == |d.segments| then d
    else WriteIfFinished(SetSegment(d, i, d.segments[i].(inDocument := true)), i)
  }

  // A text changed behind the queue's back is left alone.
  function WriteSegment(d: Doc, s: Segment): Doc {
    var written :=
      if SealedText(d, s.epoch) == Some(s.shown) then
        var w := EraseBeforeSealed(WriteSealed(d, s.epoch, SegmentText(s)), s.epoch, ErasesBefore(s));
        Recorded(w, s.epoch, SegmentSample(s), s.buffer.entries, ValueOr(SealedText(w, s.epoch), ""))
      else d;
    ReleaseSealed(written, s.epoch).(written := d.written[s.epoch := s])
  }

  predicate Writable(s: Segment, earlierWaiting: bool) {
    s.inDocument && s.stage.Finished? && !(earlierWaiting && ErasesBefore(s) > 0)
  }

  // Writes what is finished among the segments from i on.
  function WriteFrom(d: Doc, i: nat, earlierWaiting: bool): Doc
    requires i <= |d.segments|
    decreases |d.segments| - i
  {
    if i == |d.segments| then d
    else if Writable(d.segments[i], earlierWaiting) then
      WriteFrom(WriteSegment(d, d.segments[i]).(segments := d.segments[..i] + d.segments[i + 1..]), i, earlierWaiting)
    else WriteFrom(d, i + 1, true)
  }

  function FinishAll(d: Doc): Doc {
    var finished := d.(segments := seq(|d.segments|, i requires 0 <= i < |d.segments| => FinishSegment(d.segments[i])));
    if d.segments == [] then d else Enqueue(finished, WriteFinished)
  }
}
