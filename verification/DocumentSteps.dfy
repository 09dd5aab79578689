/** What each edit does to a document keeps its invariant. */
module DocumentSteps {
  import opened Wrappers
  import opened Text
  import opened Bopomofo
  import opened Buffers
  import opened BufferProofs
  import opened Conversions
  import opened Documents
  import opened DocumentProofs
  import opened DocumentInv

  // ---- queueing ---------------------------------------------------------------------

  lemma EnqueueShape(doc: Doc, d: DocId, e: Edit)
    requires Shape(doc, d) && Fits(e, ViewAfter(doc.queue, doc.view), doc.segments) && !e.Seal?
    ensures Shape(Enqueue(doc, e), d)
  {
    var v := ViewAfter(doc.queue, doc.view);
    QueueAppend(doc.queue, e, doc.view, doc.segments);
    SealsAppend(doc.queue, e);
    assert Bound(v) <= Bound(NextView(e, v));
  }

  // Edits that change no text.
  predicate Silent(e: Edit) {
    !e.Commit? && !e.Seal? && !e.Backspace?
  }

  lemma EnqueueKeeps(doc: Doc, d: DocId, e: Edit)
    requires DocInv(doc, d) && Silent(e) && Fits(e, ViewAfter(doc.queue, doc.view), doc.segments)
    ensures DocInv(Enqueue(doc, e), d)
  {
    EnqueueShape(doc, d, e);
    var r := Enqueue(doc, e);
    forall f: map<nat, string> | Agrees(f, r.written) ensures FutureText(r, f) == Replay(r.initial, r.intents, f) {
      TextAppend(doc.queue, e, doc.view, TargetOn("", doc.pieces, doc.segments, f), f);
    }
  }

  lemma ReplayAppend(initial: string, intents: seq<Intent>, intent: Intent, f: map<nat, string>)
    ensures Replay(initial, intents + [intent], f) == ReplayOne(Replay(initial, intents, f), intent, f)
  {
    assert (intents + [intent])[..|intents + [intent]| - 1] == intents;
  }

  lemma EnqueueErase(doc: Doc, d: DocId)
    requires DocInv(doc, d) && ViewAfter(doc.queue, doc.view).Idle?
    ensures DocInv(Enqueue(doc.(intents := doc.intents + [Erased]), Backspace), d)
  {
    EnqueueShape(doc, d, Backspace);
    forall f: map<nat, string> | Agrees(f, doc.written)
      ensures TextAfter(doc.queue + [Backspace], doc.view, TargetOn("", doc.pieces, doc.segments, f), f)
           == Replay(doc.initial, doc.intents + [Erased], f)
    {
      TextAppend(doc.queue, Backspace, doc.view, TargetOn("", doc.pieces, doc.segments, f), f);
      ReplayAppend(doc.initial, doc.intents, Erased, f);
    }
  }

  lemma EnqueueCommit(doc: Doc, d: DocId, e: Edit, ended: Ended)
    requires DocInv(doc, d) && e.Commit? && Fits(e, ViewAfter(doc.queue, doc.view), doc.segments)
    requires ToText(ended.buffer) == ViewAfter(doc.queue, doc.view).shown.value.text
    ensures DocInv(Enqueue(doc.(intents := doc.intents + [Typed(ended)]), e), d)
  {
    EnqueueShape(doc, d, e);
    forall f: map<nat, string> | Agrees(f, doc.written)
      ensures TextAfter(doc.queue + [e], doc.view, TargetOn("", doc.pieces, doc.segments, f), f)
           == Replay(doc.initial, doc.intents + [Typed(ended)], f)
    {
      TextAppend(doc.queue, e, doc.view, TargetOn("", doc.pieces, doc.segments, f), f);
      ReplayAppend(doc.initial, doc.intents, Typed(ended), f);
    }
  }

  // ---- running an edit without text -----------------------------------------------------

  // The document behind its first edit, everything else but the calls unchanged.
  predicate Behind(doc: Doc, r: Doc)
    requires doc.queue != []
  {
    && r.queue == doc.queue[1..] && r.pieces == doc.pieces && r.segments == doc.segments && r.written == doc.written
    && r.initial == doc.initial && r.intents == doc.intents && r.records == doc.records
  }

  lemma PopKeeps(doc: Doc, d: DocId, r: Doc)
    requires DocInv(doc, d) && doc.queue != [] && Silent(doc.queue[0])
    requires Behind(doc, r) && r.view == NextView(doc.queue[0], doc.view)
    ensures DocInv(r, d)
  {
    forall f: map<nat, string> | Agrees(f, r.written) ensures FutureText(r, f) == Replay(r.initial, r.intents, f) {
      assert FutureText(doc, f) == FutureText(r, f);
    }
  }

  // While a composition is live the host may show it in any state.
  lemma ShowsOther(doc: Doc, d: DocId, r: Doc, epoch: nat)
    requires DocInv(doc, d) && Composes(doc.view, epoch) && Composes(ViewAfter(doc.queue, doc.view), epoch)
    requires Composes(r.view, epoch) && r == doc.(view := r.view, calls := r.calls)
    ensures DocInv(r, d)
  {
    LiveTail(doc.queue, doc.view, r.view, doc.segments, epoch);
    forall f: map<nat, string> | Agrees(f, r.written) ensures FutureText(r, f) == Replay(r.initial, r.intents, f) {
      LiveTailText(doc.queue, doc.view, TargetOn("", doc.pieces, doc.segments, f), f, epoch);
      LiveTailText(doc.queue, r.view, TargetOn("", doc.pieces, doc.segments, f), f, epoch);
      assert FutureText(doc, f) == FutureText(r, f);
    }
  }

  // ---- changing a segment --------------------------------------------------------------------

  predicate SameText(s: Segment, r: Segment) {
    r.epoch == s.epoch && r.shown == s.shown && r.erased == s.erased && r.inDocument == s.inDocument
  }

  lemma ChangeSegments(doc: Doc, d: DocId, segments: seq<Segment>)
    requires DocInv(doc, d) && |segments| == |doc.segments|
    requires forall i :: 0 <= i < |segments| ==> SegmentOk(segments[i], d) && SameText(doc.segments[i], segments[i])
    ensures DocInv(doc.(segments := segments), d)
  {
    var r := doc.(segments := segments);
    assert Epochs(segments) == Epochs(doc.segments);
    forall epoch
      ensures SegmentOf(segments, epoch) == SegmentOf(doc.segments, epoch) && ErasedOf(segments, epoch) == ErasedOf(doc.segments, epoch)
    {
      SameEpochsSameIndex(segments, doc.segments, epoch);
    }
    FitFrame(doc.queue, doc.view, doc.segments, segments);
    forall f: map<nat, string> | Agrees(f, r.written) ensures FutureText(r, f) == Replay(r.initial, r.intents, f) {
      TargetFrame("", doc.pieces, doc.segments, segments, f);
      assert FutureText(doc, f) == FutureText(r, f);
    }
  }

  lemma ChangeSegment(doc: Doc, d: DocId, i: nat, s: Segment)
    requires DocInv(doc, d) && i < |doc.segments| && SegmentOk(s, d) && SameText(doc.segments[i], s)
    ensures DocInv(SetSegment(doc, i, s), d)
  {
    forall j | 0 <= j < |doc.segments| ensures SegmentOk(doc.segments[j], d) {
      assert doc.segments[j] in doc.segments;
    }
    ChangeSegments(doc, d, doc.segments[i := s]);
  }

  // ---- ending a composition in the document ------------------------------------------------------

  lemma PlainShape(doc: Doc, d: DocId, r: Doc, text: string)
    requires Shape(doc, d) && doc.queue != [] && doc.queue[0].Commit?
    requires r.queue == doc.queue[1..] && r.view == NextView(doc.queue[0], doc.view) && r.pieces == doc.pieces + [Plain(text)]
    requires r.segments == doc.segments && r.written == doc.written
    ensures Shape(r, d)
  {
    SealedConcat(doc.pieces, [Plain(text)]);
    assert [Plain(text)][..0] == [];
  }

  lemma PlainText(doc: Doc, r: Doc, text: string)
    requires TextInv(doc) && doc.queue != [] && doc.queue[0].Commit? && doc.view.Composing? && doc.view.shown.Some?
    requires text == doc.view.shown.value.text
    requires r == doc.(queue := doc.queue[1..], view := NextView(doc.queue[0], doc.view), pieces := doc.pieces + [Plain(text)],
                       records := r.records, calls := r.calls)
    ensures TextInv(r)
  {
    forall f: map<nat, string> | Agrees(f, r.written) ensures FutureText(r, f) == Replay(r.initial, r.intents, f) {
      TargetConcat("", doc.pieces, [Plain(text)], doc.segments, f);
      TargetOne(TargetOn("", doc.pieces, doc.segments, f), Plain(text), doc.segments, f);
      assert FutureText(doc, f) == FutureText(r, f);
    }
  }

  lemma CommitRuns(doc: Doc, d: DocId)
    requires DocInv(doc, d) && doc.queue != [] && doc.queue[0].Commit?
    ensures var e := doc.queue[0]; DocInv(RunCommit(Rest(doc), e.epoch, e.sample, e.entries), d)
  {
    var e := doc.queue[0];
    var text := doc.view.shown.value.text;
    var r := RunCommit(Rest(doc), e.epoch, e.sample, e.entries);
    PlainShape(doc, d, r, text);
    PlainText(doc, r, text);
  }

  // The segment sealed next is the first one not in the document.
  lemma NextSealed(doc: Doc, d: DocId)
    requires Shape(doc, d) && doc.queue != [] && doc.queue[0].Seal?
    ensures var n := |SealedEpochs(doc.pieces)|;
            && n < |doc.segments| && SegmentOf(doc.segments, doc.queue[0].epoch) == n
            && doc.segments[n].epoch == doc.queue[0].epoch && doc.segments[n].erased == 0
            && !doc.segments[n].inDocument
  {
    var n := |SealedEpochs(doc.pieces)|;
    assert SealsOf(doc.queue)[0] == doc.queue[0].epoch;
    assert Epochs(doc.segments)[n] == doc.queue[0].epoch;
    assert |Epochs(doc.segments)| == |doc.segments|;
    SegmentFound(doc.segments, n);
    assert doc.segments[n] in doc.segments;
  }

  // The sealed piece adds the final text of its segment.
  lemma SealTarget(doc: Doc, n: nat, piece: Piece, f: map<nat, string>)
    requires n < |doc.segments| && piece.Sealed? && SegmentOf(doc.segments, piece.epoch) == n && doc.segments[n].erased == 0
    ensures TargetOn("", doc.pieces + [piece], doc.segments[n := doc.segments[n].(inDocument := true)], f) ==
            TargetOn("", doc.pieces, doc.segments, f) + Final(f, piece.epoch)
  {
    var segments := doc.segments[n := doc.segments[n].(inDocument := true)];
    var before := TargetOn("", doc.pieces, doc.segments, f);
    ReplacedSegment(doc.segments, n, segments[n]);
    TargetFrame("", doc.pieces, doc.segments, segments, f);
    TargetConcat("", doc.pieces, [piece], segments, f);
    TargetOne(before, piece, segments, f);
    assert DropLast(before + Final(f, piece.epoch), 0) == before + Final(f, piece.epoch);
  }

  lemma SealRuns(doc: Doc, d: DocId)
    requires DocInv(doc, d) && doc.queue != [] && doc.queue[0].Seal?
    ensures DocInv(Placed(HostSeals(Rest(doc), doc.queue[0].epoch), doc.queue[0].epoch), d)
  {
    var epoch := doc.queue[0].epoch;
    var text := doc.view.shown.value.text;
    NextSealed(doc, d);
    var n := |SealedEpochs(doc.pieces)|;
    var placed := doc.segments[n].(inDocument := true);
    var h := HostSeals(Rest(doc), epoch);
    var r := SetSegment(h, n, placed);
    SealShape(doc, d, n, r, text);
    forall f: map<nat, string> | Agrees(f, r.written) ensures FutureText(r, f) == Replay(r.initial, r.intents, f) {
      SealTarget(doc, n, Sealed(epoch, text), f);
      assert FutureText(doc, f) == FutureText(r, f);
    }
    if placed.stage.Finished? {
      EnqueueKeeps(r, d, WriteFinished);
    }
  }

  lemma SealAligned(doc: Doc, n: nat, r: Doc, text: string)
    requires Aligned(doc) && doc.queue != [] && doc.queue[0].Seal? && n == |SealedEpochs(doc.pieces)| < |doc.segments|
    requires r.queue == doc.queue[1..] && r.pieces == doc.pieces + [Sealed(doc.queue[0].epoch, text)]
    requires r.segments == doc.segments[n := doc.segments[n].(inDocument := true)]
    ensures Aligned(r) && Epochs(r.segments) == Epochs(doc.segments)
  {
    var epoch := doc.queue[0].epoch;
    ReplacedSegment(doc.segments, n, doc.segments[n].(inDocument := true));
    SealedConcat(doc.pieces, [Sealed(epoch, text)]);
    assert [Sealed(epoch, text)][..0] == [];
    assert SealedEpochs([Sealed(epoch, text)]) == [epoch];
    assert Epochs(r.segments) == SealedEpochs(r.pieces) + SealsOf(r.queue);
  }

  lemma SealShape(doc: Doc, d: DocId, n: nat, r: Doc, text: string)
    requires Shape(doc, d) && doc.queue != [] && doc.queue[0].Seal? && n == |SealedEpochs(doc.pieces)| < |doc.segments|
    requires SegmentOf(doc.segments, doc.queue[0].epoch) == n && doc.segments[n].shown == text
    requires r == doc.(queue := doc.queue[1..], pieces := doc.pieces + [Sealed(doc.queue[0].epoch, text)],
                       view := NextView(doc.queue[0], doc.view), calls := r.calls,
                       segments := doc.segments[n := doc.segments[n].(inDocument := true)])
    ensures Shape(r, d)
  {
    hide Aligned, SealedEpochs;
    var placed := doc.segments[n].(inDocument := true);
    SealAligned(doc, n, r, text);
    ReplacedSegment(doc.segments, n, placed);
    FitFrame(r.queue, r.view, doc.segments, r.segments);
    forall s <- r.segments ensures SegmentOk(s, d) {
      assert s == placed || s in doc.segments;
      assert doc.segments[n] in doc.segments;
    }
  }

  // ---- erasing ---------------------------------------------------------------------------------------

  // Where the text of a segment in the document is.
  lemma PlaceOf(doc: Doc, d: DocId, i: nat) returns (p: nat)
    requires Shape(doc, d) && i < |doc.segments| && doc.segments[i].inDocument
    ensures p == PieceOf(doc.pieces, doc.segments[i].epoch) < |doc.pieces|
    ensures doc.pieces[p] == Sealed(doc.segments[i].epoch, doc.segments[i].shown)
    ensures doc.pieces == doc.pieces[..p] + [doc.pieces[p]] + doc.pieces[p + 1..]
    ensures SealedEpochs(doc.pieces[..p]) == SealedEpochs(doc.pieces)[..i]
    ensures SealedEpochs(doc.pieces) == SealedEpochs(doc.pieces[..p]) + [doc.segments[i].epoch] + SealedEpochs(doc.pieces[p + 1..])
  {
    var epoch := doc.segments[i].epoch;
    var sealed := SealedEpochs(doc.pieces);
    assert sealed[i] == Epochs(doc.segments)[i] == epoch;
    assert epoch in sealed;
    PieceExists(doc.pieces, epoch);
    p := PieceOf(doc.pieces, epoch);
    SegmentFound(doc.segments, i);
    assert doc.pieces[p] in doc.pieces;
    AroundPiece(doc.pieces, p);
    SameRank(doc, i, |SealedEpochs(doc.pieces[..p])|);
  }

  lemma PieceExists(pieces: seq<Piece>, epoch: nat)
    requires epoch in SealedEpochs(pieces)
    ensures PieceOf(pieces, epoch) < |pieces|
  {
    SealedMembers(pieces);
    var q :| q in pieces && q.Sealed? && q.epoch == epoch;
    var j :| 0 <= j < |pieces| && pieces[j] == q;
  }

  lemma AroundPiece(pieces: seq<Piece>, p: nat)
    requires p < |pieces| && pieces[p].Sealed?
    ensures pieces == pieces[..p] + [pieces[p]] + pieces[p + 1..]
    ensures SealedEpochs(pieces) == SealedEpochs(pieces[..p]) + [pieces[p].epoch] + SealedEpochs(pieces[p + 1..])
  {
    var a, b := pieces[..p], pieces[p + 1..];
    assert pieces == a + [pieces[p]] + b;
    SealedConcat(a + [pieces[p]], b);
    SealedConcat(a, [pieces[p]]);
    assert [pieces[p]][..0] == [];
  }

  // Where an epoch is among the sealed ones.
  lemma SameRank(doc: Doc, i: nat, k: nat)
    requires Aligned(doc) && i < |SealedEpochs(doc.pieces)| && k < |SealedEpochs(doc.pieces)|
    requires SealedEpochs(doc.pieces)[k] == SealedEpochs(doc.pieces)[i]
    ensures k == i
  {
    assert Epochs(doc.segments)[k] == SealedEpochs(doc.pieces)[k] && Epochs(doc.segments)[i] == SealedEpochs(doc.pieces)[i];
  }

  // Erasing at the caret drops exactly the last character of the future text.
  lemma EraseRuns(doc: Doc, d: DocId)
    requires DocInv(doc, d) && doc.queue != [] && doc.queue[0].Backspace?
    ensures DocInv(EraseInOrder(Rest(doc)), d)
  {
    var popped := Rest(doc);
    PopShape(doc, d);
    var i := NewestInDocument(popped.segments);
    if i >= 0 {
      var p := PlaceOf(popped, d, i);
      NewestIsLast(popped, i);
      var behind := popped.pieces[p + 1..];
      assert SealedEpochs(behind) == [];
      SealedMembers(behind);
      if PiecesText(behind) == "" {
        EraseSegment(doc, d, i, p);
      } else {
        ErasePlain(doc, d, p + 1);
      }
    } else {
      NewestIsLast(popped, i);
      SealedMembers(popped.pieces);
      assert popped.pieces[0..] == popped.pieces;
      ErasePlain(doc, d, 0);
    }
  }

  lemma PopShape(doc: Doc, d: DocId)
    requires Shape(doc, d) && doc.queue != [] && doc.queue[0].Backspace?
    ensures Shape(Rest(doc), d)
  {
  }

  lemma NewestIsLast(doc: Doc, i: int)
    requires Aligned(doc) && i == NewestInDocument(doc.segments)
    ensures i == |SealedEpochs(doc.pieces)| - 1
  {
    var n := |SealedEpochs(doc.pieces)|;
    assert n <= |Epochs(doc.segments)| == |doc.segments|;
    if n > 0 {
      assert doc.segments[n - 1].inDocument;
    }
  }

  // Erasing the last of a segment leaves the segments before it alone.
  lemma ErasedBefore(doc: Doc, i: nat, a: seq<Piece>)
    requires Aligned(doc) && i < |doc.segments| && doc.segments[i].inDocument && SealedEpochs(a) == SealedEpochs(doc.pieces)[..i]
    ensures var segments := doc.segments[i := EraseLast(doc.segments[i])];
            && (forall epoch <- SealedEpochs(a) :: ErasedOf(doc.segments, epoch) == ErasedOf(segments, epoch))
            && ErasedOf(doc.segments, doc.segments[i].epoch) == doc.segments[i].erased
            && ErasedOf(segments, doc.segments[i].epoch) == doc.segments[i].erased + 1
  {
    ReplacedSegment(doc.segments, i, EraseLast(doc.segments[i]));
    SegmentFound(doc.segments, i);
    forall epoch <- SealedEpochs(a) ensures epoch != doc.segments[i].epoch {
      EarlierEpochs(doc, i, epoch);
    }
  }

  lemma EraseSegmentTarget(doc: Doc, d: DocId, i: nat, p: nat, f: map<nat, string>)
    requires Shape(doc, d) && i < |doc.segments| && doc.segments[i].inDocument
    requires p == PieceOf(doc.pieces, doc.segments[i].epoch) < |doc.pieces|
    requires NoneSealed(doc.pieces[p + 1..]) && PiecesText(doc.pieces[p + 1..]) == ""
    ensures TargetOn("", doc.pieces, doc.segments[i := EraseLast(doc.segments[i])], f) ==
            DropLast(TargetOn("", doc.pieces, doc.segments, f), 1)
  {
    var s := doc.segments[i];
    var segments := doc.segments[i := EraseLast(s)];
    var a := doc.pieces[..p];
    var q := PlaceOf(doc, d, i);
    ErasedBefore(doc, i, a);
    TargetFrame("", a, doc.segments, segments, f);
    TargetBehind(doc, p, doc.segments, f);
    TargetBehind(doc, p, segments, f);
    var before := TargetOn("", a, doc.segments, f) + Final(f, s.epoch);
    assert DropLast(before, s.erased + 1) == DropLast(DropLast(before, s.erased), 1);
  }

  // The caret is behind a sealed text: its segment takes the erase.
  lemma EraseSegment(doc: Doc, d: DocId, i: nat, p: nat)
    requires DocInv(doc, d) && doc.queue != [] && doc.queue[0].Backspace?
    requires i == NewestInDocument(doc.segments) && p == PieceOf(doc.pieces, doc.segments[i].epoch) < |doc.pieces|
    requires NoneSealed(doc.pieces[p + 1..]) && PiecesText(doc.pieces[p + 1..]) == ""
    ensures DocInv(EraseInOrder(Rest(doc)), d)
  {
    var popped := Rest(doc);
    PopShape(doc, d);
    assert NewestAtCaret(popped) == i;
    var r := SetSegment(popped, i, EraseLast(doc.segments[i]));
    EraseSegmentShape(popped, d, i);
    forall f: map<nat, string> | Agrees(f, r.written) ensures FutureText(r, f) == Replay(r.initial, r.intents, f) {
      EraseSegmentTarget(doc, d, i, p, f);
      assert FutureText(doc, f) == FutureText(r, f);
    }
    if r.segments[i].stage.Finished? {
      EnqueueKeeps(r, d, WriteFinished);
    }
  }

  // The text up to a sealed piece with nothing behind it.
  lemma TargetBehind(doc: Doc, p: nat, segments: seq<Segment>, f: map<nat, string>)
    requires p < |doc.pieces| && doc.pieces[p].Sealed?
    requires NoneSealed(doc.pieces[p + 1..]) && PiecesText(doc.pieces[p + 1..]) == ""
    ensures TargetOn("", doc.pieces, segments, f) ==
            DropLast(TargetOn("", doc.pieces[..p], segments, f) + Final(f, doc.pieces[p].epoch), ErasedOf(segments, doc.pieces[p].epoch))
  {
    var a, b := doc.pieces[..p], doc.pieces[p + 1..];
    assert doc.pieces == (a + [doc.pieces[p]]) + b;
    TargetConcat("", a + [doc.pieces[p]], b, segments, f);
    TargetConcat("", a, [doc.pieces[p]], segments, f);
    TargetOne(TargetOn("", a, segments, f), doc.pieces[p], segments, f);
    TargetPlain(TargetOn("", a + [doc.pieces[p]], segments, f), b, segments, f);
  }

  lemma EraseSegmentShape(doc: Doc, d: DocId, i: nat)
    requires Shape(doc, d) && i < |doc.segments| && doc.segments[i].inDocument
    ensures Shape(SetSegment(doc, i, EraseLast(doc.segments[i])), d)
  {
    var r := SetSegment(doc, i, EraseLast(doc.segments[i]));
    ReplacedSegment(doc.segments, i, EraseLast(doc.segments[i]));
    FitFrame(doc.queue, doc.view, doc.segments, r.segments);
    forall s <- r.segments ensures SegmentOk(s, d) {
      assert doc.segments[i] in doc.segments;
      assert s == EraseLast(doc.segments[i]) || s in doc.segments;
    }
  }

  lemma ErasePlainPieces(doc: Doc, k: nat)
    requires k <= |doc.pieces| && (k == 0 || PiecesText(doc.pieces[k..]) != "")
    ensures EraseBeforeCaret(doc).pieces == doc.pieces[..k] + DropChars(doc.pieces[k..], 1)
  {
    var a, b := doc.pieces[..k], doc.pieces[k..];
    assert doc.pieces == a + b;
    if k == 0 {
      assert doc.pieces == b && a == [];
    } else {
      DropCharBehind(a, b);
    }
  }

  lemma ErasePlainTarget(base: string, b: seq<Piece>, segments: seq<Segment>, f: map<nat, string>)
    requires NoneSealed(b) && (base == "" || PiecesText(b) != "")
    ensures NoneSealed(DropChars(b, 1))
    ensures TargetOn(base, DropChars(b, 1), segments, f) == DropLast(TargetOn(base, b, segments, f), 1)
  {
    hide DropChars, TargetOn, PiecesText;
    var dropped := DropChars(b, 1);
    forall x <- dropped ensures x.Plain? {
      var j :| 0 <= j < |dropped| && dropped[j] == x;
      assert b[j] in b;
    }
    TargetPlain(base, b, segments, f);
    TargetPlain(base, dropped, segments, f);
    DropCharsText(b, 1);
    assert base + DropLast(PiecesText(b), 1) == DropLast(base + PiecesText(b), 1);
  }

  // No sealed text at the caret: the document's own last character goes.
  lemma ErasePlain(doc: Doc, d: DocId, k: nat)
    requires DocInv(doc, d) && doc.queue != [] && doc.queue[0].Backspace? && k <= |doc.pieces|
    requires NoneSealed(doc.pieces[k..]) && (k == 0 || PiecesText(doc.pieces[k..]) != "")
    requires NewestAtCaret(Rest(doc)) < 0
    ensures DocInv(EraseInOrder(Rest(doc)), d)
  {
    hide PiecesText, DropChars, Replay, SealedEpochs;
    var a, b := doc.pieces[..k], doc.pieces[k..];
    var r := EraseBeforeCaret(Rest(doc));
    var dropped := DropChars(b, 1);
    ErasePlainPieces(Rest(doc), k);
    assert doc.pieces == a + b;
    SealedKept(doc.pieces, r.pieces);
    PlainMatch(doc, a, b);
    forall f: map<nat, string> | Agrees(f, r.written) ensures FutureText(r, f) == Replay(r.initial, r.intents, f) {
      TargetConcat("", a, b, doc.segments, f);
      TargetConcat("", a, dropped, doc.segments, f);
      ErasePlainTarget(TargetOn("", a, doc.segments, f), b, doc.segments, f);
      assert FutureText(doc, f) == FutureText(r, f);
    }
  }

  lemma PlainMatch(doc: Doc, a: seq<Piece>, b: seq<Piece>)
    requires doc.pieces == a + b && NoneSealed(b) && PiecesMatch(doc.pieces, doc.segments)
    ensures PiecesMatch(a + DropChars(b, 1), doc.segments)
  {
    ErasedPlainPieces(b, 1);
    forall x <- a + DropChars(b, 1) ensures x.Plain? || x in doc.pieces {
      assert x in a || x in DropChars(b, 1);
    }
  }

  // ---- writing ------------------------------------------------------------------------------------------

  function WithoutSegment(segments: seq<Segment>, i: nat): seq<Segment>
    requires i < |segments|
  {
    segments[..i] + segments[i + 1..]
  }

  function Written(doc: Doc, i: nat): Doc
    requires i < |doc.segments|
  {
    WriteSegment(doc, doc.segments[i]).(segments := WithoutSegment(doc.segments, i))
  }

  // Writing does not look at the segments or at the queue.
  lemma WriteCommutes(doc: Doc, own: seq<Segment>, queue: seq<Edit>, s: Segment)
    ensures WriteSegment(doc.(segments := own, queue := queue), s) == WriteSegment(doc, s).(segments := own, queue := queue)
  {
    hide SealedText, WriteSealed, EraseBeforeSealed, ReleaseSealed;
    PieceEditsCommute(doc, own, queue, s.epoch, "", 0);
    if SealedText(doc, s.epoch) == Some(s.shown) {
      PieceEditsCommute(doc, own, queue, s.epoch, SegmentText(s), 0);
      var w := WriteSealed(doc, s.epoch, SegmentText(s));
      PieceEditsCommute(w, own, queue, s.epoch, "", ErasesBefore(s));
      var e := EraseBeforeSealed(w, s.epoch, ErasesBefore(s));
      PieceEditsCommute(e, own, queue, s.epoch, "", 0);
      var held := ValueOr(SealedText(e, s.epoch), "");
      PieceEditsCommute(Recorded(e, s.epoch, SegmentSample(s), s.buffer.entries, held), own, queue, s.epoch, "", 0);
    }
  }

  lemma PieceEditsCommute(doc: Doc, own: seq<Segment>, queue: seq<Edit>, epoch: nat, text: string, count: nat)
    ensures SealedText(doc.(segments := own, queue := queue), epoch) == SealedText(doc, epoch)
    ensures WriteSealed(doc.(segments := own, queue := queue), epoch, text) == WriteSealed(doc, epoch, text).(segments := own, queue := queue)
    ensures EraseBeforeSealed(doc.(segments := own, queue := queue), epoch, count) == EraseBeforeSealed(doc, epoch, count).(segments := own, queue := queue)
    ensures ReleaseSealed(doc.(segments := own, queue := queue), epoch) == ReleaseSealed(doc, epoch).(segments := own, queue := queue)
  {
  }

  lemma Middle(a: seq<Piece>, x: Piece, b: seq<Piece>, y: Piece)
    ensures (a + [x] + b)[|a| := y] == a + [y] + b
    ensures (a + [x] + b)[..|a|] == a && (a + [x] + b)[|a|..] == [x] + b
  {
  }

  lemma HostErases(doc: Doc, a: seq<Piece>, epoch: nat, text: string, b: seq<Piece>, count: nat)
    requires doc.pieces == a + [Sealed(epoch, text)] + b && epoch !in SealedEpochs(a)
    ensures EraseBeforeSealed(doc, epoch, count) == doc.(pieces := DropChars(a, count) + [Sealed(epoch, text)] + b)
    ensures epoch !in SealedEpochs(DropChars(a, count))
  {
    PieceFound(a, epoch, text, b);
    Middle(a, Sealed(epoch, text), b, Sealed(epoch, text));
    SealedKept(a, DropChars(a, count));
    assert DropChars(a, count) + ([Sealed(epoch, text)] + b) == DropChars(a, count) + [Sealed(epoch, text)] + b;
  }

  lemma HostReleases(doc: Doc, a: seq<Piece>, epoch: nat, text: string, b: seq<Piece>)
    requires doc.pieces == a + [Sealed(epoch, text)] + b && epoch !in SealedEpochs(a)
    ensures SealedText(doc, epoch) == Some(text) && ReleaseSealed(doc, epoch) == doc.(pieces := a + [Plain(text)] + b)
  {
    PieceFound(a, epoch, text, b);
    Middle(a, Sealed(epoch, text), b, Plain(text));
  }

  // The host's three steps: write the text, erase before it, release it.
  lemma HostWrites(doc: Doc, a: seq<Piece>, epoch: nat, was: string, b: seq<Piece>, text: string, count: nat)
    requires doc.pieces == a + [Sealed(epoch, was)] + b && epoch !in SealedEpochs(a)
    ensures SealedText(doc, epoch) == Some(was)
    ensures var w := EraseBeforeSealed(WriteSealed(doc, epoch, text), epoch, count);
            && w == doc.(pieces := DropChars(a, count) + [Sealed(epoch, text)] + b)
            && SealedText(w, epoch) == Some(text) && epoch !in SealedEpochs(DropChars(a, count))
  {
    PieceFound(a, epoch, was, b);
    Middle(a, Sealed(epoch, was), b, Sealed(epoch, text));
    var written := doc.(pieces := a + [Sealed(epoch, text)] + b);
    HostErases(written, a, epoch, text, b, count);
    HostReleases(EraseBeforeSealed(written, epoch, count), DropChars(a, count), epoch, text, b);
  }

  // The text of a segment is replaced in place; what it erases goes before it.
  lemma WriteSegmentResult(doc: Doc, s: Segment, a: seq<Piece>, b: seq<Piece>)
    requires doc.pieces == a + [Sealed(s.epoch, s.shown)] + b && s.epoch !in SealedEpochs(a)
    ensures var w := WriteSegment(doc, s);
            && w.pieces == DropChars(a, ErasesBefore(s)) + [Plain(SegmentText(s))] + b
            && w == doc.(pieces := w.pieces, records := w.records, written := doc.written[s.epoch := s])
            && w.records == if SegmentSample(s).None? then doc.records
                            else doc.records + [Record(s.epoch, SegmentSample(s).value, s.buffer.entries, SegmentText(s))]
  {
    HostWrites(doc, a, s.epoch, s.shown, b, SegmentText(s), ErasesBefore(s));
    var w := EraseBeforeSealed(WriteSealed(doc, s.epoch, SegmentText(s)), s.epoch, ErasesBefore(s));
    var r := Recorded(w, s.epoch, SegmentSample(s), s.buffer.entries, SegmentText(s));
    HostReleases(r, DropChars(a, ErasesBefore(s)), s.epoch, SegmentText(s), b);
  }

  lemma WithoutLookup(segments: seq<Segment>, i: nat, epoch: nat)
    requires Increasing(Epochs(segments)) && i < |segments| && epoch != segments[i].epoch
    ensures var r := WithoutSegment(segments, i);
            var j, k := SegmentOf(segments, epoch), SegmentOf(r, epoch);
            (j < |segments| <==> k < |r|) && (j < |segments| ==> r[k] == segments[j])
    ensures ErasedOf(WithoutSegment(segments, i), epoch) == ErasedOf(segments, epoch)
  {
    var r := WithoutSegment(segments, i);
    WithoutEpochs(segments, i);
    var j := SegmentOf(segments, epoch);
    if j < |segments| {
      SegmentFound(r, if j < i then j else j - 1);
    } else {
      SegmentMissing(segments, epoch);
      SegmentMissing(r, epoch);
    }
  }

  lemma WithoutEpochs(segments: seq<Segment>, i: nat)
    requires Increasing(Epochs(segments)) && i < |segments|
    ensures var r := WithoutSegment(segments, i);
            && Epochs(r) == Epochs(segments)[..i] + Epochs(segments)[i + 1..]
            && Increasing(Epochs(r)) && segments[i].epoch !in Epochs(r)
            && forall e <- Epochs(r) :: e in Epochs(segments)
  {
    var r := WithoutSegment(segments, i);
    assert Epochs(r) == Epochs(segments)[..i] + Epochs(segments)[i + 1..];
    forall k | 0 <= k < |r| ensures Epochs(r)[k] != segments[i].epoch && Epochs(r)[k] in Epochs(segments) {
      var j := if k < i then k else k + 1;
      assert Epochs(r)[k] == Epochs(segments)[j] && Epochs(segments)[i] == segments[i].epoch;
    }
  }

  predicate MayWrite(doc: Doc, i: nat) {
    i < |doc.segments| && doc.segments[i].inDocument && (i == 0 || ErasesBefore(doc.segments[i]) == 0)
  }

  lemma EarlierEpochs(doc: Doc, i: nat, epoch: nat)
    requires Aligned(doc) && i < |doc.segments| && doc.segments[i].inDocument && epoch in SealedEpochs(doc.pieces)[..i]
    ensures epoch != doc.segments[i].epoch
  {
    var j :| 0 <= j < i && SealedEpochs(doc.pieces)[j] == epoch;
    assert epoch == Epochs(doc.segments)[j] < Epochs(doc.segments)[i];
  }

  // What the write erases of the pieces before it.
  lemma BeforeWritten(doc: Doc, i: nat, a: seq<Piece>, f: map<nat, string>)
    requires Aligned(doc) && MayWrite(doc, i) && SealedEpochs(a) == SealedEpochs(doc.pieces)[..i]
    ensures var count := ErasesBefore(doc.segments[i]);
            TargetOn("", DropChars(a, count), WithoutSegment(doc.segments, i), f) == DropLast(TargetOn("", a, doc.segments, f), count)
  {
    var count := ErasesBefore(doc.segments[i]);
    var dropped := DropChars(a, count);
    var without := WithoutSegment(doc.segments, i);
    if count == 0 {
      forall epoch <- SealedEpochs(a) ensures ErasedOf(doc.segments, epoch) == ErasedOf(without, epoch) {
        EarlierEpochs(doc, i, epoch);
        WithoutLookup(doc.segments, i, epoch);
      }
      TargetFrame("", a, doc.segments, without, f);
    } else {
      SealedMembers(a);
      ErasedPlainPieces(a, count);
      TargetPlain("", a, doc.segments, f);
      TargetPlain("", dropped, without, f);
      DropCharsText(a, count);
    }
  }

  lemma BeforeWrittenSealed(doc: Doc, i: nat, a: seq<Piece>)
    requires Aligned(doc) && MayWrite(doc, i) && SealedEpochs(a) == SealedEpochs(doc.pieces)[..i]
    ensures forall x <- DropChars(a, ErasesBefore(doc.segments[i])) :: x.Sealed? ==> x in a && x.epoch != doc.segments[i].epoch
  {
    SealedMembers(a);
    if ErasesBefore(doc.segments[i]) > 0 {
      ErasedPlainPieces(a, ErasesBefore(doc.segments[i]));
    }
    forall x <- a | x.Sealed? ensures x.epoch != doc.segments[i].epoch {
      EarlierEpochs(doc, i, x.epoch);
    }
  }

  lemma ErasedPlainPieces(a: seq<Piece>, count: nat)
    requires NoneSealed(a)
    ensures NoneSealed(DropChars(a, count))
  {
    var dropped := DropChars(a, count);
    forall x <- dropped ensures x.Plain? {
      var j :| 0 <= j < |dropped| && dropped[j] == x;
      assert a[j] in a;
    }
  }

  // What a segment leaves of its text and of the text before it.
  lemma KeptText(s: Segment, before: string, text: string)
    requires Wf(s.buffer) && !HasUncomposedReading(s.buffer.entries) && MayBecome(s, text)
    ensures DropLast(before + text, s.erased) == DropLast(before, ErasesBefore(s)) + SegmentText(s)
  {
    FinalTextPrefix(s.buffer.entries, Kept(s));
  }

  lemma TargetAround(a: seq<Piece>, x: Piece, b: seq<Piece>, segments: seq<Segment>, f: map<nat, string>)
    ensures TargetOn("", a + [x] + b, segments, f) ==
            TargetOn(TargetOn(TargetOn("", a, segments, f), [x], segments, f), b, segments, f)
  {
    TargetConcat("", a + [x], b, segments, f);
    TargetConcat("", a, [x], segments, f);
  }

  lemma WrittenTarget(doc: Doc, i: nat, a: seq<Piece>, b: seq<Piece>, f: map<nat, string>)
    requires Aligned(doc) && MayWrite(doc, i) && SealedEpochs(a) == SealedEpochs(doc.pieces)[..i]
    requires doc.pieces == a + [Sealed(doc.segments[i].epoch, doc.segments[i].shown)] + b
    requires Wf(doc.segments[i].buffer) && !HasUncomposedReading(doc.segments[i].buffer.entries)
    requires doc.segments[i].epoch !in SealedEpochs(b)
    requires MayBecome(doc.segments[i], Final(f, doc.segments[i].epoch))
    ensures var s := doc.segments[i];
            var written := DropChars(a, ErasesBefore(s)) + [Plain(SegmentText(s))] + b;
            TargetOn("", written, WithoutSegment(doc.segments, i), f) == TargetOn("", doc.pieces, doc.segments, f)
  {
    var s := doc.segments[i];
    var dropped, plain, sealed := DropChars(a, ErasesBefore(s)), Plain(SegmentText(s)), Sealed(s.epoch, s.shown);
    var without := WithoutSegment(doc.segments, i);
    var before := TargetOn("", a, doc.segments, f);
    SegmentFound(doc.segments, i);
    BeforeWritten(doc, i, a, f);
    KeptText(s, before, Final(f, s.epoch));
    TargetAround(a, sealed, b, doc.segments, f);
    TargetAround(dropped, plain, b, without, f);
    TargetOne(before, sealed, doc.segments, f);
    TargetOne(DropLast(before, ErasesBefore(s)), plain, without, f);
    forall epoch <- SealedEpochs(b) ensures ErasedOf(doc.segments, epoch) == ErasedOf(without, epoch) {
      WithoutLookup(doc.segments, i, epoch);
    }
    TargetFrame(DropLast(before, ErasesBefore(s)) + plain.text, b, doc.segments, without, f);
  }

  // Sealed pieces, queued seals and segments in step, as Aligned has it.
  predicate InStep(segments: seq<Segment>, sealed: seq<nat>, seals: seq<nat>) {
    && Epochs(segments) == sealed + seals
    && Increasing(Epochs(segments))
    && forall i :: 0 <= i < |segments| ==> (segments[i].inDocument <==> i < |sealed|)
  }

  lemma StillInStep(segments: seq<Segment>, sealed: seq<nat>, seals: seq<nat>, i: nat)
    requires InStep(segments, sealed, seals) && i < |segments| && i < |sealed|
    ensures InStep(WithoutSegment(segments, i), sealed[..i] + sealed[i + 1..], seals)
  {
    var r, s := WithoutSegment(segments, i), sealed[..i] + sealed[i + 1..];
    WithoutEpochs(segments, i);
    assert Epochs(r) == s + seals;
    forall k | 0 <= k < |r| ensures r[k].inDocument <==> k < |s| {
      assert r[k] == segments[if k < i then k else k + 1];
    }
  }

  // The segment's text is the sealed piece between a and b.
  predicate Around(doc: Doc, i: nat, a: seq<Piece>, b: seq<Piece>) {
    && i < |doc.segments| && i < |SealedEpochs(doc.pieces)|
    && doc.pieces == a + [Sealed(doc.segments[i].epoch, doc.segments[i].shown)] + b
    && SealedEpochs(a) == SealedEpochs(doc.pieces)[..i]
    && SealedEpochs(doc.pieces) == SealedEpochs(a) + [doc.segments[i].epoch] + SealedEpochs(b)
  }

  lemma WrittenAligned(doc: Doc, i: nat, a: seq<Piece>, b: seq<Piece>, count: nat, text: string)
    requires Aligned(doc) && Around(doc, i, a, b)
    ensures Aligned(doc.(pieces := DropChars(a, count) + [Plain(text)] + b, segments := WithoutSegment(doc.segments, i)))
  {
    var dropped, plain := DropChars(a, count), Plain(text);
    SealedKept(a, dropped);
    SealedConcat(dropped + [plain], b);
    SealedConcat(dropped, [plain]);
    assert [plain][..0] == [];
    var sealed := SealedEpochs(doc.pieces);
    StillInStep(doc.segments, sealed, SealsOf(doc.queue), i);
    assert SealedEpochs(dropped + [plain] + b) == sealed[..i] + sealed[i + 1..];
  }

  // The written epoch is nowhere else.
  lemma EpochsDiffer(doc: Doc, i: nat, a: seq<Piece>, b: seq<Piece>)
    requires Aligned(doc) && Around(doc, i, a, b)
    ensures doc.segments[i].epoch !in SealedEpochs(a) && doc.segments[i].epoch !in SealedEpochs(b)
    ensures doc.segments[i].epoch !in SealsOf(doc.queue)
  {
    var all := Epochs(doc.segments);
    assert all == SealedEpochs(a) + [doc.segments[i].epoch] + SealedEpochs(b) + SealsOf(doc.queue);
    PartsDiffer(all, SealedEpochs(a), doc.segments[i].epoch, SealedEpochs(b), SealsOf(doc.queue));
  }

  lemma PartsDiffer(all: seq<nat>, a: seq<nat>, x: nat, b: seq<nat>, c: seq<nat>)
    requires Increasing(all) && all == a + [x] + b + c
    ensures x !in a && x !in b && x !in c
  {
    assert all[|a|] == x;
    assert forall j :: 0 <= j < |a| ==> a[j] == all[j] < x;
    assert forall j :: 0 <= j < |b| ==> b[j] == all[|a| + 1 + j] > x;
    assert forall j :: 0 <= j < |c| ==> c[j] == all[|a| + 1 + |b| + j] > x;
  }

  lemma WrittenPieces(doc: Doc, i: nat, a: seq<Piece>, b: seq<Piece>)
    requires Aligned(doc) && PiecesMatch(doc.pieces, doc.segments) && Around(doc, i, a, b) && MayWrite(doc, i)
    ensures var s := doc.segments[i];
            var pieces := DropChars(a, ErasesBefore(s)) + [Plain(SegmentText(s))] + b;
            PiecesMatch(pieces, WithoutSegment(doc.segments, i))
  {
    var s := doc.segments[i];
    var dropped, plain := DropChars(a, ErasesBefore(s)), Plain(SegmentText(s));
    EpochsDiffer(doc, i, a, b);
    BeforeWrittenSealed(doc, i, a);
    SealedMembers(b);
    forall p <- dropped + [plain] + b | p.Sealed? ensures p in doc.pieces && p.epoch != s.epoch {
      assert p in dropped || p in b;
    }
    forall p <- dropped + [plain] + b | p.Sealed?
      ensures var r := WithoutSegment(doc.segments, i);
              SegmentOf(r, p.epoch) < |r| && r[SegmentOf(r, p.epoch)].shown == p.text
    {
      WithoutLookup(doc.segments, i, p.epoch);
    }
  }

  lemma WrittenFits(doc: Doc, i: nat, a: seq<Piece>, b: seq<Piece>)
    requires Aligned(doc) && Around(doc, i, a, b) && AllFit(doc.queue, doc.view, doc.segments)
    ensures AllFit(doc.queue, doc.view, WithoutSegment(doc.segments, i))
  {
    EpochsDiffer(doc, i, a, b);
    var r := WithoutSegment(doc.segments, i);
    forall epoch <- SealsOf(doc.queue)
      ensures var j, k := SegmentOf(doc.segments, epoch), SegmentOf(r, epoch);
              j < |doc.segments| ==> k < |r| && r[k].shown == doc.segments[j].shown
    {
      WithoutLookup(doc.segments, i, epoch);
    }
    FitFrame(doc.queue, doc.view, doc.segments, r);
  }

  lemma WrittenIs(doc: Doc, i: nat, a: seq<Piece>, b: seq<Piece>)
    requires Aligned(doc) && Around(doc, i, a, b)
    ensures var s, r := doc.segments[i], Written(doc, i);
            r == doc.(pieces := DropChars(a, ErasesBefore(s)) + [Plain(SegmentText(s))] + b,
                      segments := WithoutSegment(doc.segments, i), records := r.records,
                      written := doc.written[s.epoch := s])
  {
    EpochsDiffer(doc, i, a, b);
    WriteSegmentResult(doc, doc.segments[i], a, b);
  }

  lemma WrittenBelow(doc: Doc, i: nat, bound: nat)
    requires Aligned(doc) && Below(doc, bound) && i < |doc.segments|
    ensures Below(doc.(segments := WithoutSegment(doc.segments, i),
                       written := doc.written[doc.segments[i].epoch := doc.segments[i]]), bound)
  {
    WithoutEpochs(doc.segments, i);
    var s, without := doc.segments[i], WithoutSegment(doc.segments, i);
    assert Epochs(doc.segments)[i] == s.epoch && s.epoch in Epochs(doc.segments);
    forall e <- Epochs(without) ensures e < bound && e != s.epoch && e !in doc.written {
      assert e in Epochs(doc.segments);
    }
  }

  lemma WrittenShape(doc: Doc, d: DocId, i: nat, a: seq<Piece>, b: seq<Piece>)
    requires Shape(doc, d) && MayWrite(doc, i) && Around(doc, i, a, b)
    ensures Shape(Written(doc, i), d)
  {
    hide PiecesMatch, SegmentOk, WriteSegment, ErasesBefore, SegmentText;
    WrittenIs(doc, i, a, b);
    WrittenAligned(doc, i, a, b, ErasesBefore(doc.segments[i]), SegmentText(doc.segments[i]));
    WrittenPieces(doc, i, a, b);
    WrittenFits(doc, i, a, b);
    WrittenBelow(doc, i, Bound(ViewAfter(doc.queue, doc.view)));
  }

  // Writing a final segment changes nothing of what the text is going to be.
  lemma WrittenKeeps(doc: Doc, d: DocId, i: nat)
    requires DocInv(doc, d) && MayWrite(doc, i)
    ensures DocInv(Written(doc, i), d)
    ensures Written(doc, i).queue == doc.queue && Written(doc, i).view == doc.view
  {
    var s := doc.segments[i];
    var p := PlaceOf(doc, d, i);
    var a, b := doc.pieces[..p], doc.pieces[p + 1..];
    var r := Written(doc, i);
    assert Around(doc, i, a, b);
    WrittenShape(doc, d, i, a, b);
    EpochsDiffer(doc, i, a, b);
    WriteSegmentResult(doc, s, a, b);
    WrittenText(doc, d, i, a, b);
    WrittenAccounted(doc, i, r);
    SampleIsText(s);
  }

  lemma WrittenText(doc: Doc, d: DocId, i: nat, a: seq<Piece>, b: seq<Piece>)
    requires DocInv(doc, d) && MayWrite(doc, i) && Around(doc, i, a, b)
    ensures TextInv(Written(doc, i))
  {
    var s, r := doc.segments[i], Written(doc, i);
    WrittenIs(doc, i, a, b);
    EpochsDiffer(doc, i, a, b);
    assert s in doc.segments;
    assert s.epoch !in doc.written by {
      assert Epochs(doc.segments)[i] == s.epoch;
    }
    forall f: map<nat, string> | Agrees(f, r.written) ensures FutureText(r, f) == Replay(r.initial, r.intents, f) {
      assert r.written[s.epoch] == s && MayBecome(s, f[s.epoch]);
      assert Agrees(f, doc.written);
      WrittenTarget(doc, i, a, b, f);
    }
  }

  lemma WrittenAccounted(doc: Doc, i: nat, r: Doc)
    requires Accounted(doc) && i < |doc.segments| && r.segments == WithoutSegment(doc.segments, i) && r.intents == doc.intents
    requires r.written == doc.written[doc.segments[i].epoch := doc.segments[i]]
    ensures Accounted(r)
  {
    forall e <- Epochs(doc.segments) ensures e == doc.segments[i].epoch || e in Epochs(r.segments) {
      var j :| 0 <= j < |doc.segments| && doc.segments[j].epoch == e;
      if j != i {
        assert Epochs(r.segments)[if j < i then j else j - 1] == e;
      }
    }
  }

  // A sample is taken of an unerased segment: its answer is what was written.
  lemma SampleIsText(s: Segment)
    ensures SegmentSample(s).Some? ==>
              SegmentSample(s).value.answer == SegmentText(s) == FinalText(s.buffer.entries) && AllTrusted(s.buffer.entries)
  {
    assert s.buffer.entries[..|s.buffer.entries|] == s.buffer.entries;
  }

  lemma {:induction false} WriteFromKeeps(doc: Doc, d: DocId, i: nat)
    requires DocInv(doc, d) && i <= |doc.segments|
    ensures var r := WriteFrom(doc, i, i > 0);
            DocInv(r, d) && r.queue == doc.queue && r.view == doc.view
    decreases |doc.segments| - i
  {
    if i < |doc.segments| {
      if Writable(doc.segments[i], i > 0) {
        WrittenKeeps(doc, d, i);
        WriteFromKeeps(Written(doc, i), d, i);
      } else {
        WriteFromKeeps(doc, d, i + 1);
      }
    }
  }
}
