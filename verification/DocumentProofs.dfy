/**
 What a document is going to become: its text once every sealed segment is
 final, every erase is done and every queued edit has run.
 */
module DocumentProofs {
  import opened Wrappers
  import opened Text
  import opened Bopomofo
  import opened Buffers
  import opened BufferProofs
  import opened Conversions
  import opened Documents

  // ---- the reference -------------------------------------------------------------

  // f maps the epoch of each sealed segment to its final text.
  function Final(f: map<nat, string>, epoch: nat): string {
    if epoch in f then f[epoch] else ""
  }

  function ReplayOne(before: string, intent: Intent, f: map<nat, string>): string {
    match intent
    case Typed(ended) => before + ToText(ended.buffer)
    case TypedSealed(epoch, _) => before + Final(f, epoch)
    case Erased => DropLast(before, 1)
  }

  // An input method that converts at once: what is typed appears in its final
  // form, and every Backspace removes one character.
  function Replay(initial: string, intents: seq<Intent>, f: map<nat, string>): string {
    if intents == [] then initial
    else ReplayOne(Replay(initial, intents[..|intents| - 1], f), intents[|intents| - 1], f)
  }

  // ---- the document's future ----------------------------------------------------------

  function ErasedOf(segments: seq<Segment>, epoch: nat): nat {
    var i := SegmentOf(segments, epoch);
    if i < |segments| then segments[i].erased else 0
  }

  // The text the pieces become behind base.
  function TargetOn(base: string, pieces: seq<Piece>, segments: seq<Segment>, f: map<nat, string>): string {
    if pieces == [] then base
    else
      var before := TargetOn(base, pieces[..|pieces| - 1], segments, f);
      match pieces[|pieces| - 1]
      case Plain(text) => before + text
      case Sealed(epoch, _) => DropLast(before + Final(f, epoch), ErasedOf(segments, epoch))
  }

  function NextView(e: Edit, v: View): View {
    match e
    case ReadContext(epoch) => Composing(epoch, None)
    case Show(epoch, ended) => Composing(epoch, Some(ended))
    case Commit(epoch, _, _) => Idle(epoch + 1)
    case Discard(epoch) => Idle(epoch + 1)
    case Seal(epoch) => Idle(epoch + 1)
    case _ => v
  }

  function NextText(e: Edit, v: View, text: string, f: map<nat, string>): string {
    match e
    case Commit(epoch, _, _) => if v.Composing? && v.shown.Some? then text + v.shown.value.text else text
    case Seal(epoch) => text + Final(f, epoch)
    case Backspace => DropLast(text, 1)
    case _ => text
  }

  function ViewAfter(queue: seq<Edit>, v: View): View {
    if queue == [] then v else ViewAfter(queue[1..], NextView(queue[0], v))
  }

  // The queue run with every composition shown as it ended.
  function TextAfter(queue: seq<Edit>, v: View, text: string, f: map<nat, string>): string {
    if queue == [] then text
    else TextAfter(queue[1..], NextView(queue[0], v), NextText(queue[0], v, text, f), f)
  }

  predicate Composes(v: View, epoch: nat) {
    v.Composing? && v.epoch == epoch
  }

  // An edit fits the view it will find. In particular a composition ends with
  // exactly what it last showed, and Backspace never meets one.
  predicate Fits(e: Edit, v: View, segments: seq<Segment>) {
    match e
    case ReadContext(epoch) => v.Idle? && v.next <= epoch
    case Show(epoch, _) => Composes(v, epoch)
    case ApplyResult(_, request, _) => Composes(v, request.epoch)
    case AcceptLocally(epoch) => Composes(v, epoch)
    case Commit(epoch, sample, entries) =>
      && Composes(v, epoch) && v.shown.Some? && v.shown.value.text == FinalText(entries)
      && (sample.Some? ==> AllTrusted(entries) && sample == Some(Sample(entries, sample.value.context)))
    case Discard(epoch) => Composes(v, epoch)
    case Seal(epoch) =>
      var i := SegmentOf(segments, epoch);
      Composes(v, epoch) && v.shown.Some? && i < |segments| && segments[i].shown == v.shown.value.text
    case Backspace => v.Idle?
    case WriteFinished => true
  }

  predicate AllFit(queue: seq<Edit>, v: View, segments: seq<Segment>) {
    queue == [] || (Fits(queue[0], v, segments) && AllFit(queue[1..], NextView(queue[0], v), segments))
  }

  lemma {:induction false} QueueAppend(queue: seq<Edit>, e: Edit, v: View, segments: seq<Segment>)
    ensures ViewAfter(queue + [e], v) == NextView(e, ViewAfter(queue, v))
    ensures AllFit(queue + [e], v, segments) <==> AllFit(queue, v, segments) && Fits(e, ViewAfter(queue, v), segments)
  {
    var both := queue + [e];
    if queue == [] {
      assert both == [e];
    } else {
      assert both[1..] == queue[1..] + [e] && both[0] == queue[0];
      QueueAppend(queue[1..], e, NextView(queue[0], v), segments);
    }
  }

  lemma {:induction false} TextAppend(queue: seq<Edit>, e: Edit, v: View, text: string, f: map<nat, string>)
    ensures TextAfter(queue + [e], v, text, f) == NextText(e, ViewAfter(queue, v), TextAfter(queue, v, text, f), f)
  {
    var both := queue + [e];
    if queue == [] {
      assert both == [e];
    } else {
      assert both[1..] == queue[1..] + [e] && both[0] == queue[0];
      TextAppend(queue[1..], e, NextView(queue[0], v), NextText(queue[0], v, text, f), f);
    }
  }

  // ---- edits of the live composition ----------------------------------------------------

  // Edits that leave the text behind them alone while epoch is composed.
  predicate LiveEdit(e: Edit, epoch: nat) {
    match e
    case Show(x, _) => x == epoch
    case ApplyResult(_, request, _) => request.epoch == epoch
    case AcceptLocally(x) => x == epoch
    case WriteFinished => true
    case _ => false
  }

  predicate ShowsEpoch(queue: seq<Edit>, epoch: nat) {
    exists e <- queue :: e.Show? && e.epoch == epoch
  }

  // Once a later epoch can only follow, an earlier one never comes back.
  lemma {:induction false} NeverBack(queue: seq<Edit>, v: View, segments: seq<Segment>, epoch: nat)
    requires AllFit(queue, v, segments)
    requires if v.Idle? then v.next > epoch else v.epoch > epoch
    ensures !Composes(ViewAfter(queue, v), epoch)
    ensures forall e <- queue :: e.ReadContext? || e.Show? || e.Commit? || e.Discard? || e.Seal? || e.AcceptLocally? ==> e.epoch > epoch
    ensures forall e <- queue :: e.ApplyResult? ==> e.request.epoch > epoch
  {
    if queue != [] {
      NeverBack(queue[1..], NextView(queue[0], v), segments, epoch);
      assert forall e <- queue :: e == queue[0] || e in queue[1..];
    }
  }

  // Behind an edit of the live composition there are only such edits, and they
  // fit whatever the composition shows.
  lemma {:induction false} LiveTail(queue: seq<Edit>, v: View, w: View, segments: seq<Segment>, epoch: nat)
    requires AllFit(queue, v, segments) && Composes(v, epoch) && Composes(w, epoch)
    requires Composes(ViewAfter(queue, v), epoch)
    ensures forall e <- queue :: LiveEdit(e, epoch)
    ensures AllFit(queue, w, segments) && Composes(ViewAfter(queue, w), epoch)
    ensures !ShowsEpoch(queue, epoch) ==> ViewAfter(queue, w) == w
  {
    if queue != [] {
      var e, rest := queue[0], queue[1..];
      if !LiveEdit(e, epoch) {
        NeverBack(rest, NextView(e, v), segments, epoch);
        assert false;
      }
      LiveTail(rest, NextView(e, v), NextView(e, w), segments, epoch);
      assert forall x <- queue :: x == e || x in rest;
      assert e in queue && forall x <- rest :: x in queue;
    }
  }

  lemma {:induction false} LiveTailText(queue: seq<Edit>, v: View, text: string, f: map<nat, string>, epoch: nat)
    requires forall e <- queue :: LiveEdit(e, epoch)
    ensures TextAfter(queue, v, text, f) == text
  {
    if queue != [] {
      assert queue[0] in queue && forall e <- queue[1..] :: e in queue;
      LiveTailText(queue[1..], NextView(queue[0], v), NextText(queue[0], v, text, f), f, epoch);
    }
  }

  // ---- pieces -----------------------------------------------------------------------------

  function SealedEpochs(pieces: seq<Piece>): seq<nat> {
    if pieces == [] then []
    else
      var front, last := SealedEpochs(pieces[..|pieces| - 1]), pieces[|pieces| - 1];
      if last.Sealed? then front + [last.epoch] else front
  }

  predicate NoneSealed(pieces: seq<Piece>) {
    forall p <- pieces :: p.Plain?
  }

  lemma {:induction false} SealedConcat(a: seq<Piece>, b: seq<Piece>)
    ensures SealedEpochs(a + b) == SealedEpochs(a) + SealedEpochs(b)
  {
    var both := a + b;
    if b == [] {
      assert both == a;
    } else {
      assert both[..|both| - 1] == a + b[..|b| - 1] && both[|both| - 1] == b[|b| - 1];
      SealedConcat(a, b[..|b| - 1]);
    }
  }

  lemma {:induction false} SealedMembers(pieces: seq<Piece>)
    ensures forall epoch :: epoch in SealedEpochs(pieces) <==> exists p <- pieces :: p.Sealed? && p.epoch == epoch
    ensures SealedEpochs(pieces) == [] <==> NoneSealed(pieces)
  {
    if pieces != [] {
      var front, last := pieces[..|pieces| - 1], pieces[|pieces| - 1];
      SealedMembers(front);
      assert forall p <- pieces :: p == last || p in front;
      assert last in pieces && forall p <- front :: p in pieces;
    }
  }

  // Changing texts only keeps the sealed epochs.
  lemma {:induction false} SealedKept(a: seq<Piece>, b: seq<Piece>)
    requires |a| == |b| && forall i :: 0 <= i < |a| ==> b[i] == a[i].(text := b[i].text)
    ensures SealedEpochs(a) == SealedEpochs(b)
  {
    if a != [] {
      SealedKept(a[..|a| - 1], b[..|b| - 1]);
    }
  }

  lemma {:induction false} TargetConcat(base: string, a: seq<Piece>, b: seq<Piece>, segments: seq<Segment>, f: map<nat, string>)
    ensures TargetOn(base, a + b, segments, f) == TargetOn(TargetOn(base, a, segments, f), b, segments, f)
  {
    var both := a + b;
    if b == [] {
      assert both == a;
    } else {
      assert both[..|both| - 1] == a + b[..|b| - 1] && both[|both| - 1] == b[|b| - 1];
      TargetConcat(base, a, b[..|b| - 1], segments, f);
    }
  }

  lemma TargetOne(base: string, p: Piece, segments: seq<Segment>, f: map<nat, string>)
    ensures TargetOn(base, [p], segments, f) ==
            if p.Plain? then base + p.text else DropLast(base + Final(f, p.epoch), ErasedOf(segments, p.epoch))
  {
    assert [p][..0] == [];
  }

  // Only the erases of the segments it shows matter to a text.
  lemma {:induction false} TargetFrame(base: string, pieces: seq<Piece>, a: seq<Segment>, b: seq<Segment>, f: map<nat, string>)
    requires forall epoch <- SealedEpochs(pieces) :: ErasedOf(a, epoch) == ErasedOf(b, epoch)
    ensures TargetOn(base, pieces, a, f) == TargetOn(base, pieces, b, f)
  {
    if pieces != [] {
      var last := pieces[|pieces| - 1];
      if last.Sealed? {
        assert SealedEpochs(pieces)[|SealedEpochs(pieces)| - 1] == last.epoch;
      }
      TargetFrame(base, pieces[..|pieces| - 1], a, b, f);
    }
  }

  lemma PiecesTextSnoc(pieces: seq<Piece>, last: Piece)
    ensures PiecesText(pieces + [last]) == PiecesText(pieces) + last.text
  {
    var both := pieces + [last];
    var texts := seq(|both|, i requires 0 <= i < |both| => both[i].text);
    assert texts[..|texts| - 1] == seq(|pieces|, i requires 0 <= i < |pieces| => pieces[i].text);
  }

  lemma {:induction false} TargetPlain(base: string, pieces: seq<Piece>, segments: seq<Segment>, f: map<nat, string>)
    requires NoneSealed(pieces)
    ensures TargetOn(base, pieces, segments, f) == base + PiecesText(pieces)
  {
    if pieces != [] {
      var front, last := pieces[..|pieces| - 1], pieces[|pieces| - 1];
      assert pieces == front + [last] && last in pieces && forall p <- front :: p in pieces;
      TargetPlain(base, front, segments, f);
      PiecesTextSnoc(front, last);
    }
  }

  lemma {:induction false} DropCharsText(pieces: seq<Piece>, count: nat)
    ensures PiecesText(DropChars(pieces, count)) == DropLast(PiecesText(pieces), count)
  {
    if pieces != [] && count > 0 {
      var front, last := pieces[..|pieces| - 1], pieces[|pieces| - 1];
      assert pieces == front + [last];
      PiecesTextSnoc(front, last);
      if count <= |last.text| {
        PiecesTextSnoc(front, last.(text := DropLast(last.text, count)));
      } else {
        DropCharsText(front, count - |last.text|);
        PiecesTextSnoc(DropChars(front, count - |last.text|), last.(text := ""));
      }
    }
  }

  lemma DropOneSnoc(front: seq<Piece>, last: Piece)
    ensures DropChars(front + [last], 1) ==
            if last.text != "" then front + [last.(text := DropLast(last.text, 1))] else DropChars(front, 1) + [last]
  {
    var all := front + [last];
    assert all[..|all| - 1] == front && all[|all| - 1] == last;
  }

  // The last character is behind the pieces a.
  lemma {:induction false} DropCharBehind(a: seq<Piece>, b: seq<Piece>)
    requires PiecesText(b) != ""
    ensures DropChars(a + b, 1) == a + DropChars(b, 1)
  {
    var front, last := b[..|b| - 1], b[|b| - 1];
    assert b == front + [last] && a + b == (a + front) + [last];
    DropOneSnoc(front, last);
    DropOneSnoc(a + front, last);
    if last.text == "" {
      PiecesTextSnoc(front, last);
      DropCharBehind(a, front);
    }
  }

  lemma PieceFound(a: seq<Piece>, epoch: nat, text: string, b: seq<Piece>)
    requires epoch !in SealedEpochs(a)
    ensures PieceOf(a + [Sealed(epoch, text)] + b, epoch) == |a|
  {
    var all := a + [Sealed(epoch, text)] + b;
    assert all[|a|] == Sealed(epoch, text);
    SealedMembers(a);
    assert forall j :: 0 <= j < |a| ==> all[j] == a[j] && a[j] in a;
  }
}
