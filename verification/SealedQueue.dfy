/**
 SealedQueue keeps one list for all documents: its loops do to each document
 what the functions on that document's segments say.
 */
module SealedQueues {
  import opened Wrappers
  import opened Text
  import opened Bopomofo
  import opened Buffers
  import opened Conversions
  import opened Documents
  import opened DocumentInv
  import opened DocumentSteps
  import opened Controller

  // The segments of one document.
  function Of(segments: seq<Segment>, d: DocId): (r: seq<Segment>)
    ensures forall s <- r :: s in segments && s.document == d
    ensures forall s <- segments :: s.document == d ==> s in r
  {
    if segments == [] then []
    else
      var front, last := Of(segments[..|segments| - 1], d), segments[|segments| - 1];
      if last.document == d then front + [last] else front
  }

  lemma {:induction false} OfConcat(a: seq<Segment>, b: seq<Segment>, d: DocId)
    ensures Of(a + b, d) == Of(a, d) + Of(b, d)
  {
    var both := a + b;
    if b == [] {
      assert both == a;
    } else {
      assert both[..|both| - 1] == a + b[..|b| - 1] && both[|both| - 1] == b[|b| - 1];
      OfConcat(a, b[..|b| - 1], d);
    }
  }

  lemma OfOne(s: Segment, d: DocId)
    ensures Of([s], d) == if s.document == d then [s] else []
  {
    assert [s][..0] == [];
  }

  // The list around position i, document by document.
  lemma OfSplit(segments: seq<Segment>, i: nat, d: DocId)
    requires i < |segments|
    ensures Of(segments, d) == Of(segments[..i], d) + (if segments[i].document == d then [segments[i]] else []) + Of(segments[i + 1..], d)
  {
    assert segments == segments[..i] + [segments[i]] + segments[i + 1..];
    OfConcat(segments[..i] + [segments[i]], segments[i + 1..], d);
    OfConcat(segments[..i], [segments[i]], d);
    OfOne(segments[i], d);
  }

  // Where the segment at position i is among those of its document.
  function Rank(segments: seq<Segment>, i: nat): nat
    requires i < |segments|
  {
    |Of(segments[..i], segments[i].document)|
  }

  lemma RankFinds(segments: seq<Segment>, i: nat)
    requires i < |segments|
    ensures var own := Of(segments, segments[i].document);
            Rank(segments, i) < |own| && own[Rank(segments, i)] == segments[i]
  {
    OfSplit(segments, i, segments[i].document);
  }

  // The segments of d, with the one at position i of the list replaced.
  function OwnReplaced(segments: seq<Segment>, i: nat, s: Segment, d: DocId): seq<Segment>
    requires i < |segments|
  {
    var own := Of(segments, d);
    if d == s.document && Rank(segments, i) < |own| then own[Rank(segments, i) := s] else own
  }

  lemma OfSplitReplaced(segments: seq<Segment>, i: nat, s: Segment, d: DocId)
    requires i < |segments|
    ensures Of(segments[i := s], d) == Of(segments[..i], d) + (if s.document == d then [s] else []) + Of(segments[i + 1..], d)
  {
    OfSplit(segments[i := s], i, d);
    assert segments[i := s][..i] == segments[..i] && segments[i := s][i + 1..] == segments[i + 1..];
  }

  // Replacing a segment by one of the same document.
  lemma OfReplaced(segments: seq<Segment>, i: nat, s: Segment, d: DocId)
    requires i < |segments| && s.document == segments[i].document
    ensures Rank(segments, i) < |Of(segments, s.document)|
    ensures Of(segments[i := s], d) == OwnReplaced(segments, i, s, d)
  {
    RankFinds(segments, i);
    OfSplit(segments, i, d);
    OfSplitReplaced(segments, i, s, d);
    if d == s.document {
      ReplacedBetween(Of(segments[..i], d), segments[i], Of(segments[i + 1..], d), s);
    }
  }

  lemma ReplacedBetween(a: seq<Segment>, was: Segment, b: seq<Segment>, s: Segment)
    ensures (a + [was] + b)[|a| := s] == a + [s] + b
  {
  }

  // A segment found by its epoch in the whole list is the one found in its document.
  lemma FoundInDocument(segments: seq<Segment>, epoch: nat)
    ensures var i := SegmentOf(segments, epoch);
            i < |segments| ==>
              SegmentOf(Of(segments, segments[i].document), epoch) == Rank(segments, i)
  {
    var i := SegmentOf(segments, epoch);
    if i < |segments| {
      var d := segments[i].document;
      var own, k := Of(segments, d), Rank(segments, i);
      RankFinds(segments, i);
      OfSplit(segments, i, d);
      forall j | 0 <= j < k ensures own[j].epoch != epoch {
        assert own[j] == Of(segments[..i], d)[j] && own[j] in segments[..i];
      }
    }
  }

  class SealedQueue {
    var segments: seq<Segment>
    // The text of the documents, and the edits queued for them.
    var docs: map<DocId, Doc>

    // A document with the segments it still shows unconverted.
    function View(d: DocId): Doc
      requires d in docs
      reads this
    {
      docs[d].(segments := Of(segments, d))
    }

    constructor (docs: map<DocId, Doc>)
      ensures segments == [] && this.docs == docs
    {
      this.segments, this.docs := [], docs;
    }

    method Find(epoch: nat) returns (i: nat)
      ensures i == SegmentOf(segments, epoch)
    {
      i := 0;
      while i < |segments| && segments[i].epoch != epoch
        invariant i <= |segments| && forall j :: 0 <= j < i ==> segments[j].epoch != epoch
      {
        i := i + 1;
      }
    }

    // The position of the newest segment of d in the document, or -1.
    method Newest(d: DocId) returns (i: int)
      ensures -1 <= i < |segments|
      ensures i < 0 ==> NewestInDocument(Of(segments, d)) == -1
      ensures i >= 0 ==> segments[i].document == d && segments[i].inDocument && NewestInDocument(Of(segments, d)) == Rank(segments, i)
    {
      i := |segments| - 1;
      while i >= 0 && !(segments[i].document == d && segments[i].inDocument)
        invariant -1 <= i < |segments|
        invariant forall j :: i < j < |segments| ==> !(segments[j].document == d && segments[j].inDocument)
      {
        i := i - 1;
      }
      NewestRank(segments, d, i);
    }

    // The newest segment of d right before the caret.
    method AtCaret(d: DocId) returns (i: int)
      requires d in docs
      ensures -1 <= i < |segments|
      ensures i < 0 ==> NewestAtCaret(View(d)) == -1
      ensures i >= 0 ==> segments[i].document == d && NewestAtCaret(View(d)) == Rank(segments, i)
    {
      i := Newest(d);
      if i >= 0 {
        RankFinds(segments, i);
        if !CaretAfterSealed(docs[d], segments[i].epoch) {
          i := -1;
        }
      }
    }

    // A segment changes in place.
    method Replace(i: nat, s: Segment)
      requires i < |segments| && s.document == segments[i].document
      modifies this`segments
      ensures segments == old(segments)[i := s]
      ensures forall x :: x != s.document ==> Of(segments, x) == Of(old(segments), x)
      ensures var own, k := Of(old(segments), s.document), Rank(old(segments), i);
              k < |own| && Of(segments, s.document) == own[k := s]
    {
      ghost var was := segments;
      var changed := segments[i := s];
      forall x ensures Of(changed, x) == OwnReplaced(was, i, s, x) {
        OfReplaced(was, i, s, x);
      }
      RankFinds(was, i);
      segments := changed;
    }

    // The result tells whether a segment took the Backspace.
    method EraseAtCaret(d: DocId) returns (erased: bool)
      requires d in docs
      modifies this
      ensures d in docs && docs == old(docs)[d := docs[d]]
      ensures erased == (NewestAtCaret(old(View(d))) >= 0)
      ensures View(d) == if erased then EraseInOrder(old(View(d))) else old(View(d))
      ensures forall x :: x != d ==> Of(segments, x) == Of(old(segments), x)
    {
      var i := AtCaret(d);
      if i < 0 {
        return false;
      }
      RankFinds(segments, i);
      Replace(i, EraseLast(segments[i]));
      if segments[i].stage.Finished? {
        docs := docs[d := Enqueue(docs[d], WriteFinished)];
      }
      return true;
    }

    method ContextAtCaret(d: DocId) returns (context: Option<string>)
      requires d in docs
      ensures var i := NewestAtCaret(View(d));
              context == if i >= 0 then Some(FollowingContext(View(d).segments[i])) else None
    {
      var i := AtCaret(d);
      if i < 0 {
        return None;
      }
      RankFinds(segments, i);
      context := Some(FollowingContext(segments[i]));
    }

    // A result for a sealed segment.
    method OnConversion(epoch: nat, sequence: nat, requested: seq<Entry>, converted: seq<Output>) returns (finished: Option<DocId>)
      modifies this`segments
      ensures var i := SegmentOf(old(segments), epoch);
              if i == |old(segments)| then segments == old(segments) && finished == None
              else var d := old(segments)[i].document;
                   && (forall x :: x != d ==> Of(segments, x) == Of(old(segments), x))
                   && (d in docs ==> View(d) == MergeSealed(old(View(d)), epoch, sequence, requested, converted))
                   && finished == (if MergeSegment(old(segments)[i], sequence, requested, converted).stage.Finished? then Some(d) else None)
    {
      var i := Find(epoch);
      if i == |segments| {
        return None;
      }
      var merged := MergeSegment(segments[i], sequence, requested, converted);
      FoundInDocument(segments, epoch);
      RankFinds(segments, i);
      Replace(i, merged);
      finished := if merged.stage.Finished? then Some(merged.document) else None;
    }

    // Every segment is final; the documents to be written, once each.
    method FinishLocally() returns (documents: seq<DocId>)
      modifies this`segments
      ensures |segments| == |old(segments)|
      ensures forall i :: 0 <= i < |segments| ==> segments[i] == FinishSegment(old(segments)[i])
      ensures forall d :: d in documents <==> Of(old(segments), d) != []
      ensures forall i, j :: 0 <= i < j < |documents| ==> documents[i] != documents[j]
    {
      documents := [];
      for i := 0 to |segments|
        invariant |segments| == |old(segments)|
        invariant forall j :: 0 <= j < i ==> segments[j] == FinishSegment(old(segments)[j])
        invariant forall j :: i <= j < |segments| ==> segments[j] == old(segments)[j]
        invariant forall d :: d in documents <==> exists j :: 0 <= j < i && old(segments)[j].document == d
        invariant forall j, k :: 0 <= j < k < |documents| ==> documents[j] != documents[k]
      {
        segments := segments[i := FinishSegment(segments[i])];
        if segments[i].document !in documents {
          documents := documents + [segments[i].document];
        }
      }
      forall d ensures d in documents <==> Of(old(segments), d) != [] {
        OfNotEmpty(old(segments), d);
      }
    }

    method Forget(d: DocId)
      modifies this`segments
      ensures Of(segments, d) == []
      ensures forall x :: x != d ==> Of(segments, x) == Of(old(segments), x)
    {
      var kept: seq<Segment> := [];
      for i := 0 to |segments|
        invariant segments == old(segments)
        invariant forall x :: Of(kept, x) == if x == d then [] else Of(segments[..i], x)
      {
        ghost var was := kept;
        forall x ensures Of(segments[..i + 1], x) == Of(segments[..i], x) + if segments[i].document == x then [segments[i]] else [] {
          assert segments[..i + 1] == segments[..i] + [segments[i]];
          OfConcat(segments[..i], [segments[i]], x);
          OfOne(segments[i], x);
        }
        if segments[i].document != d {
          forall x ensures Of(was + [segments[i]], x) == Of(was, x) + if segments[i].document == x then [segments[i]] else [] {
            OfConcat(was, [segments[i]], x);
            OfOne(segments[i], x);
          }
          kept := kept + [segments[i]];
        }
      }
      assert segments[..|segments|] == segments;
      segments := kept;
    }

    // A text changed behind the queue's back is left alone.
    method Write(d: DocId, s: Segment)
      requires d in docs
      modifies this`docs
      ensures d in docs && docs == old(docs)[d := WriteSegment(old(docs)[d], s)]
    {
      var doc := docs[d];
      if SealedText(doc, s.epoch) == Some(s.shown) {
        doc := WriteSealed(doc, s.epoch, SegmentText(s));
        if ErasesBefore(s) > 0 {
          doc := EraseBeforeSealed(doc, s.epoch, ErasesBefore(s));
        } else {
          NothingErased(doc, s.epoch);
        }
        doc := Recorded(doc, s.epoch, SegmentSample(s), s.buffer.entries, ValueOr(SealedText(doc, s.epoch), ""));
      }
      doc := ReleaseSealed(doc, s.epoch);
      docs := docs[d := doc.(written := docs[d].written[s.epoch := s])];
    }

    // The segment at position i is written and gone.
    method WriteAt(d: DocId, i: nat)
      requires d in docs && i < |segments| && segments[i].document == d
      modifies this
      ensures d in docs && docs == old(docs)[d := docs[d]]
      ensures segments == old(segments)[..i] + old(segments)[i + 1..]
      ensures Rank(old(segments), i) < |old(View(d)).segments| && View(d) == Written(old(View(d)), Rank(old(segments), i))
      ensures forall x :: x != d ==> Of(segments, x) == Of(old(segments), x)
    {
      ghost var was := segments;
      var rest := segments[..i] + segments[i + 1..];
      forall x ensures Of(rest, x) == OwnRemoved(was, i, x) {
        OfRemoved(was, i, x);
      }
      RankFinds(was, i);
      WriteCommutes(docs[d], Of(was, d), docs[d].queue, was[i]);
      Write(d, segments[i]);
      segments := rest;
    }

    // One segment is looked at: written and gone, or waiting, or of another document.
    method Visit(d: DocId, i: nat, earlierWaiting: bool, ghost target: Doc) returns (next: nat, waiting: bool)
      requires d in docs && Reaches(View(d), segments, d, i, earlierWaiting, target) && i < |segments|
      modifies this
      ensures d in docs && Reaches(View(d), segments, d, next, waiting, target) && |segments| - next < |old(segments)| - i
      ensures docs == old(docs)[d := docs[d]] && forall x :: x != d ==> Of(segments, x) == Of(old(segments), x)
    {
      next, waiting := i, earlierWaiting;
      if segments[i].document != d || !Writable(segments[i], earlierWaiting) {
        PassedOver(View(d), segments, d, i, earlierWaiting, target);
        next, waiting := i + 1, earlierWaiting || segments[i].document == d;
      } else {
        WrittenReaches(View(d), segments, d, i, earlierWaiting, target);
        WriteAt(d, i);
      }
    }

    // One pass over the list; a segment with erases left over stays while one
    // before it is not written.
    method WriteAllFinished(d: DocId)
      requires d in docs
      modifies this
      ensures d in docs && docs == old(docs)[d := docs[d]]
      ensures View(d) == WriteFrom(old(View(d)), 0, false)
      ensures forall x :: x != d ==> Of(segments, x) == Of(old(segments), x)
    {
      ghost var target := WriteFrom(View(d), 0, false);
      var earlierWaiting := false;
      var i: nat := 0;
      assert segments[..0] == [];
      while i < |segments|
        invariant d in docs && Reaches(View(d), segments, d, i, earlierWaiting, target)
        invariant docs == old(docs)[d := docs[d]] && forall x :: x != d ==> Of(segments, x) == Of(old(segments), x)
        decreases |segments| - i
      {
        i, earlierWaiting := Visit(d, i, earlierWaiting, target);
      }
      assert segments[..|segments|] == segments;
    }
  }

  // Writing the segments of document d from position i of the list on leads to the target.
  predicate Reaches(doc: Doc, segments: seq<Segment>, d: DocId, i: nat, earlierWaiting: bool, target: Doc) {
    && doc.segments == Of(segments, d) && i <= |segments| && |Of(segments[..i], d)| <= |doc.segments|
    && WriteFrom(doc, |Of(segments[..i], d)|, earlierWaiting) == target
  }

  lemma PassedOver(doc: Doc, segments: seq<Segment>, d: DocId, i: nat, earlierWaiting: bool, target: Doc)
    requires Reaches(doc, segments, d, i, earlierWaiting, target) && i < |segments|
    requires segments[i].document != d || !Writable(segments[i], earlierWaiting)
    ensures Reaches(doc, segments, d, i + 1, earlierWaiting || segments[i].document == d, target)
  {
    NextOf(segments, i, d);
    if segments[i].document == d {
      WriteFromStep(doc, |Of(segments[..i], d)|, earlierWaiting);
    }
  }

  lemma WrittenReaches(doc: Doc, segments: seq<Segment>, d: DocId, i: nat, earlierWaiting: bool, target: Doc)
    requires Reaches(doc, segments, d, i, earlierWaiting, target) && i < |segments|
    requires segments[i].document == d && Writable(segments[i], earlierWaiting)
    ensures Rank(segments, i) < |doc.segments|
    ensures Reaches(Written(doc, Rank(segments, i)), segments[..i] + segments[i + 1..], d, i, earlierWaiting, target)
  {
    var rest, k := segments[..i] + segments[i + 1..], Rank(segments, i);
    NextOf(segments, i, d);
    WriteFromStep(doc, k, earlierWaiting);
    OfRemoved(segments, i, d);
    assert rest[..i] == segments[..i];
    WrittenSegmentsAre(doc, k);
  }

  lemma WrittenSegmentsAre(doc: Doc, k: nat)
    requires k < |doc.segments|
    ensures Written(doc, k).segments == WithoutSegment(doc.segments, k)
  {
  }

  // The segments of d without the one at position i of the list.
  function OwnRemoved(segments: seq<Segment>, i: nat, d: DocId): seq<Segment>
    requires i < |segments|
  {
    var own := Of(segments, d);
    if d == segments[i].document && Rank(segments, i) < |own| then WithoutSegment(own, Rank(segments, i)) else own
  }

  lemma OfRemoved(segments: seq<Segment>, i: nat, d: DocId)
    requires i < |segments|
    ensures Of(segments[..i] + segments[i + 1..], d) == OwnRemoved(segments, i, d)
  {
    hide Of;
    RankFinds(segments, i);
    OfSplit(segments, i, d);
    OfConcat(segments[..i], segments[i + 1..], d);
    if d == segments[i].document {
      var a, b := Of(segments[..i], d), Of(segments[i + 1..], d);
      assert WithoutSegment(a + [segments[i]] + b, |a|) == a + b;
    }
  }

  lemma NextOf(segments: seq<Segment>, i: nat, d: DocId)
    requires i < |segments|
    ensures var k, own := |Of(segments[..i], d)|, Of(segments, d);
            if segments[i].document == d then k < |own| && own[k] == segments[i] && |Of(segments[..i + 1], d)| == k + 1
            else |Of(segments[..i + 1], d)| == k <= |own|
  {
    OfSplit(segments, i, d);
    assert segments[..i + 1] == segments[..i] + [segments[i]];
    OfConcat(segments[..i], [segments[i]], d);
    OfOne(segments[i], d);
  }

  lemma NothingErased(doc: Doc, epoch: nat)
    ensures EraseBeforeSealed(doc, epoch, 0) == doc
  {
    var i := PieceOf(doc.pieces, epoch);
    if i < |doc.pieces| {
      assert DropChars(doc.pieces[..i], 0) + doc.pieces[i..] == doc.pieces;
    }
  }

  lemma WriteFromStep(doc: Doc, k: nat, earlierWaiting: bool)
    requires k < |doc.segments|
    ensures WriteFrom(doc, k, earlierWaiting) ==
            if Writable(doc.segments[k], earlierWaiting) then WriteFrom(Written(doc, k), k, earlierWaiting)
            else WriteFrom(doc, k + 1, true)
  {
  }

  lemma OfNotEmpty(segments: seq<Segment>, d: DocId)
    ensures Of(segments, d) != [] <==> exists j :: 0 <= j < |segments| && segments[j].document == d
  {
    if j :| 0 <= j < |segments| && segments[j].document == d {
      assert segments[j] in Of(segments, d);
    }
    if Of(segments, d) != [] {
      assert Of(segments, d)[0] in Of(segments, d);
    }
  }

  // Position i is the last of document d in the document.
  lemma NewestRank(segments: seq<Segment>, d: DocId, i: int)
    requires -1 <= i < |segments|
    requires forall j :: i < j < |segments| ==> !(segments[j].document == d && segments[j].inDocument)
    requires i >= 0 ==> segments[i].document == d && segments[i].inDocument
    ensures NewestInDocument(Of(segments, d)) == if i < 0 then -1 else Rank(segments, i)
  {
    var own := Of(segments, d);
    var n := NewestInDocument(own);
    if i < 0 {
      forall k | 0 <= k < |own| ensures !own[k].inDocument {
        assert own[k] in segments;
      }
    } else {
      RankFinds(segments, i);
      OfSplit(segments, i, d);
      var k, behind := Rank(segments, i), Of(segments[i + 1..], d);
      forall j | k < j < |own| ensures !own[j].inDocument {
        assert own[j] == behind[j - k - 1];
        assert own[j] in segments[i + 1..];
      }
    }
  }
}
