/** Text as UTF-16 code units, as the source holds it (RFC 2781, section 2.1). */
module Utf16 {
  import opened Text

  type Unit = u: nat | u < 0x1_0000

  predicate High(u: Unit) {
    0xD800 <= u <= 0xDBFF
  }

  function EncodeOne(c: char): (r: seq<Unit>)
    ensures 1 <= |r| <= 2 && (|r| == 1 ==> !High(r[0])) && (|r| == 2 ==> High(r[0]) && !High(r[1]))
  {
    var code := c as int;
    if code < 0x1_0000 then [code] else [0xD800 + (code - 0x1_0000) / 0x400, 0xDC00 + (code - 0x1_0000) % 0x400]
  }

  function Encode(s: string): seq<Unit> {
    if s == "" then [] else Encode(s[..|s| - 1]) + EncodeOne(s[|s| - 1])
  }

  lemma LastUnit(s: string)
    requires s != ""
    ensures Encode(s) != [] && !High(Encode(s)[|Encode(s)| - 1])
  {
  }

  // The text without its last unit, and without the one before it if that is half a pair.
  function WithoutLast(text: seq<Unit>): seq<Unit>
    requires text != []
  {
    var front := text[..|text| - 1];
    if front != [] && High(front[|front| - 1]) then front[..|front| - 1] else front
  }

  lemma PairGoesTogether(a: seq<Unit>, b: seq<Unit>)
    requires 1 <= |b| <= 2 && (|b| == 2 <==> High(b[0])) && (a != [] ==> !High(a[|a| - 1]))
    ensures WithoutLast(a + b) == a
  {
    var front := (a + b)[..|a + b| - 1];
    if |b| == 1 {
      assert front == a;
    } else {
      assert front == a + [b[0]] && front[..|front| - 1] == a;
    }
  }

  lemma OneCharacterLess(s: string)
    requires s != ""
    ensures Encode(s) != [] && WithoutLast(Encode(s)) == Encode(s[..|s| - 1])
  {
    var shorter := s[..|s| - 1];
    if shorter != "" {
      LastUnit(shorter);
    }
    PairGoesTogether(Encode(shorter), EncodeOne(s[|s| - 1]));
  }

  lemma EmptyText(s: string)
    requires Encode(s) == []
    ensures s == ""
  {
  }

  // Counting down by characters: a pair of units goes together.
  method DropLastCharacters(text: seq<Unit>, count: nat, ghost s: string) returns (r: seq<Unit>)
    requires text == Encode(s)
    ensures r == Encode(DropLast(s, count))
  {
    r := text;
    var left: nat := count;
    assert DropLast(s, 0) == s;
    while left > 0 && r != []
      invariant left <= count && r == Encode(DropLast(s, count - left))
    {
      ghost var kept := DropLast(s, count - left);
      OneCharacterLess(kept);
      r := r[..|r| - 1];
      if r != [] && High(r[|r| - 1]) {
        r := r[..|r| - 1];
      }
      left := left - 1;
      assert kept[..|kept| - 1] == DropLast(s, count - left);
    }
    if left > 0 {
      EmptyText(DropLast(s, count - left));
      assert DropLast(s, count) == DropLast(s, count - left);
    }
  }
}
