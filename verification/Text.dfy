/** Strings of Unicode characters. */
module Text {
  function Concat(parts: seq<string>): string {
    if parts == [] then "" else Concat(parts[..|parts| - 1]) + parts[|parts| - 1]
  }

  // The text without its last count characters.
  function DropLast(s: string, count: nat): string {
    s[..if count <= |s| then |s| - count else 0]
  }

  lemma {:induction false} ConcatAppend(a: seq<string>, b: seq<string>)
    ensures Concat(a + b) == Concat(a) + Concat(b)
  {
    if b == [] {
      assert a + b == a;
    } else {
      var front, last := b[..|b| - 1], b[|b| - 1];
      var both := a + b;
      assert both[..|both| - 1] == a + front && both[|both| - 1] == last;
      ConcatAppend(a, front);
      assert Concat(both) == Concat(a) + Concat(front) + last;
    }
  }

  lemma ConcatSingle(part: string)
    ensures Concat([part]) == part
  {
    assert [part][..0] == [];
  }

  // Adding texts up in another order.
  lemma Regroup3(a: string, b: string, c: string)
    ensures a + b + c == a + (b + c)
  {
  }

  lemma Regroup4(a: string, b: string, c: string, d: string)
    ensures a + b + c + d == a + (b + (c + d)) == a + (b + c + d) == a + (b + c) + d == a + b + (c + d)
  {
  }
}
