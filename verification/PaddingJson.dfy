/**
 The padding column of a training row: the readings and literals of a commit,
 written as JSON and read back by the grammar of RFC 8259.
 Text is code points; its UTF-8 form passes through unchanged.
 */
module PaddingJson {
  import opened Wrappers
  import opened Text
  import opened Documents

  // ---- writing -------------------------------------------------------------------------

  const TONES := " ˊˇˋ˙"

  // The tone a reading ends with, from 1, and the reading without it; a reading
  // without a tone, or nothing but a tone, keeps what it has.
  function RemoveTone(reading: string): (r: (string, nat))
    ensures r.1 <= 5
  {
    if reading == "" then (reading, 0)
    else
      var front, last := reading[..|reading| - 1], reading[|reading| - 1];
      if last !in TONES then (reading, 0)
      else if front == "" then ("", 0)
      else (front, ToneNumber(last))
  }

  function ToneNumber(c: char): (r: nat)
    requires c in TONES
    ensures 1 <= r <= 5 && TONES[r - 1] == c
  {
    if c == TONES[0] then 1 else if c == TONES[1] then 2 else if c == TONES[2] then 3
    else if c == TONES[3] then 4 else 5
  }

  function HexDigit(d: nat): (r: char)
    requires d < 16
    ensures HexValue(r) == Some(d)
  {
    "0123456789abcdef"[d]
  }

  function EscapedChar(c: char): string {
    if c == '"' then "\\\""
    else if c == '\\' then "\\\\"
    else if c == '\U{08}' then "\\b"
    else if c == '\U{0C}' then "\\f"
    else if c == '\n' then "\\n"
    else if c == '\r' then "\\r"
    else if c == '\t' then "\\t"
    else if c < ' ' then "\\u00" + [HexDigit(c as int / 16), HexDigit(c as int % 16)]
    else [c]
  }

  function EscapedText(text: string): string {
    if text == "" then "" else EscapedChar(text[0]) + EscapedText(text[1..])
  }

  function JsonString(text: string): string {
    "\"" + EscapedText(text) + "\""
  }

  function Digit(d: nat): char
    requires d < 10
  {
    "0123456789"[d]
  }

  function Field(name: string, value: string): string {
    "\"" + name + "\":" + value
  }

  function EntryText(e: CommitInputEntry): string {
    var (syllable, tone) := RemoveTone(e.reading);
    if tone != 0 then "{" + Field("syllable", JsonString(syllable)) + "," + (Field("tone", [Digit(tone)]) + "}")
    else if e.reading == "" && e.output != "" then "{" + Field("literal", JsonString(e.output)) + "}"
    else "{" + Field("rawReading", JsonString(e.reading)) + "}"
  }

  // The rest of the array: each entry after a comma.
  function EntriesText(input: seq<CommitInputEntry>): string {
    if input == [] then "]" else "," + EntryText(input[0]) + EntriesText(input[1..])
  }

  function PaddingText(input: seq<CommitInputEntry>): string {
    if input == [] then "[]" else "[" + EntryText(input[0]) + EntriesText(input[1..])
  }

  method AppendJsonString(output: string, value: string) returns (r: string)
    ensures r == output + JsonString(value)
  {
    r := output + "\"";
    var i: nat := 0;
    while i < |value|
      invariant i <= |value| && r + EscapedText(value[i..]) == output + "\"" + EscapedText(value)
    {
      assert value[i..][0] == value[i] && value[i..][1..] == value[i + 1..];
      Regroup3(r, EscapedChar(value[i]), EscapedText(value[i + 1..]));
      r := r + EscapedChar(value[i]);
      i := i + 1;
    }
    assert r == r + EscapedText(value[i..]);
    r := r + "\"";
    Regroup4(output, "\"", EscapedText(value), "\"");
  }

  // The opening of an object up to its first value.
  method AppendField(output: string, name: string, text: string) returns (r: string)
    ensures r == output + ("{" + Field(name, JsonString(text)))
  {
    hide JsonString;
    r := AppendJsonString(output + ("{\"" + name + "\":"), text);
    FieldOpens(output, name, JsonString(text));
  }

  method AppendEntry(output: string, e: CommitInputEntry) returns (r: string)
    ensures r == output + EntryText(e)
  {
    hide JsonString, Digit, Field;
    var (syllable, tone) := RemoveTone(e.reading);
    if tone != 0 {
      r := AppendField(output, "syllable", syllable);
      ToneCloses(output, "{" + Field("syllable", JsonString(syllable)), [Digit(tone)]);
      r := r + ",\"tone\":" + [Digit(tone)] + "}";
    } else if e.reading == "" && e.output != "" {
      r := AppendField(output, "literal", e.output);
      Regroup3(output, "{" + Field("literal", JsonString(e.output)), "}");
      r := r + "}";
    } else {
      r := AppendField(output, "rawReading", e.reading);
      Regroup3(output, "{" + Field("rawReading", JsonString(e.reading)), "}");
      r := r + "}";
    }
  }

  lemma FieldOpens(output: string, name: string, value: string)
    ensures output + ("{\"" + name + "\":") + value == output + ("{" + Field(name, value))
  {
    var opening := "{\"" + name + "\":";
    assert "{" + Field(name, value) == opening + value;
    Regroup3(output, opening, value);
  }

  lemma ToneCloses(output: string, before: string, digit: string)
    ensures output + before + ",\"tone\":" + digit + "}" == output + (before + "," + (Field("tone", digit) + "}"))
  {
    assert ",\"tone\":" + digit + "}" == "," + (Field("tone", digit) + "}");
    Regroup4(output + before, ",\"tone\":", digit, "}");
    Regroup3(output, before, ",\"tone\":" + digit + "}");
    Regroup3(before, ",", Field("tone", digit) + "}");
  }

  lemma EntriesEnd(input: seq<CommitInputEntry>)
    ensures EntriesText(input[|input|..]) == "]"
  {
  }

  lemma EntriesStep(output: string, input: seq<CommitInputEntry>, i: nat)
    requires i < |input|
    ensures output + EntriesText(input[i..]) == output + "," + EntryText(input[i]) + EntriesText(input[i + 1..])
  {
    hide EntryText;
    assert input[i..][0] == input[i] && input[i..][1..] == input[i + 1..];
    Regroup4(output, ",", EntryText(input[i]), EntriesText(input[i + 1..]));
  }

  method SerializePadding(input: seq<CommitInputEntry>) returns (output: string)
    ensures output == PaddingText(input)
  {
    hide EntryText, EntriesText;
    EntriesEnd(input);
    output := "[";
    var first := true;
    var i: nat := 0;
    while i < |input|
      invariant i <= |input| && first == (i == 0)
      invariant if first then output == "[" else output + EntriesText(input[i..]) == PaddingText(input)
    {
      if !first {
        EntriesStep(output, input, i);
        output := output + ",";
      }
      output := AppendEntry(output, input[i]);
      first := false;
      i := i + 1;
    }
    output := output + "]";
  }

  // ---- reading: RFC 8259 -----------------------------------------------------------------

  datatype Json = Str(text: string) | Num(value: nat) | Arr(items: seq<Json>) | Obj(members: seq<(string, Json)>)

  function HexValue(c: char): Option<nat> {
    if '0' <= c <= '9' then Some(c as int - '0' as int)
    else if 'a' <= c <= 'f' then Some(c as int - 'a' as int + 10)
    else if 'A' <= c <= 'F' then Some(c as int - 'A' as int + 10)
    else None
  }

  function Hex(s: string): (r: Option<nat>)
    ensures r.Some? && |s| <= 4 ==> r.value < 0x1_0000
  {
    if s == "" then Some(0)
    else
      var front := Hex(s[..|s| - 1]);
      var last := HexValue(s[|s| - 1]);
      if front.Some? && last.Some? && front.value < 0x1000 then Some(front.value * 16 + last.value) else None
  }

  // What a two-character escape stands for (section 7).
  function Unescaped(c: char): Option<char> {
    if c == '"' || c == '\\' || c == '/' then Some(c)
    else if c == 'b' then Some('\U{08}')
    else if c == 'f' then Some('\U{0C}')
    else if c == 'n' then Some('\n')
    else if c == 'r' then Some('\r')
    else if c == 't' then Some('\t')
    else None
  }

  function Prepend(c: char, r: Option<(string, string)>): Option<(string, string)> {
    if r.None? then None else Some(([c] + r.value.0, r.value.1))
  }

  // The characters of a string up to its closing mark (section 7), and what
  // follows. An escaped surrogate is not read here.
  function Chars(s: string): (r: Option<(string, string)>)
    ensures r.Some? ==> |r.value.1| < |s|
    decreases |s|
  {
    if s == "" || s[0] < ' ' then None
    else if s[0] == '"' then Some(("", s[1..]))
    else if s[0] != '\\' then Prepend(s[0], Chars(s[1..]))
    else if |s| >= 2 && Unescaped(s[1]).Some? then Prepend(Unescaped(s[1]).value, Chars(s[2..]))
    else if |s| >= 6 && s[1] == 'u' then
      var code := Hex(s[2..6]);
      if code.Some? && !(0xD800 <= code.value <= 0xDFFF) then Prepend(code.value as char, Chars(s[6..])) else None
    else None
  }

  // White space between tokens (section 2).
  function Skip(s: string): (r: string)
    ensures |r| <= |s|
  {
    if s != "" && s[0] in " \t\n\r" then Skip(s[1..]) else s
  }

  // The digits of an integer (section 6).
  function Number(s: string, value: nat): (r: (nat, string))
    ensures |r.1| <= |s|
    decreases |s|
  {
    if s != "" && '0' <= s[0] <= '9' then Number(s[1..], value * 10 + (s[0] as int - '0' as int)) else (value, s)
  }

  // A value and what follows it (section 3): a string, a number, an array or an object.
  function Value(s: string): (r: Option<(Json, string)>)
    ensures r.Some? ==> |r.value.1| < |s|
    decreases |s|, 0
  {
    var t := Skip(s);
    if t == "" then None
    else if t[0] == '"' then
      var c := Chars(t[1..]);
      if c.Some? then Some((Str(c.value.0), c.value.1)) else None
    else if t[0] == '0' then Some((Num(0), t[1..]))
    else if '0' <= t[0] <= '9' then
      var n := Number(t, 0);
      if |n.1| < |s| then Some((Num(n.0), n.1)) else None
    else if t[0] == '[' then
      var u := Skip(t[1..]);
      if u != "" && u[0] == ']' then Some((Arr([]), u[1..]))
      else
        var items := Items(t[1..]);
        if items.Some? then Some((Arr(items.value.0), items.value.1)) else None
    else if t[0] == '{' then
      var u := Skip(t[1..]);
      if u != "" && u[0] == '}' then Some((Obj([]), u[1..]))
      else
        var members := Members(t[1..]);
        if members.Some? then Some((Obj(members.value.0), members.value.1)) else None
    else None
  }

  // The rest of an array (section 5).
  function Items(s: string): (r: Option<(seq<Json>, string)>)
    ensures r.Some? ==> |r.value.1| < |s|
    decreases |s|, 1
  {
    var first := Value(s);
    if first.Some? then MoreItems(first.value.0, first.value.1) else None
  }

  function MoreItems(first: Json, s: string): (r: Option<(seq<Json>, string)>)
    ensures r.Some? ==> |r.value.1| < |s|
    decreases |s|, 2
  {
    var t := Skip(s);
    if t == "" then None
    else if t[0] == ']' then Some(([first], t[1..]))
    else if t[0] != ',' then None
    else
      var more := Items(t[1..]);
      if more.Some? then Some(([first] + more.value.0, more.value.1)) else None
  }

  // The rest of an object (section 4).
  function Members(s: string): (r: Option<(seq<(string, Json)>, string)>)
    ensures r.Some? ==> |r.value.1| < |s|
    decreases |s|, 1
  {
    var t := Skip(s);
    if t == "" || t[0] != '"' || Chars(t[1..]).None? then None
    else
      var name := Chars(t[1..]).value;
      var colon := Skip(name.1);
      if colon == "" || colon[0] != ':' || Value(colon[1..]).None? then None
      else MoreMembers((name.0, Value(colon[1..]).value.0), Value(colon[1..]).value.1)
  }

  function MoreMembers(first: (string, Json), s: string): (r: Option<(seq<(string, Json)>, string)>)
    ensures r.Some? ==> |r.value.1| < |s|
    decreases |s|, 2
  {
    var t := Skip(s);
    if t == "" then None
    else if t[0] == '}' then Some(([first], t[1..]))
    else if t[0] != ',' then None
    else
      var more := Members(t[1..]);
      if more.Some? then Some(([first] + more.value.0, more.value.1)) else None
  }

  function Parsed(s: string): Option<Json> {
    var r := Value(s);
    if r.Some? && Skip(r.value.1) == "" then Some(r.value.0) else None
  }

  // What the trainer makes of a syllable and a tone.
  function ReadingWithTone(syllable: string, tone: nat): string {
    if 1 <= tone <= 5 then syllable + [TONES[tone - 1]] else ""
  }

  datatype Origin = Reading(reading: string) | Literal(text: string)

  // The member of that name: a repeated name counts once, for the first.
  function Member(members: seq<(string, Json)>, name: string): Option<Json> {
    if members == [] then None
    else if members[0].0 == name then Some(members[0].1)
    else Member(members[1..], name)
  }

  // What an object of the padding was written for.
  function OriginOf(j: Json): Option<Origin> {
    if !j.Obj? then None
    else
      var syllable, tone := Member(j.members, "syllable"), Member(j.members, "tone");
      var literal, raw := Member(j.members, "literal"), Member(j.members, "rawReading");
      if literal.Some? && literal.value.Str? && syllable.None? && tone.None? then Some(Literal(literal.value.text))
      else if raw.Some? && raw.value.Str? then Some(Reading(raw.value.text))
      else if syllable.Some? && tone.Some? && syllable.value.Str? && tone.value.Num? then
        Some(Reading(ReadingWithTone(syllable.value.text, tone.value.value)))
      else None
  }

  // The reading of an entry, or its literal when the reading is empty.
  function Origins(input: seq<CommitInputEntry>): seq<Option<Origin>> {
    seq(|input|, i requires 0 <= i < |input| =>
      Some(if input[i].reading == "" && input[i].output != "" then Literal(input[i].output) else Reading(input[i].reading)))
  }

  // ---- what was written is what is read --------------------------------------------------

  lemma CharReads(c: char, s: string)
    ensures Chars(EscapedChar(c) + s) == Prepend(c, Chars(s))
  {
    var e := EscapedChar(c);
    var t := e + s;
    assert t[0] == e[0] && t[|e|..] == s;
    if |e| == 6 {
      HexReads(t, c, s);
    }
  }

  lemma HexReads(t: string, c: char, s: string)
    requires c < ' ' && t == "\\u00" + [HexDigit(c as int / 16), HexDigit(c as int % 16)] + s
    ensures Chars(t) == Prepend(c, Chars(s))
  {
    var d, u := [HexDigit(c as int / 16)], [HexDigit(c as int % 16)];
    assert t[2..6] == "00" + d + u && t[6..] == s;
    var digits := "00" + d + u;
    assert digits[..3] == "00" + d && ("00" + d)[..2] == "00" && "00"[..1] == "0" && "0"[..0] == "";
    assert Hex("0") == Some(0);
    assert Hex("00") == Some(0);
    assert Hex("00" + d) == Some(c as int / 16);
    assert Hex(digits) == Some(c as int);
  }

  lemma {:induction false} TextReads(text: string, rest: string)
    ensures Chars(EscapedText(text) + ("\"" + rest)) == Some((text, rest))
  {
    var close := "\"" + rest;
    if text == "" {
      CloseReads(rest);
    } else {
      hide Chars, EscapedChar;
      TextReads(text[1..], rest);
      CharReads(text[0], EscapedText(text[1..]) + close);
      Regroup3(EscapedChar(text[0]), EscapedText(text[1..]), close);
      assert [text[0]] + text[1..] == text;
    }
  }

  lemma CloseReads(rest: string)
    ensures Chars(EscapedText("") + ("\"" + rest)) == Some(("", rest))
  {
    assert EscapedText("") + ("\"" + rest) == "\"" + rest && ("\"" + rest)[1..] == rest;
  }

  // A text that needs no escape.
  lemma {:induction false} PlainText(text: string)
    requires forall i :: 0 <= i < |text| ==> 'A' <= text[i] <= 'z' && text[i] != '\\'
    ensures EscapedText(text) == text
  {
    if text != "" {
      PlainText(text[1..]);
      assert EscapedChar(text[0]) == [text[0]];
    }
  }

  lemma NamesArePlain(name: string)
    requires name == "syllable" || name == "tone" || name == "literal" || name == "rawReading"
    ensures EscapedText(name) == name
  {
    PlainText(name);
  }

  lemma StringReads(text: string, rest: string)
    ensures Value(JsonString(text) + rest) == Some((Str(text), rest))
  {
    var s := JsonString(text) + rest;
    Regroup4("\"", EscapedText(text), "\"", rest);
    assert s[0] == '"' && s[1..] == EscapedText(text) + ("\"" + rest);
    TextReads(text, rest);
  }

  lemma DigitReads(d: nat, rest: string)
    requires 1 <= d < 10 && rest != "" && rest[0] == '}'
    ensures Value([Digit(d)] + rest) == Some((Num(d), rest))
  {
    var s := [Digit(d)] + rest;
    assert s[1..] == rest;
    assert Number(rest, d) == (d, rest);
    assert Number(s, 0) == Number(rest, d);
  }

  // A member of an object, up to what follows its value.
  lemma MemberReads(name: string, value: string, v: Json, after: string)
    requires EscapedText(name) == name && Value(value + after) == Some((v, after))
    ensures Members(Field(name, value) + after) == MoreMembers((name, v), after)
  {
    hide Value, MoreMembers, Field, Chars;
    var s, rest := Field(name, value) + after, ":" + (value + after);
    FieldLaidOut(name, value, after);
    assert s[0] == '"' && s[1..] == name + ("\"" + rest);
    TextReads(name, rest);
    assert rest[1..] == value + after;
  }

  lemma FieldLaidOut(name: string, value: string, after: string)
    ensures Field(name, value) + after == "\"" + (name + ("\"" + (":" + (value + after))))
  {
  }

  lemma ObjectReads(s: string, members: seq<(string, Json)>, rest: string)
    requires s != "" && s[0] == '"' && Members(s) == Some((members, rest))
    ensures Value("{" + s) == Some((Obj(members), rest))
  {
    var t := "{" + s;
    assert t[1..] == s && Skip(s) == s;
  }

  // The object of an entry.
  function EntryJson(e: CommitInputEntry): Json {
    var (syllable, tone) := RemoveTone(e.reading);
    if tone != 0 then Obj([("syllable", Str(syllable)), ("tone", Num(tone))])
    else if e.reading == "" && e.output != "" then Obj([("literal", Str(e.output))])
    else Obj([("rawReading", Str(e.reading))])
  }

  lemma OneFieldReads(name: string, text: string, rest: string)
    requires EscapedText(name) == name
    ensures Value("{" + Field(name, JsonString(text)) + "}" + rest) == Some((Obj([(name, Str(text))]), rest))
  {
    hide Value, Members, JsonString;
    var field, after := Field(name, JsonString(text)), "}" + rest;
    assert after[1..] == rest && Skip(after) == after;
    StringReads(text, after);
    MemberReads(name, JsonString(text), Str(text), after);
    assert (field + after)[0] == '"';
    ObjectReads(field + after, [(name, Str(text))], rest);
    Regroup4("{", field, "}", rest);
  }

  lemma TwoFieldsRead(syllable: string, tone: nat, rest: string)
    requires 1 <= tone < 10
    ensures Value("{" + Field("syllable", JsonString(syllable)) + "," + (Field("tone", [Digit(tone)]) + "}") + rest)
      == Some((Obj([("syllable", Str(syllable)), ("tone", Num(tone))]), rest))
  {
    hide Value, Members, JsonString, Digit, EscapedText;
    NamesArePlain("syllable");
    var last, after := Field("tone", [Digit(tone)]), "}" + rest;
    ToneReads(tone, rest);
    var first, more := Field("syllable", JsonString(syllable)), "," + (last + after);
    assert more[1..] == last + after && Skip(more) == more;
    StringReads(syllable, more);
    MemberReads("syllable", JsonString(syllable), Str(syllable), more);
    assert (first + more)[0] == '"';
    var members := [("syllable", Str(syllable)), ("tone", Num(tone))];
    assert [members[0]] + [members[1]] == members;
    ObjectReads(first + more, members, rest);
    assert "{" + first + "," + (last + "}") + rest == "{" + (first + more) by {
      Regroup3(last, "}", rest);
      Regroup4("{" + first, ",", last + "}", rest);
      Regroup3("{", first, more);
    }
  }

  lemma ToneReads(tone: nat, rest: string)
    requires 1 <= tone < 10
    ensures Members(Field("tone", [Digit(tone)]) + ("}" + rest)) == Some(([("tone", Num(tone))], rest))
  {
    hide Value, Members, Digit, EscapedText;
    NamesArePlain("tone");
    var after := "}" + rest;
    assert after[1..] == rest && Skip(after) == after;
    DigitReads(tone, after);
    MemberReads("tone", [Digit(tone)], Num(tone), after);
  }

  lemma EntryReads(e: CommitInputEntry, rest: string)
    ensures Value(EntryText(e) + rest) == Some((EntryJson(e), rest))
  {
    hide Value, Field, JsonString, Digit, EscapedText;
    NamesArePlain("literal");
    NamesArePlain("rawReading");
    var (syllable, tone) := RemoveTone(e.reading);
    if tone != 0 {
      TwoFieldsRead(syllable, tone, rest);
    } else if e.reading == "" && e.output != "" {
      OneFieldReads("literal", e.output, rest);
    } else {
      OneFieldReads("rawReading", e.reading, rest);
    }
  }

  function EntriesJson(input: seq<CommitInputEntry>): (r: seq<Json>)
    ensures |r| == |input| && forall i :: 0 <= i < |input| ==> r[i] == EntryJson(input[i])
  {
    if input == [] then [] else [EntryJson(input[0])] + EntriesJson(input[1..])
  }

  lemma {:induction false} EntriesRead(input: seq<CommitInputEntry>)
    requires input != []
    ensures Items(EntryText(input[0]) + EntriesText(input[1..])) == Some((EntriesJson(input), ""))
  {
    hide Value, EntryText, EntryJson;
    var tail := input[1..];
    EntryReads(input[0], EntriesText(tail));
    if tail == [] {
      assert EntriesText(tail)[1..] == "" && EntriesJson(input) == [EntryJson(input[0])];
    } else {
      EntriesRead(tail);
      var more := EntryText(tail[0]) + EntriesText(tail[1..]);
      Regroup3(",", EntryText(tail[0]), EntriesText(tail[1..]));
      assert EntriesText(tail)[1..] == more;
    }
    assert Skip(EntriesText(tail)) == EntriesText(tail);
  }

  // Reading the padding gives one object for each entry.
  lemma PaddingReads(input: seq<CommitInputEntry>)
    ensures Parsed(PaddingText(input)) == Some(Arr(EntriesJson(input)))
  {
    if input == [] {
      var s := PaddingText(input);
      assert s[1..] == "]" && "]"[1..] == "";
      assert Value(s) == Some((Arr([]), ""));
    } else {
      hide EntryText, EntriesJson, Items, Value;
      EntriesRead(input);
      EntryOpens(input[0]);
      Regroup3("[", EntryText(input[0]), EntriesText(input[1..]));
      ArrayReads(EntryText(input[0]) + EntriesText(input[1..]), EntriesJson(input), "");
    }
  }

  lemma ArrayReads(s: string, items: seq<Json>, rest: string)
    requires s != "" && s[0] == '{' && Items(s) == Some((items, rest))
    ensures Value("[" + s) == Some((Arr(items), rest))
  {
    var t := "[" + s;
    assert t[1..] == s && Skip(s) == s;
  }

  lemma EntryOpens(e: CommitInputEntry)
    ensures EntryText(e) != "" && EntryText(e)[0] == '{'
  {
  }

  // The trainer's syllable and tone undo the writer's, for every reading that has a tone.
  lemma ToneComesBack(reading: string)
    ensures var (syllable, tone) := RemoveTone(reading);
      tone != 0 ==> ReadingWithTone(syllable, tone) == reading
    ensures RemoveTone(reading).1 != 0 <==> |reading| >= 2 && reading[|reading| - 1] in TONES
  {
    if reading != "" {
      assert reading == reading[..|reading| - 1] + [reading[|reading| - 1]];
    }
  }

  lemma ToneGoesAway(syllable: string, tone: nat)
    requires syllable != "" && 1 <= tone <= 5
    ensures RemoveTone(ReadingWithTone(syllable, tone)) == (syllable, tone)
  {
    var reading := ReadingWithTone(syllable, tone);
    assert reading[..|reading| - 1] == syllable;
    assert TONES == [' ', 'ˊ', 'ˇ', 'ˋ', '˙'];
  }

  lemma OriginComesBack(e: CommitInputEntry)
    ensures OriginOf(EntryJson(e)) == Some(if e.reading == "" && e.output != "" then Literal(e.output) else Reading(e.reading))
  {
    hide Member;
    var (syllable, tone) := RemoveTone(e.reading);
    ToneComesBack(e.reading);
    assert |"syllable"| == 8 && |"tone"| == 4 && |"literal"| == 7 && |"rawReading"| == 10;
    if tone != 0 {
      MemberOfTwo("syllable", Str(syllable), "tone", Num(tone), "literal");
      MemberOfTwo("syllable", Str(syllable), "tone", Num(tone), "rawReading");
    } else {
      var name := if e.reading == "" && e.output != "" then "literal" else "rawReading";
      var text := Str(if e.reading == "" && e.output != "" then e.output else e.reading);
      MemberOfOne(name, text, "syllable");
      MemberOfOne(name, text, "tone");
      MemberOfOne(name, text, "literal");
      MemberOfOne(name, text, "rawReading");
    }
  }

  lemma MemberOfOne(a: string, x: Json, name: string)
    ensures Member([(a, x)], name) == if name == a then Some(x) else None
  {
  }

  lemma MemberOfTwo(a: string, x: Json, b: string, y: Json, name: string)
    requires name != a && name != b && a != b
    ensures Member([(a, x), (b, y)], a) == Some(x) && Member([(a, x), (b, y)], b) == Some(y)
    ensures Member([(a, x), (b, y)], name) == None
  {
    var members := [(a, x), (b, y)];
    assert members[1..] == [(b, y)];
    MemberOfOne(b, y, name);
  }

  // What was written for every entry can be told from the text.
  lemma PaddingRoundTrip(input: seq<CommitInputEntry>)
    ensures var j := Parsed(PaddingText(input));
      && j.Some? && j.value.Arr? && |j.value.items| == |input|
      && forall i :: 0 <= i < |input| ==> OriginOf(j.value.items[i]) == Origins(input)[i]
  {
    hide PaddingText, Parsed, EntryJson, OriginOf;
    PaddingReads(input);
    forall i | 0 <= i < |input| ensures OriginOf(EntriesJson(input)[i]) == Origins(input)[i] {
      OriginComesBack(input[i]);
    }
  }
}
