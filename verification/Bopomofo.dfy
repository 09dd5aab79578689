/**
 One syllable or literal of a composition (BopomofoPos).

 Text is a string of Unicode characters. The character table is a parameter:
 any map from readings to non-empty lists of characters.
 */
module Bopomofo {
  import opened Wrappers

  type Table = t: map<string, seq<char>> | forall k <- t :: t[k] != [] witness map[]

  const INITIALS := "ㄅㄆㄇㄈㄉㄊㄋㄌㄍㄎㄏㄐㄑㄒㄓㄔㄕㄖㄗㄘㄙ"
  const MEDIALS := "ㄧㄨㄩ"
  const FINALS := "ㄚㄛㄜㄝㄞㄟㄠㄡㄢㄣㄤㄥㄦ"
  const TONES := " ˊˇˋ˙"

  function Symbol(o: Option<char>): string {
    if o.Some? then [o.value] else ""
  }

  datatype Entry = Entry(
    initial: Option<char>, medial: Option<char>, final: Option<char>, tone: Option<char>,
    chooseIndex: int, chosen: bool, predicted: bool, conversionPending: bool,
    manuallySelected: bool, compositable: bool, invalid: bool, modelConverted: bool,
    id: nat, version: nat, convertedBy: nat, candidates: seq<char>)
  {
    // What every operation keeps: the candidate shown exists, and only a
    // completed syllable waits for a conversion or is fixed.
    predicate Wf() {
      && (if compositable then 0 <= chooseIndex < |candidates| else chooseIndex == 0)
      && (conversionPending || chosen ==> compositable) && !(conversionPending && chosen)
    }

    function Toneless(): string {
      Symbol(initial) + Symbol(medial) + Symbol(final)
    }

    function Reading(): string {
      Toneless() + Symbol(tone)
    }

    // Nothing for an index out of range, where the source throws; Wf excludes it.
    function Current(): string {
      if !compositable then Reading()
      else if 0 <= chooseIndex < |candidates| then [candidates[chooseIndex]]
      else ""
    }

    function Display(immediate: bool): string {
      if !immediate && conversionPending && !chosen then Toneless() else Current()
    }

    predicate IsNull() {
      initial.None? && medial.None? && final.None? && tone.None?
    }

    predicate Trusted() {
      chosen || modelConverted
    }

    function SingleReadingLiteral(): Option<char> {
      var reading := Toneless();
      if reading == "" && tone.Some? && tone != Some(' ') then tone
      else if tone == Some(' ') && |reading| == 1 then Some(reading[0])
      else None
    }

    function MultiReadingLiteral(): Option<string> {
      var reading := Toneless();
      if tone.None? || |reading| < 2 then None
      else if tone == Some(' ') then Some(reading)
      else Some(reading + [tone.value])
    }

    function SetChosenCandidate(c: char): Entry {
      this.(initial := None, medial := None, final := None, tone := None,
            chooseIndex := 0, chosen := true, predicted := true, conversionPending := false,
            manuallySelected := false, compositable := true, invalid := false,
            modelConverted := false, candidates := [c])
    }

    // None: the symbol does not belong to this entry any more.
    function Accept(c: char, table: Table): (r: Option<Entry>)
      ensures r.None? <==> compositable || invalid
      ensures r.Some? ==> r.value.id == id && r.value.version == version && r.value.convertedBy == convertedBy
      ensures r.Some? && Wf() ==> r.value.Wf()
    {
      if compositable || invalid then None
      else if c in INITIALS then Some(this.(initial := Some(c)))
      else if c in MEDIALS then Some(this.(medial := Some(c)))
      else if c in FINALS then Some(this.(final := Some(c)))
      else if c in TONES then Some(AcceptTone(c, table))
      else Some(this)
    }

    function AcceptTone(c: char, table: Table): (r: Entry)
      requires !compositable
      ensures r.id == id && r.version == version && r.convertedBy == convertedBy && (Wf() ==> r.Wf())
    {
      var toned := this.(tone := Some(c));
      var reading := toned.Reading();
      var literal := toned.SingleReadingLiteral();
      if literal.Some? && (reading in table ==> forall candidate <- table[reading] :: candidate == literal.value) then
        toned.SetChosenCandidate(literal.value)
      else if reading !in table then toned.(invalid := true)
      else toned.(compositable := true, candidates := table[reading], conversionPending := true)
    }

    // The candidates as listed to the user.
    function GetCandidates(): seq<char> {
      var literal := SingleReadingLiteral();
      if literal.None? then candidates
      else
        var others := Without(candidates, literal.value);
        var offset := if |others| < 8 then |others| else 8;
        others[..offset] + [literal.value] + others[offset..]
    }

    function GetCandidateTexts(): seq<string> {
      var shown := GetCandidates();
      var texts := seq(|shown|, i requires 0 <= i < |shown| => [shown[i]]);
      var literal := MultiReadingLiteral();
      if literal.Some? then texts + [literal.value] else texts
    }

    function ChooseCandidate(c: char): Entry
      requires compositable
    {
      var position := Find(candidates, c);
      var picked := if position < |candidates|
                    then this.(chooseIndex := position)
                    else this.(candidates := [c] + candidates, chooseIndex := 0);
      picked.(chosen := true, predicted := true, conversionPending := false)
    }

    function SetChooseIndex(i: nat): Entry
      requires compositable && i < |GetCandidates()|
    {
      var selected := GetCandidates()[i];
      var picked := if SingleReadingLiteral() == Some(selected)
                    then SetChosenCandidate(selected)
                    else ChooseCandidate(selected);
      picked.(manuallySelected := true)
    }

    // Some: the last symbol is gone. None: there was none.
    function PopLast(): (r: Option<Entry>)
      ensures r.Some? ==> r.value.id == id && r.value.version == version && !r.value.compositable
      ensures r.Some? && Wf() && !compositable ==> r.value.Wf()
    {
      var bare := this.(compositable := false, invalid := false, chosen := false, predicted := false,
                        conversionPending := false, manuallySelected := false,
                        modelConverted := false, convertedBy := 0, candidates := []);
      if tone.Some? then Some(bare.(tone := None))
      else if final.Some? then Some(bare.(final := None))
      else if medial.Some? then Some(bare.(medial := None))
      else if initial.Some? then Some(bare.(initial := None))
      else None
    }
  }

  function FreshEntry(id: nat): Entry {
    Entry(None, None, None, None, 0, false, false, false, false, false, false, false, id, 0, 0, [])
  }

  function Without(s: seq<char>, c: char): (r: seq<char>)
    ensures c !in r && |r| <= |s|
  {
    if s == [] then []
    else if s[0] == c then Without(s[1..], c)
    else [s[0]] + Without(s[1..], c)
  }

  function Find(s: seq<char>, c: char): (i: nat)
    ensures i <= |s| && c !in s[..i]
    ensures i < |s| ==> s[i] == c
  {
    if s == [] then 0 else if s[0] == c then 0 else 1 + Find(s[1..], c)
  }

  lemma ChooseCandidateShows(e: Entry, c: char)
    requires e.compositable
    ensures var r := e.ChooseCandidate(c);
            r.Current() == [c] && r.Wf() && r.chosen && r.compositable && r.id == e.id
  {
  }

  lemma SetChosenShows(e: Entry, c: char)
    ensures var r := e.SetChosenCandidate(c);
            r.Current() == [c] && r.Wf() && r.chosen && r.compositable && r.id == e.id
  {
  }

  // Choosing what is listed at index i makes the entry show exactly that.
  lemma ChoiceShows(e: Entry, i: nat)
    requires e.compositable && i < |e.GetCandidates()|
    ensures var r := e.SetChooseIndex(i);
            r.Current() == [e.GetCandidates()[i]] && r.Wf() && r.chosen && r.manuallySelected && r.id == e.id
  {
    var selected := e.GetCandidates()[i];
    ChooseCandidateShows(e, selected);
    SetChosenShows(e, selected);
  }
}
