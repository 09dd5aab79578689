/**
 What custom names do to the readings of a sentence, said without an automaton:
 at every place from the left the longest name that fits, the first in the
 settings when two are as long.
 */
module NameMatching {
  import opened Wrappers

  datatype Setting = Setting(name: string, readings: seq<string>)

  datatype Rule = Rule(characters: string, readings: seq<string>, order: nat)

  datatype Entry = Entry(bopomofo: string, chosen: bool, character: char)

  // A name needs one reading for each character, none of them empty.
  predicate Usable(s: Setting) {
    s.name != "" && |s.name| == |s.readings| && "" !in s.readings
  }

  function RulesOf(settings: seq<Setting>): (r: seq<Rule>)
    ensures forall i :: 0 <= i < |r| ==> |r[i].characters| == |r[i].readings| > 0 && r[i].order < |settings|
    ensures forall i, j :: 0 <= i < j < |r| ==> r[i].order < r[j].order
  {
    if settings == [] then []
    else
      var front, last := RulesOf(settings[..|settings| - 1]), settings[|settings| - 1];
      if Usable(last) then front + [Rule(last.name, last.readings, |settings| - 1)] else front
  }

  // Names fit nowhere the user or the model has chosen already.
  predicate Fits(r: Rule, padding: seq<Entry>, start: nat) {
    ReadAt(padding, r.readings, start)
  }

  predicate ReadAt(padding: seq<Entry>, readings: seq<string>, start: nat) {
    && start + |readings| <= |padding|
    && forall j :: 0 <= j < |readings| ==> IsRead(padding[start + j], readings[j])
  }

  predicate IsRead(e: Entry, reading: string) {
    !e.chosen && e.bopomofo == reading
  }

  predicate Better(a: Rule, b: Rule) {
    |a.characters| > |b.characters| || (|a.characters| == |b.characters| && a.order < b.order)
  }

  // The best of the rules that fit.
  function Best(rules: seq<Rule>, padding: seq<Entry>, start: nat): (r: Option<nat>)
    ensures r.Some? ==> r.value < |rules| && Fits(rules[r.value], padding, start)
    ensures r.None? ==> forall i :: 0 <= i < |rules| ==> !Fits(rules[i], padding, start)
  {
    if rules == [] then None
    else
      var front, last := Best(rules[..|rules| - 1], padding, start), |rules| - 1;
      if !Fits(rules[last], padding, start) then front
      else if front.None? || Better(rules[last], rules[front.value]) then Some(last)
      else front
  }

  function Replaced(padding: seq<Entry>, start: nat, characters: string): (r: seq<Entry>)
    requires start + |characters| <= |padding|
    ensures |r| == |padding|
  {
    seq(|padding|, i requires 0 <= i < |padding| =>
      if start <= i < start + |characters| then padding[i].(chosen := true, character := characters[i - start]) else padding[i])
  }

  predicate Proper(rules: seq<Rule>) {
    && (forall i :: 0 <= i < |rules| ==> |rules[i].characters| == |rules[i].readings| > 0)
    && forall i, j :: 0 <= i < j < |rules| ==> rules[i].order < rules[j].order
  }

  // The sentence with every name from start on put in.
  function Named(rules: seq<Rule>, padding: seq<Entry>, start: nat): (r: seq<Entry>)
    requires Proper(rules)
    ensures |r| == |padding|
    decreases |padding| - start
  {
    if start >= |padding| then padding
    else
      var best := Best(rules, padding, start);
      if best.None? then Named(rules, padding, start + 1)
      else Named(rules, Replaced(padding, start, rules[best.value].characters), start + |rules[best.value].characters|)
  }

  // ---- a second time ---------------------------------------------------------------------

  // What is behind start changes only by being chosen.
  predicate Chosen(a: seq<Entry>, b: seq<Entry>, start: nat) {
    && |a| == |b|
    && (forall i :: 0 <= i < |a| && i < start ==> b[i] == a[i])
    && forall i :: 0 <= i < |a| ==> b[i].bopomofo == a[i].bopomofo && (b[i] == a[i] || b[i].chosen)
  }

  lemma {:induction false} NamedChooses(rules: seq<Rule>, padding: seq<Entry>, start: nat)
    requires Proper(rules)
    ensures Chosen(padding, Named(rules, padding, start), start)
    decreases |padding| - start
  {
    if start < |padding| {
      var best := Best(rules, padding, start);
      if best.None? {
        NamedChooses(rules, padding, start + 1);
      } else {
        var next := Replaced(padding, start, rules[best.value].characters);
        NamedChooses(rules, next, start + |rules[best.value].characters|);
      }
    }
  }

  // A rule that fits afterwards fitted before.
  lemma FitsBefore(r: Rule, a: seq<Entry>, b: seq<Entry>, from: nat, start: nat)
    requires Chosen(a, b, from) && Fits(r, b, start)
    ensures Fits(r, a, start)
  {
    forall j | 0 <= j < |r.readings| ensures IsRead(a[start + j], r.readings[j]) {
      assert IsRead(b[start + j], r.readings[j]);
    }
  }

  lemma ChosenDoesNotFit(r: Rule, padding: seq<Entry>, at: nat)
    requires |r.readings| > 0 && at < |padding| && padding[at].chosen
    ensures !Fits(r, padding, at)
  {
    assert !IsRead(padding[at + 0], r.readings[0]);
  }

  // Inside a name just put in nothing fits.
  lemma InsideName(rules: seq<Rule>, padding: seq<Entry>, start: nat, characters: string, at: nat)
    requires Proper(rules) && start + |characters| <= |padding| && start <= at < start + |characters|
    ensures Named(rules, Replaced(padding, start, characters), start + |characters|)[at].chosen
  {
    NamedChooses(rules, Replaced(padding, start, characters), start + |characters|);
  }

  lemma NoneFits(rules: seq<Rule>, padding: seq<Entry>, start: nat, i: nat)
    requires Proper(rules) && i < |rules| && Best(rules, padding, start).None?
    ensures !Fits(rules[i], Named(rules, padding, start), start)
  {
    var named := Named(rules, padding, start);
    NamedChooses(rules, padding, start);
    if Fits(rules[i], named, start) {
      FitsBefore(rules[i], padding, named, start, start);
    }
  }

  // No rule fits anywhere from start on once the names are put in.
  lemma {:induction false} NothingLeft(rules: seq<Rule>, padding: seq<Entry>, start: nat, i: nat, at: nat)
    requires Proper(rules) && i < |rules| && start <= at
    ensures !Fits(rules[i], Named(rules, padding, start), at)
    decreases |padding| - start
  {
    if start < |padding| {
      var best := Best(rules, padding, start);
      if best.Some? {
        NothingLeftOfName(rules, padding, start, i, at, rules[best.value].characters);
      } else if at == start {
        NoneFits(rules, padding, start, i);
      } else {
        NothingLeft(rules, padding, start + 1, i, at);
      }
    }
  }

  lemma {:induction false} NothingLeftOfName(rules: seq<Rule>, padding: seq<Entry>, start: nat, i: nat, at: nat, characters: string)
    requires Proper(rules) && i < |rules| && start <= at && start + |characters| <= |padding| && characters != ""
    ensures !Fits(rules[i], Named(rules, Replaced(padding, start, characters), start + |characters|), at)
    decreases |padding| - start, 0
  {
    var next := Replaced(padding, start, characters);
    if at >= start + |characters| {
      NothingLeft(rules, next, start + |characters|, i, at);
    } else {
      InsideName(rules, padding, start, characters, at);
      ChosenDoesNotFit(rules[i], Named(rules, next, start + |characters|), at);
    }
  }

  lemma {:induction false} NothingToDo(rules: seq<Rule>, padding: seq<Entry>, start: nat)
    requires Proper(rules) && forall i, at: nat :: 0 <= i < |rules| && start <= at ==> !Fits(rules[i], padding, at)
    ensures Named(rules, padding, start) == padding
    decreases |padding| - start
  {
    if start < |padding| {
      NothingToDo(rules, padding, start + 1);
    }
  }

  // Putting the names in twice changes nothing more.
  lemma NamingTwice(rules: seq<Rule>, padding: seq<Entry>)
    requires Proper(rules)
    ensures Named(rules, Named(rules, padding, 0), 0) == Named(rules, padding, 0)
  {
    var named := Named(rules, padding, 0);
    forall i, at: nat | 0 <= i < |rules| && 0 <= at ensures !Fits(rules[i], named, at) {
      NothingLeft(rules, padding, 0, i, at);
    }
    NothingToDo(rules, named, 0);
  }

  // ---- the best is the longest, then the first ------------------------------------------------

  lemma {:induction false} BestIsBest(rules: seq<Rule>, padding: seq<Entry>, start: nat, i: nat)
    requires Proper(rules) && i < |rules| && Fits(rules[i], padding, start)
    ensures var best := Best(rules, padding, start);
            best.Some? && (best.value == i || Better(rules[best.value], rules[i]))
  {
    var last := |rules| - 1;
    if i < last {
      BestIsBest(rules[..last], padding, start, i);
    }
  }

  // Nothing else is as good.
  lemma OneIsBest(rules: seq<Rule>, padding: seq<Entry>, start: nat, i: nat)
    requires Proper(rules) && i < |rules| && Fits(rules[i], padding, start)
    requires forall j :: 0 <= j < |rules| && j != i && Fits(rules[j], padding, start) ==> Better(rules[i], rules[j])
    ensures Best(rules, padding, start) == Some(i)
  {
    BestIsBest(rules, padding, start, i);
  }
}
