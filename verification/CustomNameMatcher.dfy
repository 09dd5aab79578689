/** Putting custom names into a sentence in one pass over the automaton and one over the matches. */
module CustomNameMatchers {
  import opened Wrappers
  import opened NameMatching
  import opened AhoCorasick
  import opened NameAutomata
  import opened NameLinks

  // The automaton of the settings; each name has its word.
  predicate Compiled(a: Automaton, settings: seq<Setting>, words: seq<Word>, names: seq<Word>, count: nat) {
    && a.rules == RulesOf(settings) && Numbered(a.tokens, count) && NamesSpelled(a.tokens, a.rules, names)
    && AllLinked(a.nodes, words, names) && OnlyPrefixes(words, names, [])
  }

  // ---- the text read so far ------------------------------------------------------------

  // The numbers of the readings before e, back to the last one that is chosen or in no name.
  function Since(tokens: map<string, nat>, padding: seq<Entry>, e: nat): (r: Word)
    requires e <= |padding|
    ensures |r| <= e
  {
    if e == 0 || padding[e - 1].chosen || padding[e - 1].bopomofo !in tokens then []
    else Since(tokens, padding, e - 1) + [tokens[padding[e - 1].bopomofo]]
  }

  predicate EndsWith(padding: seq<Entry>, readings: seq<string>, e: nat)
    requires e <= |padding|
  {
    |readings| <= e && ReadAt(padding, readings, e - |readings|)
  }

  // The last reading, and those before it.
  lemma ReadAtSnoc(padding: seq<Entry>, readings: seq<string>, start: nat)
    requires readings != []
    ensures var last := |readings| - 1;
            ReadAt(padding, readings, start) <==>
              start + last < |padding| && IsRead(padding[start + last], readings[last]) && ReadAt(padding, readings[..last], start)
  {
    var last := |readings| - 1;
    var front := readings[..last];
    if start + last < |padding| && IsRead(padding[start + last], readings[last]) && ReadAt(padding, front, start) {
      forall j | 0 <= j < |readings| ensures IsRead(padding[start + j], readings[j]) {
        assert j < last ==> front[j] == readings[j];
      }
    }
    if ReadAt(padding, readings, start) {
      forall j | 0 <= j < |front| ensures IsRead(padding[start + j], front[j]) {
        assert front[j] == readings[j];
      }
      assert IsRead(padding[start + last], readings[last]);
    }
  }

  // A name ends before e exactly when its word is a suffix of the text.
  lemma {:induction false} NameEnds(tokens: map<string, nat>, count: nat, padding: seq<Entry>, readings: seq<string>, word: Word, e: nat)
    requires Numbered(tokens, count) && Spells(tokens, readings, word) && e <= |padding|
    ensures Suffix(word, Since(tokens, padding, e)) <==> EndsWith(padding, readings, e)
    decreases |word|
  {
    if word != [] {
      var k := |word|;
      if k <= e {
        ReadAtSnoc(padding, readings, e - k);
      }
      assert Spells(tokens, readings[..k - 1], word[..k - 1]);
      if e > 0 && !padding[e - 1].chosen && padding[e - 1].bopomofo in tokens {
        NameEnds(tokens, count, padding, readings[..k - 1], word[..k - 1], e - 1);
        SuffixSnoc(word, Since(tokens, padding, e - 1), tokens[padding[e - 1].bopomofo]);
        assert readings[k - 1] in tokens && tokens[readings[k - 1]] == word[k - 1];
      }
    }
  }

  lemma EndsIsFits(padding: seq<Entry>, r: Rule, e: nat)
    requires e <= |padding|
    ensures EndsWith(padding, r.readings, e) <==> |r.readings| <= e && Fits(r, padding, e - |r.readings|)
  {
  }

  // The outputs of the state are the names that end here.
  lemma OutputsEnd(a: Automaton, settings: seq<Setting>, words: seq<Word>, names: seq<Word>, count: nat, padding: seq<Entry>, e: nat,
                   state: nat, r: nat)
    requires Compiled(a, settings, words, names, count) && e <= |padding| && state < |a.nodes| && r < |a.rules|
    requires Longest(words, Since(a.tokens, padding, e), state)
    ensures r in a.nodes[state].outputs <==> |a.rules[r].readings| <= e && Fits(a.rules[r], padding, e - |a.rules[r].readings|)
  {
    assert NodeLinked(a.nodes, words, names, state);
    assert Spells(a.tokens, a.rules[r].readings, names[r]);
    OutputsOfText(a.nodes, words, names, Since(a.tokens, padding, e), state, r);
    NameEnds(a.tokens, count, padding, a.rules[r].readings, names[r], e);
    EndsIsFits(padding, a.rules[r], e);
  }

  // ---- the best match so far ---------------------------------------------------------------

  // The rules looked at for a start: those that end before, and those done of the ones that end at e.
  predicate LookedAt(rules: seq<Rule>, start: nat, e: nat, done: seq<nat>, r: nat)
    requires r < |rules|
  {
    start + |rules[r].readings| < e || (start + |rules[r].readings| == e && r in done)
  }

  predicate BestOf(rules: seq<Rule>, padding: seq<Entry>, best: Option<nat>, start: nat, e: nat, done: seq<nat>) {
    match best
    case None => forall r :: 0 <= r < |rules| && LookedAt(rules, start, e, done, r) ==> !Fits(rules[r], padding, start)
    case Some(b) =>
      && b < |rules| && LookedAt(rules, start, e, done, b) && Fits(rules[b], padding, start)
      && forall r :: 0 <= r < |rules| && LookedAt(rules, start, e, done, r) && Fits(rules[r], padding, start) ==>
           r == b || Better(rules[b], rules[r])
  }

  lemma BetterOrNot(rules: seq<Rule>, a: nat, b: nat)
    requires Proper(rules) && a < |rules| && b < |rules| && a != b
    ensures Better(rules[a], rules[b]) <==> !Better(rules[b], rules[a])
  {
  }

  // One more rule that ends at e.
  lemma OneMoreLookedAt(rules: seq<Rule>, padding: seq<Entry>, best: Option<nat>, start: nat, e: nat, done: seq<nat>, x: nat)
    requires Proper(rules) && x < |rules| && BestOf(rules, padding, best, start, e, done)
    ensures var here := start + |rules[x].readings| == e;
            && (!here ==> BestOf(rules, padding, best, start, e, done + [x]))
            && (here && Fits(rules[x], padding, start) ==>
                  var after := if best.None? || Better(rules[x], rules[best.value]) then Some(x) else best;
                  BestOf(rules, padding, after, start, e, done + [x]))
  {
    forall r | 0 <= r < |rules|
      ensures LookedAt(rules, start, e, done + [x], r) <==>
              LookedAt(rules, start, e, done, r) || (r == x && start + |rules[x].readings| == e)
    {
    }
    if best.Some? && best.value != x {
      BetterOrNot(rules, x, best.value);
    }
  }

  // All that end at e are done: the next position is reached.
  lemma NextPosition(rules: seq<Rule>, padding: seq<Entry>, best: Option<nat>, start: nat, e: nat, done: seq<nat>)
    requires BestOf(rules, padding, best, start, e, done)
    requires forall r :: 0 <= r < |rules| && start + |rules[r].readings| == e && Fits(rules[r], padding, start) ==> r in done
    ensures BestOf(rules, padding, best, start, e + 1, [])
  {
    forall r | 0 <= r < |rules| && Fits(rules[r], padding, start)
      ensures LookedAt(rules, start, e + 1, [], r) <==> LookedAt(rules, start, e, done, r)
    {
    }
  }

  // At the end it is the best there is.
  lemma AtTheEnd(rules: seq<Rule>, padding: seq<Entry>, best: Option<nat>, start: nat)
    requires Proper(rules) && BestOf(rules, padding, best, start, |padding| + 1, [])
    ensures best == Best(rules, padding, start)
  {
    forall r | 0 <= r < |rules| && Fits(rules[r], padding, start) ensures LookedAt(rules, start, |padding| + 1, [], r) {
    }
    if best.Some? {
      OneIsBest(rules, padding, start, best.value);
    }
  }

  lemma NobodyLookedAt(rules: seq<Rule>, padding: seq<Entry>, start: nat)
    requires Proper(rules)
    ensures BestOf(rules, padding, None, start, 1, [])
  {
  }

  // A name ending at e fits where it starts: then it is an output.
  lemma EndingIsOutput(a: Automaton, settings: seq<Setting>, words: seq<Word>, names: seq<Word>, count: nat, padding: seq<Entry>, e: nat,
                       state: nat, start: nat)
    requires Compiled(a, settings, words, names, count) && e <= |padding| && state < |a.nodes|
    requires Longest(words, Since(a.tokens, padding, e), state)
    ensures forall r :: 0 <= r < |a.rules| && start + |a.rules[r].readings| == e && Fits(a.rules[r], padding, start) ==>
              r in a.nodes[state].outputs
  {
    forall r | 0 <= r < |a.rules| && start + |a.rules[r].readings| == e && Fits(a.rules[r], padding, start)
      ensures r in a.nodes[state].outputs
    {
      OutputsEnd(a, settings, words, names, count, padding, e, state, r);
    }
  }

  lemma RootIsLongest(words: seq<Word>)
    requires words != [] && words[0] == []
    ensures Longest(words, [], 0)
  {
  }

  // A state the sentence has broken off in has no outputs.
  lemma NothingAtRoot(a: Automaton, settings: seq<Setting>, words: seq<Word>, names: seq<Word>, count: nat)
    requires Compiled(a, settings, words, names, count)
    ensures a.nodes[0].outputs == []
  {
    assert NodeLinked(a.nodes, words, names, 0);
    var outputs := a.nodes[0].outputs;
    forall k | 0 <= k < |outputs| ensures outputs[k] < |names| && names[outputs[k]] == [] {
      assert outputs[k] in outputs;
    }
    EmptyNames(names, outputs);
  }

  lemma EmptyNames(names: seq<Word>, outputs: seq<nat>)
    requires (forall r :: 0 <= r < |names| ==> names[r] != [])
    requires forall k :: 0 <= k < |outputs| ==> outputs[k] < |names| && names[outputs[k]] == []
    ensures outputs == []
  {
    var r := if outputs == [] then 0 else outputs[0];
    assert r < |names| ==> names[r] != [];
  }

  // ---- one pass over the automaton -----------------------------------------------------------

  method Advance(a: Automaton, start: nat, t: nat, ghost words: seq<Word>) returns (state: nat)
    requires Trie(a.nodes, words) && start < |a.nodes| && FailuresTo(a.nodes, words, |words[start]|)
    ensures state == Goto(a.nodes, words, start, t)
  {
    state := start;
    while state != 0 && t !in a.nodes[state].next
      invariant state < |a.nodes| && FailuresTo(a.nodes, words, |words[state]|)
      invariant Goto(a.nodes, words, state, t) == Goto(a.nodes, words, start, t)
      decreases |words[state]|
    {
      assert Failure(a.nodes, words, state);
      state := a.nodes[state].failure;
    }
    state := if t in a.nodes[state].next then a.nodes[state].next[t] else 0;
  }

  // The state after one more entry.
  method Read(a: Automaton, entry: Entry, start: nat, ghost words: seq<Word>, ghost names: seq<Word>, ghost padding: seq<Entry>, ghost e: nat)
    returns (state: nat)
    requires AllLinked(a.nodes, words, names) && e < |padding| && padding[e] == entry && start < |a.nodes|
    requires Longest(words, Since(a.tokens, padding, e), start)
    ensures state < |a.nodes| && Longest(words, Since(a.tokens, padding, e + 1), state)
  {
    RootIsLongest(words);
    if entry.chosen {
      return 0;
    }
    if entry.bopomofo !in a.tokens {
      return 0;
    }
    forall v | 0 < v < |a.nodes| ensures Failure(a.nodes, words, v) {
      assert NodeLinked(a.nodes, words, names, v);
    }
    state := Advance(a, start, a.tokens[entry.bopomofo], words);
    GotoLongest(a.nodes, words, Since(a.tokens, padding, e), start, a.tokens[entry.bopomofo]);
  }

  predicate AllBest(rules: seq<Rule>, padding: seq<Entry>, best: seq<Option<nat>>, e: nat, done: seq<nat>) {
    forall s :: 0 <= s < |best| ==> BestOf(rules, padding, best[s], s, e, done)
  }

  // One name that ends here is kept for its start if it is better.
  method Offer(a: Automaton, rule: nat, index: nat, best: array<Option<nat>>, ghost padding: seq<Entry>, ghost done: seq<nat>)
    requires Proper(a.rules) && rule < |a.rules| && |a.rules[rule].readings| <= index + 1 && index < best.Length == |padding|
    requires Fits(a.rules[rule], padding, index + 1 - |a.rules[rule].readings|)
    requires AllBest(a.rules, padding, best[..], index + 1, done)
    modifies best
    ensures AllBest(a.rules, padding, best[..], index + 1, done + [rule])
  {
    ghost var was := best[..];
    var start := index + 1 - |a.rules[rule].characters|;
    forall s | 0 <= s < best.Length ensures BestOf(a.rules, padding, was[s], s, index + 1, done) {
    }
    forall s | 0 <= s < best.Length
      ensures s != start ==> BestOf(a.rules, padding, was[s], s, index + 1, done + [rule])
      ensures s == start ==>
                BestOf(a.rules, padding, if was[s].None? || Better(a.rules[rule], a.rules[was[s].value]) then Some(rule) else was[s],
                       s, index + 1, done + [rule])
    {
      OneMoreLookedAt(a.rules, padding, was[s], s, index + 1, done, rule);
    }
    var current := best[start];
    if current.None? {
      best[start] := Some(rule);
    } else if |a.rules[rule].characters| > |a.rules[current.value].characters|
        || (|a.rules[rule].characters| == |a.rules[current.value].characters| && a.rules[rule].order < a.rules[current.value].order) {
      best[start] := Some(rule);
    }
  }

  // The rules fit, and end right before e.
  predicate EndHere(rules: seq<Rule>, padding: seq<Entry>, e: nat, outputs: seq<nat>) {
    forall r <- outputs :: r < |rules| && |rules[r].readings| <= e && Fits(rules[r], padding, e - |rules[r].readings|)
  }

  method OfferAll(a: Automaton, state: nat, index: nat, best: array<Option<nat>>, ghost padding: seq<Entry>)
    requires Proper(a.rules) && state < |a.nodes| && index < best.Length == |padding|
    requires EndHere(a.rules, padding, index + 1, a.nodes[state].outputs)
    requires AllBest(a.rules, padding, best[..], index + 1, [])
    modifies best
    ensures AllBest(a.rules, padding, best[..], index + 1, a.nodes[state].outputs)
  {
    var outputs := a.nodes[state].outputs;
    for k := 0 to |outputs|
      invariant AllBest(a.rules, padding, best[..], index + 1, outputs[..k])
    {
      assert outputs[k] in a.nodes[state].outputs;
      Offer(a, outputs[k], index, best, padding, outputs[..k]);
      assert outputs[..k + 1] == outputs[..k] + [outputs[k]];
    }
    assert outputs[..|outputs|] == outputs;
  }

  // What the outputs of the state say of the sentence read up to e.
  lemma OutputsFit(a: Automaton, settings: seq<Setting>, words: seq<Word>, names: seq<Word>, count: nat, padding: seq<Entry>, e: nat, state: nat)
    requires Compiled(a, settings, words, names, count) && e <= |padding| && state < |a.nodes|
    requires Longest(words, Since(a.tokens, padding, e), state)
    ensures EndHere(a.rules, padding, e, a.nodes[state].outputs)
  {
    assert NodeLinked(a.nodes, words, names, state);
    forall r <- a.nodes[state].outputs
      ensures r < |a.rules| && |a.rules[r].readings| <= e && Fits(a.rules[r], padding, e - |a.rules[r].readings|)
    {
      OutputsEnd(a, settings, words, names, count, padding, e, state, r);
    }
  }

  // With all outputs offered the next position is reached.
  lemma AllOffered(a: Automaton, settings: seq<Setting>, words: seq<Word>, names: seq<Word>, count: nat, padding: seq<Entry>, e: nat, state: nat,
                   best: seq<Option<nat>>)
    requires Compiled(a, settings, words, names, count) && e <= |padding| && state < |a.nodes|
    requires Longest(words, Since(a.tokens, padding, e), state) && AllBest(a.rules, padding, best, e, a.nodes[state].outputs)
    ensures AllBest(a.rules, padding, best, e + 1, [])
  {
    forall s | 0 <= s < |best| ensures BestOf(a.rules, padding, best[s], s, e + 1, []) {
      EndingIsOutput(a, settings, words, names, count, padding, e, state, s);
      NextPosition(a.rules, padding, best[s], s, e, a.nodes[state].outputs);
    }
  }

  // The sentence is read up to e; every start has its best name of those that end by then.
  predicate ScannedTo(a: Automaton, words: seq<Word>, padding: seq<Entry>, best: seq<Option<nat>>, state: nat, e: nat) {
    && e <= |padding| && state < |a.nodes| && Longest(words, Since(a.tokens, padding, e), state)
    && AllBest(a.rules, padding, best, e + 1, [])
  }

  // The sentence breaks off.
  lemma BrokenOff(a: Automaton, settings: seq<Setting>, words: seq<Word>, names: seq<Word>, count: nat, padding: seq<Entry>,
                  best: seq<Option<nat>>, state: nat, e: nat)
    requires Compiled(a, settings, words, names, count) && ScannedTo(a, words, padding, best, state, e) && e < |padding|
    requires padding[e].chosen || padding[e].bopomofo !in a.tokens
    ensures ScannedTo(a, words, padding, best, 0, e + 1)
  {
    RootIsLongest(words);
    NothingAtRoot(a, settings, words, names, count);
    AllOffered(a, settings, words, names, count, padding, e + 1, 0, best);
  }

  // All names that end where the sentence is read to are offered.
  method OfferState(a: Automaton, state: nat, index: nat, best: array<Option<nat>>, ghost padding: seq<Entry>,
                    ghost settings: seq<Setting>, ghost words: seq<Word>, ghost names: seq<Word>, ghost count: nat)
    requires Compiled(a, settings, words, names, count) && state < |a.nodes| && index < best.Length == |padding|
    requires Longest(words, Since(a.tokens, padding, index + 1), state) && AllBest(a.rules, padding, best[..], index + 1, [])
    modifies best
    ensures ScannedTo(a, words, padding, best[..], state, index + 1)
  {
    OutputsFit(a, settings, words, names, count, padding, index + 1, state);
    OfferAll(a, state, index, best, padding);
    AllOffered(a, settings, words, names, count, padding, index + 1, state, best[..]);
  }

  // One more entry: the sentence goes on in the automaton or breaks off.
  method ScanOne(a: Automaton, entry: Entry, state0: nat, index: nat, best: array<Option<nat>>, ghost padding: seq<Entry>,
                 ghost settings: seq<Setting>, ghost words: seq<Word>, ghost names: seq<Word>, ghost count: nat) returns (state: nat)
    requires Compiled(a, settings, words, names, count) && index < best.Length == |padding| && padding[index] == entry
    requires ScannedTo(a, words, padding, best[..], state0, index)
    modifies best
    ensures ScannedTo(a, words, padding, best[..], state, index + 1)
  {
    if entry.chosen || entry.bopomofo !in a.tokens {
      BrokenOff(a, settings, words, names, count, padding, best[..], state0, index);
      return 0;
    }
    state := Read(a, entry, state0, words, names, padding, index);
    OfferState(a, state, index, best, padding, settings, words, names, count);
  }

  // The best name for every start.
  method Scan(a: Automaton, padding: array<Entry>, ghost settings: seq<Setting>, ghost words: seq<Word>, ghost names: seq<Word>, ghost count: nat)
    returns (best: array<Option<nat>>)
    requires Compiled(a, settings, words, names, count)
    ensures fresh(best) && best.Length == padding.Length
    ensures IsBestEverywhere(a.rules, padding[..], best[..])
  {
    hide BestOf, Best, NodeLinked, OnlyPrefixes, NamesSpelled, ScannedTo;
    best := new Option<nat>[padding.Length](i => None);
    NobodyYet(a, words, padding[..], best[..]);
    ScanAll(a, padding[..], best, settings, words, names, count);
    EverybodyLookedAt(a.rules, padding[..], best[..]);
  }

  method ScanAll(a: Automaton, padding: seq<Entry>, best: array<Option<nat>>,
                 ghost settings: seq<Setting>, ghost words: seq<Word>, ghost names: seq<Word>, ghost count: nat)
    requires Compiled(a, settings, words, names, count) && best.Length == |padding| && ScannedTo(a, words, padding, best[..], 0, 0)
    modifies best
    ensures AllBest(a.rules, padding, best[..], |padding| + 1, [])
  {
    var state: nat := 0;
    var index: nat := 0;
    while index < |padding|
      invariant index <= |padding| && ScannedTo(a, words, padding, best[..], state, index)
      decreases |padding| - index
    {
      state := ScanOne(a, padding[index], state, index, best, padding, settings, words, names, count);
      index := index + 1;
    }
    LastScanned(a, words, padding, best[..], state);
  }

  lemma LastScanned(a: Automaton, words: seq<Word>, padding: seq<Entry>, best: seq<Option<nat>>, state: nat)
    requires ScannedTo(a, words, padding, best, state, |padding|)
    ensures AllBest(a.rules, padding, best, |padding| + 1, [])
  {
  }

  predicate IsBestEverywhere(rules: seq<Rule>, padding: seq<Entry>, best: seq<Option<nat>>) {
    forall s :: 0 <= s < |best| ==> best[s] == Best(rules, padding, s)
  }

  lemma NobodyYet(a: Automaton, words: seq<Word>, padding: seq<Entry>, best: seq<Option<nat>>)
    requires Proper(a.rules) && words != [] && words[0] == [] && a.nodes != [] && forall s :: 0 <= s < |best| ==> best[s] == None
    ensures ScannedTo(a, words, padding, best, 0, 0)
  {
    RootIsLongest(words);
    forall s | 0 <= s < |best| ensures BestOf(a.rules, padding, best[s], s, 1, []) {
      NobodyLookedAt(a.rules, padding, s);
    }
  }

  lemma EverybodyLookedAt(rules: seq<Rule>, padding: seq<Entry>, best: seq<Option<nat>>)
    requires Proper(rules) && AllBest(rules, padding, best, |padding| + 1, [])
    ensures IsBestEverywhere(rules, padding, best)
  {
    forall s | 0 <= s < |best| ensures best[s] == Best(rules, padding, s) {
      AtTheEnd(rules, padding, best[s], s);
    }
  }

  // ---- one pass over the matches ------------------------------------------------------------------

  // What is sent back to the user interface for an entry.
  function Mark(was: Entry, now: Entry): Option<char> {
    if !was.chosen && now.chosen then Some(now.character) else None
  }

  lemma BestFrame(rules: seq<Rule>, a: seq<Entry>, b: seq<Entry>, start: nat)
    requires Proper(rules) && |a| == |b| && forall i :: start <= i < |a| ==> a[i] == b[i]
    ensures Best(rules, a, start) == Best(rules, b, start)
  {
    forall i | 0 <= i < |rules| ensures Fits(rules[i], a, start) <==> Fits(rules[i], b, start) {
    }
    var best := Best(rules, a, start);
    if best.Some? {
      forall j | 0 <= j < |rules| && j != best.value && Fits(rules[j], b, start) ensures Better(rules[best.value], rules[j]) {
        BestIsBest(rules, a, start, j);
      }
      OneIsBest(rules, b, start, best.value);
    }
  }

  // Puts a name in.
  method PutIn(padding: array<Entry>, start: nat, characters: string, marks0: seq<Option<char>>) returns (marks: seq<Option<char>>)
    requires start + |characters| <= padding.Length == |marks0|
    requires forall i :: start <= i < start + |characters| ==> !padding[i].chosen
    modifies padding
    ensures padding[..] == Replaced(old(padding[..]), start, characters) && |marks| == |marks0|
    ensures forall i :: 0 <= i < |marks| ==>
              marks[i] == if start <= i < start + |characters| then Mark(old(padding[i]), padding[i]) else marks0[i]
  {
    marks := marks0;
    for offset := 0 to |characters|
      invariant |marks| == |marks0|
      invariant forall i :: 0 <= i < padding.Length ==>
                  padding[i] == if start <= i < start + offset then old(padding[i]).(chosen := true, character := characters[i - start])
                                else old(padding[i])
      invariant forall i :: 0 <= i < |marks| ==>
                  marks[i] == if start <= i < start + offset then Some(characters[i - start]) else marks0[i]
    {
      padding[start + offset] := padding[start + offset].(chosen := true, character := characters[offset]);
      marks := marks[start + offset := Some(characters[offset])];
    }
    assert padding[..] == Replaced(old(padding[..]), start, characters);
  }

  // The matches from start on lead to the target; the entries from there on are as before.
  predicate OnTheWay(rules: seq<Rule>, was: seq<Entry>, now: seq<Entry>, start: nat, marks: seq<Option<char>>, target: seq<Entry>) {
    && Proper(rules) && |now| == |was| == |marks| && Named(rules, now, start) == target
    && (forall i :: 0 <= i < |was| && i >= start ==> now[i] == was[i])
    && (forall i :: 0 <= i < |was| ==> marks[i] == Mark(was[i], now[i]))
  }

  lemma FitsUnchosen(r: Rule, padding: seq<Entry>, start: nat)
    requires Fits(r, padding, start) && |r.characters| == |r.readings|
    ensures forall i :: start <= i < start + |r.characters| ==> !padding[i].chosen
  {
    forall i | start <= i < start + |r.characters| ensures !padding[i].chosen {
      assert IsRead(padding[start + (i - start)], r.readings[i - start]);
    }
  }

  // The best name of this start is put in, if there is one.
  method ApplyAt(rules: seq<Rule>, best: Option<nat>, padding: array<Entry>, start: nat, marks0: seq<Option<char>>,
                 ghost was: seq<Entry>, ghost target: seq<Entry>) returns (next: nat, marks: seq<Option<char>>)
    requires OnTheWay(rules, was, padding[..], start, marks0, target) && start < padding.Length && best == Best(rules, was, start)
    modifies padding
    ensures OnTheWay(rules, was, padding[..], next, marks, target) && next > start
  {
    BestFrame(rules, was, padding[..], start);
    marks, next := marks0, start + 1;
    if best.Some? {
      var matched := rules[best.value];
      FitsUnchosen(matched, was, start);
      marks := PutIn(padding, start, matched.characters, marks);
      next := start + |matched.characters|;
    }
  }

  // The best names from the left, each behind the one before.
  method PutAllIn(rules: seq<Rule>, best: seq<Option<nat>>, padding: array<Entry>, marks0: seq<Option<char>>) returns (marks: seq<Option<char>>)
    requires Proper(rules) && IsBestEverywhere(rules, padding[..], best) && |best| == padding.Length
    requires |marks0| == padding.Length && forall i :: 0 <= i < |marks0| ==> marks0[i] == None
    modifies padding
    ensures padding[..] == Named(rules, old(padding[..]), 0)
    ensures |marks| == padding.Length && forall i :: 0 <= i < |marks| ==> marks[i] == Mark(old(padding[i]), padding[i])
  {
    ghost var p := padding[..];
    ghost var target := Named(rules, p, 0);
    marks := marks0;
    var start: nat := 0;
    while start < padding.Length
      invariant OnTheWay(rules, p, padding[..], start, marks, target)
      decreases padding.Length - start
    {
      start, marks := ApplyAt(rules, best[start], padding, start, marks, p, target);
    }
  }

  class CustomNameMatcher {
    var automaton: Automaton
    ghost var settings: seq<Setting>
    ghost var words: seq<Word>
    ghost var names: seq<Word>
    ghost var count: nat

    ghost predicate Valid()
      reads this
    {
      Compiled(automaton, settings, words, names, count)
    }

    constructor (settings: seq<Setting>)
      ensures Valid() && this.settings == settings
    {
      var a, w, n, c := Compile(settings);
      automaton := a;
      this.settings, words, names, count := settings, w, n, c;
    }

    method Replace(settings: seq<Setting>)
      modifies this
      ensures Valid() && this.settings == settings
    {
      var a, w, n, c := Compile(settings);
      automaton := a;
      this.settings, words, names, count := settings, w, n, c;
    }

    // Puts the names in as the settings say; returns what was put where.
    method Apply(padding: array<Entry>) returns (marks: seq<Option<char>>)
      requires Valid()
      modifies padding
      ensures padding[..] == Named(RulesOf(settings), old(padding[..]), 0)
      ensures |marks| == padding.Length && forall i :: 0 <= i < |marks| ==> marks[i] == Mark(old(padding[i]), padding[i])
    {
      marks := seq(padding.Length, i => None);
      ghost var p := padding[..];
      if padding.Length == 0 || automaton.rules == [] {
        NothingToDo(automaton.rules, p, 0);
        return;
      }
      var best := Scan(automaton, padding, settings, words, names, count);
      marks := PutAllIn(automaton.rules, best[..], padding, marks);
    }
  }

  method Compile(settings: seq<Setting>) returns (a: Automaton, ghost words: seq<Word>, ghost names: seq<Word>, ghost count: nat)
    ensures Compiled(a, settings, words, names, count)
  {
    var tokens, nodes, rules, w, n, c := Plant(settings);
    var linked := Link(nodes, w, n);
    a, words, names, count := Automaton(tokens, linked, rules), w, n, c;
  }
}
