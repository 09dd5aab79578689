/** Building the automaton of the custom names. */
module NameAutomata {
  import opened Wrappers
  import opened NameMatching
  import opened AhoCorasick

  datatype Automaton = Automaton(tokens: map<string, nat>, nodes: seq<Node>, rules: seq<Rule>)

  // Token numbers stand for one reading each.
  predicate Numbered(tokens: map<string, nat>, count: nat) {
    && (forall a <- tokens :: tokens[a] < count)
    && forall a <- tokens, b <- tokens :: tokens[a] == tokens[b] ==> a == b
  }

  // The word of a list of readings.
  predicate Spells(tokens: map<string, nat>, readings: seq<string>, word: Word) {
    && |word| == |readings|
    && forall j :: 0 <= j < |word| ==> readings[j] in tokens && tokens[readings[j]] == word[j]
  }

  predicate NamesSpelled(tokens: map<string, nat>, rules: seq<Rule>, names: seq<Word>) {
    && |names| == |rules|
    && forall r :: 0 <= r < |names| ==> Spells(tokens, rules[r].readings, names[r])
  }

  // The tree of the names, without links: each name at the end of its word.
  predicate Planted(nodes: seq<Node>, words: seq<Word>, names: seq<Word>) {
    && Trie(nodes, words) && Contains(words, names)
    && (forall v :: 0 <= v < |nodes| ==> OwnOutputs(nodes, words, names, v) && nodes[v].failure == 0)
  }

  // Every word in the tree begins a name, or the word being added.
  predicate OnlyPrefixes(words: seq<Word>, names: seq<Word>, current: Word) {
    forall v :: 0 <= v < |words| ==> words[v] <= current || exists r :: 0 <= r < |names| && words[v] <= names[r]
  }

  // ---- planting -----------------------------------------------------------------------

  function Grown(nodes: seq<Node>, state: nat, t: nat): seq<Node>
    requires state < |nodes|
  {
    nodes[state := nodes[state].(next := nodes[state].next[t := |nodes|])] + [Node(map[], 0, [])]
  }

  lemma SnocInjective(a: Word, s: nat, b: Word, t: nat)
    ensures a + [s] == b + [t] ==> a == b && s == t
  {
    assert (a + [s])[..|a|] == a && (b + [t])[..|b|] == b && (a + [s])[|a|] == s && (b + [t])[|b|] == t;
  }

  lemma NewWord(nodes: seq<Node>, words: seq<Word>, state: nat, t: nat)
    requires Trie(nodes, words) && state < |nodes| && t !in nodes[state].next
    ensures words[state] + [t] !in words
  {
    forall x | 0 <= x < |words| ensures words[x] != words[state] + [t] {
      if x != 0 {
        var p, s := ChildOf(nodes, words, x);
        SnocInjective(words[p], s, words[state], t);
      }
    }
  }

  lemma GrownTrie(nodes: seq<Node>, words: seq<Word>, state: nat, t: nat)
    requires Trie(nodes, words) && state < |nodes| && t !in nodes[state].next
    ensures Trie(Grown(nodes, state, t), words + [words[state] + [t]])
  {
    NewWord(nodes, words, state, t);
    var r, w := Grown(nodes, state, t), words + [words[state] + [t]];
    forall c | 0 < c < |r| ensures HasParent(r, w, c) {
      if c < |nodes| {
        assert HasParent(nodes, words, c);
        var p :| 0 <= p < |nodes| && Hangs(nodes, words, p, c);
        assert Hangs(r, w, p, c);
      } else {
        assert w[c][..|w[c]| - 1] == words[state];
        assert Hangs(r, w, state, c);
      }
    }
    forall i, j | 0 <= i < j < |w| ensures w[i] != w[j] {
      if j == |words| {
        assert words[i] in words;
      }
    }
  }

  lemma GrownPlanted(nodes: seq<Node>, words: seq<Word>, names: seq<Word>, state: nat, t: nat)
    requires Planted(nodes, words, names) && state < |nodes| && t !in nodes[state].next
    ensures Planted(Grown(nodes, state, t), words + [words[state] + [t]], names)
  {
    var r, w := Grown(nodes, state, t), words + [words[state] + [t]];
    GrownTrie(nodes, words, state, t);
    NewWord(nodes, words, state, t);
    forall v | 0 <= v < |r| ensures OwnOutputs(r, w, names, v) && r[v].failure == 0 {
      if v < |nodes| {
        assert OwnOutputs(nodes, words, names, v);
      }
    }
  }

  // A name ends here.
  function Ended(node: Node, rule: nat): Node {
    node.(outputs := node.outputs + [rule])
  }

  // One more name at the node of its word.
  lemma NamePlanted(nodes: seq<Node>, words: seq<Word>, names: seq<Word>, state: nat)
    requires Planted(nodes, words, names) && state < |nodes| && words[state] != []
    ensures Planted(nodes[state := Ended(nodes[state], |names|)], words, names + [words[state]])
  {
    var r, more := nodes[state := Ended(nodes[state], |names|)], names + [words[state]];
    forall c | 0 < c < |r| ensures HasParent(r, words, c) {
      assert HasParent(nodes, words, c);
      var p :| 0 <= p < |nodes| && Hangs(nodes, words, p, c);
      assert Hangs(r, words, p, c);
    }
    forall v | 0 <= v < |r| ensures OwnOutputs(r, words, more, v) && r[v].failure == 0 {
      assert OwnOutputs(nodes, words, names, v);
      if v == state {
        assert r[v].outputs[|nodes[v].outputs|] == |names|;
        assert forall x <- nodes[v].outputs :: x in r[v].outputs;
      } else {
        assert words[v] != words[state];
      }
    }
  }

  // Walks the word of the readings into the tree, growing it where it ends.
  method Walk(readings: seq<string>, tokens0: map<string, nat>, count0: nat, nodes0: seq<Node>, ghost words0: seq<Word>, ghost names: seq<Word>)
    returns (tokens: map<string, nat>, count: nat, nodes: seq<Node>, state: nat, ghost words: seq<Word>)
    requires Numbered(tokens0, count0) && Planted(nodes0, words0, names) && OnlyPrefixes(words0, names, [])
    ensures Numbered(tokens, count) && (forall a <- tokens0 :: a in tokens && tokens[a] == tokens0[a])
    ensures Planted(nodes, words, names) && state < |nodes| && Spells(tokens, readings, words[state])
    ensures OnlyPrefixes(words, names, words[state])
  {
    tokens, count, nodes, words, state := tokens0, count0, nodes0, words0, 0;
    for i := 0 to |readings|
      invariant Numbered(tokens, count) && (forall a <- tokens0 :: a in tokens && tokens[a] == tokens0[a])
      invariant Planted(nodes, words, names) && state < |nodes| && Spells(tokens, readings[..i], words[state])
      invariant OnlyPrefixes(words, names, words[state])
    {
      ghost var before, at := tokens, words[state];
      tokens, count := NumberFor(readings[i], tokens, count);
      nodes, state, words := WalkOne(tokens[readings[i]], nodes, state, words, names);
      SpellsOneMore(before, tokens, readings, i, at, words[state]);
    }
    assert readings[..|readings|] == readings;
  }

  // The number of the reading, a new one if it has none.
  method NumberFor(reading: string, tokens0: map<string, nat>, count0: nat) returns (tokens: map<string, nat>, count: nat)
    requires Numbered(tokens0, count0)
    ensures Numbered(tokens, count) && reading in tokens && forall a <- tokens0 :: a in tokens && tokens[a] == tokens0[a]
  {
    tokens, count := tokens0, count0;
    if reading !in tokens {
      tokens := tokens[reading := count];
      count := count + 1;
    }
  }

  lemma SpellsOneMore(before: map<string, nat>, after: map<string, nat>, readings: seq<string>, i: nat, at: Word, word: Word)
    requires i < |readings| && Spells(before, readings[..i], at) && readings[i] in after && word == at + [after[readings[i]]]
    requires forall a <- before :: a in after && after[a] == before[a]
    ensures Spells(after, readings[..i + 1], word)
  {
  }

  method WalkOne(t: nat, nodes0: seq<Node>, state0: nat, ghost words0: seq<Word>, ghost names: seq<Word>)
    returns (nodes: seq<Node>, state: nat, ghost words: seq<Word>)
    requires Planted(nodes0, words0, names) && state0 < |nodes0| && OnlyPrefixes(words0, names, words0[state0])
    ensures Planted(nodes, words, names) && state < |nodes| && words[state] == words0[state0] + [t]
    ensures OnlyPrefixes(words, names, words[state])
  {
    nodes, words := nodes0, words0;
    if t in nodes[state0].next {
      state := nodes[state0].next[t];
    } else {
      GrownPlanted(nodes, words, names, state0, t);
      state := |nodes|;
      words := words + [words[state0] + [t]];
      nodes := Grown(nodes, state0, t);
    }
    LongerPrefixes(words0, names, words0[state0], t, words);
  }

  lemma LongerPrefixes(words0: seq<Word>, names: seq<Word>, current: Word, t: nat, words: seq<Word>)
    requires OnlyPrefixes(words0, names, current) && (words == words0 || words == words0 + [current + [t]])
    ensures OnlyPrefixes(words, names, current + [t])
  {
    forall v | 0 <= v < |words|
      ensures words[v] <= current + [t] || exists r :: 0 <= r < |names| && words[v] <= names[r]
    {
      if v < |words0| && words0[v] <= current {
        assert words0[v] <= current + [t];
      }
    }
  }

  // One name planted.
  method PlantOne(setting: Setting, order: nat, tokens0: map<string, nat>, count0: nat, nodes0: seq<Node>, rules0: seq<Rule>,
                  ghost words0: seq<Word>, ghost names0: seq<Word>)
    returns (tokens: map<string, nat>, count: nat, nodes: seq<Node>, rules: seq<Rule>, ghost words: seq<Word>, ghost names: seq<Word>)
    requires Usable(setting) && Numbered(tokens0, count0) && NamesSpelled(tokens0, rules0, names0)
    requires Planted(nodes0, words0, names0) && OnlyPrefixes(words0, names0, [])
    ensures rules == rules0 + [Rule(setting.name, setting.readings, order)]
    ensures Numbered(tokens, count) && NamesSpelled(tokens, rules, names) && Planted(nodes, words, names) && OnlyPrefixes(words, names, [])
  {
    var state: nat;
    tokens, count, nodes, state, words := Walk(setting.readings, tokens0, count0, nodes0, words0, names0);
    NamesGrow(tokens0, tokens, rules0, names0, Rule(setting.name, setting.readings, order), words[state]);
    nodes, names := EndName(nodes, state, |rules0|, words, names0);
    rules := rules0 + [Rule(setting.name, setting.readings, order)];
  }

  method EndName(nodes0: seq<Node>, state: nat, rule: nat, ghost words: seq<Word>, ghost names0: seq<Word>)
    returns (nodes: seq<Node>, ghost names: seq<Word>)
    requires Planted(nodes0, words, names0) && state < |nodes0| && words[state] != [] && rule == |names0|
    requires OnlyPrefixes(words, names0, words[state])
    ensures names == names0 + [words[state]] && Planted(nodes, words, names) && OnlyPrefixes(words, names, [])
  {
    NamePlanted(nodes0, words, names0, state);
    NamePrefixes(words, names0, state);
    nodes := nodes0[state := Ended(nodes0[state], rule)];
    names := names0 + [words[state]];
  }

  // The usable names planted in order.
  method Plant(settings: seq<Setting>)
    returns (tokens: map<string, nat>, nodes: seq<Node>, rules: seq<Rule>, ghost words: seq<Word>, ghost names: seq<Word>, ghost count: nat)
    ensures rules == RulesOf(settings) && Numbered(tokens, count) && NamesSpelled(tokens, rules, names)
    ensures Planted(nodes, words, names) && OnlyPrefixes(words, names, [])
  {
    tokens, nodes, rules, words, names := map[], [Node(map[], 0, [])], [], [[]], [];
    var next: nat := 0;
    for order := 0 to |settings|
      invariant rules == RulesOf(settings[..order]) && Numbered(tokens, next) && NamesSpelled(tokens, rules, names)
      invariant Planted(nodes, words, names) && OnlyPrefixes(words, names, [])
    {
      var setting := settings[order];
      assert settings[..order + 1][..order] == settings[..order];
      if setting.name == "" || |setting.name| != |setting.readings| || "" in setting.readings {
        continue;
      }
      tokens, next, nodes, rules, words, names := PlantOne(setting, order, tokens, next, nodes, rules, words, names);
    }
    assert settings[..|settings|] == settings;
    count := next;
  }

  lemma StillSpelled(before: map<string, nat>, after: map<string, nat>, rules: seq<Rule>, names: seq<Word>)
    requires NamesSpelled(before, rules, names) && forall a <- before :: a in after && after[a] == before[a]
    ensures NamesSpelled(after, rules, names)
  {
    forall r | 0 <= r < |names| ensures Spells(after, rules[r].readings, names[r]) {
      assert Spells(before, rules[r].readings, names[r]);
    }
  }

  lemma NamesGrow(before: map<string, nat>, after: map<string, nat>, rules: seq<Rule>, names: seq<Word>, rule: Rule, word: Word)
    requires NamesSpelled(before, rules, names) && Spells(after, rule.readings, word)
    requires forall a <- before :: a in after && after[a] == before[a]
    ensures |names| == |rules| && NamesSpelled(after, rules + [rule], names + [word])
  {
    StillSpelled(before, after, rules, names);
    var r, n := rules + [rule], names + [word];
    forall i | 0 <= i < |n| ensures Spells(after, r[i].readings, n[i]) {
      if i < |names| {
        assert Spells(after, rules[i].readings, names[i]);
      }
    }
  }

  lemma NamePrefixes(words: seq<Word>, names: seq<Word>, state: nat)
    requires state < |words| && OnlyPrefixes(words, names, words[state])
    ensures OnlyPrefixes(words, names + [words[state]], [])
  {
    var more := names + [words[state]];
    forall v | 0 <= v < |words| ensures words[v] <= [] || exists r :: 0 <= r < |more| && words[v] <= more[r] {
      if words[v] <= words[state] {
        assert words[v] <= more[|names|];
      } else {
        var r :| 0 <= r < |names| && words[v] <= names[r];
        assert words[v] <= more[r];
      }
    }
  }
}
