/**
 The automaton of the custom names: a tree of words over token numbers with
 failure links. words[v] is what leads from the root to node v.
 */
module AhoCorasick {
  import opened Wrappers

  type Word = seq<nat>

  datatype Node = Node(next: map<nat, nat>, failure: nat, outputs: seq<nat>)

  predicate Suffix(u: Word, w: Word) {
    |u| <= |w| && u == w[|w| - |u|..]
  }

  lemma SuffixOfSuffix(u: Word, v: Word, w: Word)
    requires Suffix(u, w) && Suffix(v, w) && |u| <= |v|
    ensures Suffix(u, v)
  {
  }

  lemma SuffixTransitive(u: Word, v: Word, w: Word)
    requires Suffix(u, v) && Suffix(v, w)
    ensures Suffix(u, w)
  {
  }

  // A suffix of a longer word is empty or goes one symbol less far back in the shorter.
  lemma SuffixSnoc(u: Word, w: Word, t: nat)
    ensures Suffix(u, w + [t]) <==> u == [] || (u[|u| - 1] == t && Suffix(u[..|u| - 1], w))
  {
    if u != [] {
      assert u == u[..|u| - 1] + [u[|u| - 1]];
      if Suffix(u, w + [t]) {
        assert u[|u| - 1] == (w + [t])[|w|];
        assert u[..|u| - 1] == (w + [t])[|w| + 1 - |u|..][..|u| - 1];
      }
    }
  }

  // ---- the tree --------------------------------------------------------------------

  // Node c hangs under some node by its last symbol.
  predicate Hangs(nodes: seq<Node>, words: seq<Word>, p: nat, c: nat)
    requires |words| == |nodes| && c < |words|
  {
    && p < |nodes| && words[c] != [] && words[p] == words[c][..|words[c]| - 1]
    && words[c][|words[c]| - 1] in nodes[p].next && nodes[p].next[words[c][|words[c]| - 1]] == c
  }

  predicate HasParent(nodes: seq<Node>, words: seq<Word>, c: nat)
    requires |words| == |nodes| && c < |words|
  {
    exists p :: 0 <= p < |nodes| && Hangs(nodes, words, p, c)
  }

  predicate Trie(nodes: seq<Node>, words: seq<Word>) {
    && |words| == |nodes| > 0 && words[0] == []
    && (forall i, j :: 0 <= i < j < |words| ==> words[i] != words[j])
    && (forall v :: 0 <= v < |nodes| ==>
          forall t <- nodes[v].next :: nodes[v].next[t] < |nodes| && words[nodes[v].next[t]] == words[v] + [t])
    && (forall c :: 0 < c < |nodes| ==> HasParent(nodes, words, c))
  }

  lemma ChildOf(nodes: seq<Node>, words: seq<Word>, c: nat) returns (p: nat, t: nat)
    requires Trie(nodes, words) && 0 < c < |nodes|
    ensures p < |nodes| && t in nodes[p].next && nodes[p].next[t] == c && words[c] == words[p] + [t]
  {
    assert HasParent(nodes, words, c);
    p :| 0 <= p < |nodes| && Hangs(nodes, words, p, c);
    t := words[c][|words[c]| - 1];
  }

  // The node of the longest suffix of w there is.
  predicate Longest(words: seq<Word>, w: Word, v: nat) {
    && v < |words| && Suffix(words[v], w)
    && forall x {:trigger Suffix(words[x], w)} :: 0 <= x < |words| && Suffix(words[x], w) ==> |words[x]| <= |words[v]|
  }

  // The failure link leads to the longest proper suffix in the tree.
  predicate Failure(nodes: seq<Node>, words: seq<Word>, v: nat)
    requires |words| == |nodes| && v < |nodes|
  {
    && words[v] != [] && nodes[v].failure < |nodes|
    && Longest(words, words[v][1..], nodes[v].failure)
  }

  predicate FailuresTo(nodes: seq<Node>, words: seq<Word>, depth: nat)
    requires |words| == |nodes|
  {
    forall v :: 0 < v < |nodes| && |words[v]| <= depth ==> Failure(nodes, words, v)
  }

  // Falls back along the failure links until the symbol leads on.
  function Goto(nodes: seq<Node>, words: seq<Word>, state: nat, t: nat): (r: nat)
    requires Trie(nodes, words) && state < |nodes| && FailuresTo(nodes, words, |words[state]|)
    ensures r < |nodes|
    decreases |words[state]|
  {
    if t in nodes[state].next then nodes[state].next[t]
    else if state == 0 then 0
    else
      assert Failure(nodes, words, state);
      Goto(nodes, words, nodes[state].failure, t)
  }

  // No suffix of w longer than the state's word goes on with the symbol.
  predicate NoLonger(nodes: seq<Node>, words: seq<Word>, w: Word, state: nat, t: nat)
    requires |words| == |nodes| && state < |nodes|
  {
    && Suffix(words[state], w)
    && forall x {:trigger Suffix(words[x], w)} :: 0 <= x < |words| && Suffix(words[x], w) && |words[x]| > |words[state]| ==> t !in nodes[x].next
  }

  lemma FoundOn(nodes: seq<Node>, words: seq<Word>, w: Word, state: nat, t: nat)
    requires Trie(nodes, words) && state < |nodes| && NoLonger(nodes, words, w, state, t) && t in nodes[state].next
    ensures Longest(words, w + [t], nodes[state].next[t])
  {
    var c := nodes[state].next[t];
    SuffixSnoc(words[c], w, t);
    assert words[c][..|words[c]| - 1] == words[state];
    forall x | 0 <= x < |words| && Suffix(words[x], w + [t]) ensures |words[x]| <= |words[c]| {
      SuffixSnoc(words[x], w, t);
      if x != 0 {
        var p, s := ChildOf(nodes, words, x);
        assert words[x][..|words[x]| - 1] == words[p];
      }
    }
  }

  lemma NotGoneOn(nodes: seq<Node>, words: seq<Word>, w: Word, t: nat, x: nat)
    requires Trie(nodes, words) && NoLonger(nodes, words, w, 0, t) && t !in nodes[0].next && 0 < x < |words|
    ensures !Suffix(words[x], w + [t])
  {
    var p, s := ChildOf(nodes, words, x);
    SuffixSnoc(words[x], w, t);
    assert words[x][..|words[x]| - 1] == words[p];
    assert p != 0 ==> words[p] != words[0];
  }

  lemma FoundNothing(nodes: seq<Node>, words: seq<Word>, w: Word, t: nat)
    requires Trie(nodes, words) && NoLonger(nodes, words, w, 0, t) && t !in nodes[0].next
    ensures Longest(words, w + [t], 0)
  {
    SuffixSnoc([], w, t);
    forall x | 0 <= x < |words| ensures x == 0 || !Suffix(words[x], w + [t]) {
      if x != 0 {
        NotGoneOn(nodes, words, w, t, x);
      }
    }
  }

  lemma FallsBack(nodes: seq<Node>, words: seq<Word>, w: Word, state: nat, t: nat)
    requires Trie(nodes, words) && 0 < state < |nodes| && NoLonger(nodes, words, w, state, t) && t !in nodes[state].next
    requires Failure(nodes, words, state)
    ensures NoLonger(nodes, words, w, nodes[state].failure, t) && |words[nodes[state].failure]| < |words[state]|
  {
    var f := nodes[state].failure;
    SuffixTransitive(words[f], words[state][1..], words[state]);
    SuffixTransitive(words[f], words[state], w);
    forall x | 0 <= x < |words| && Suffix(words[x], w) && |words[x]| > |words[f]| ensures t !in nodes[x].next {
      if |words[x]| <= |words[state]| {
        SuffixOfSuffix(words[x], words[state], w);
        if |words[x]| < |words[state]| {
          SuffixOfSuffix(words[x], words[state][1..], words[state]);
        } else {
          assert words[x] == words[state] && x == state;
        }
      }
    }
  }

  // Where the automaton goes is the longest suffix of what was read.
  lemma {:induction false} GotoFrom(nodes: seq<Node>, words: seq<Word>, w: Word, state: nat, t: nat)
    requires Trie(nodes, words) && state < |nodes| && FailuresTo(nodes, words, |words[state]|) && NoLonger(nodes, words, w, state, t)
    ensures Longest(words, w + [t], Goto(nodes, words, state, t))
    decreases |words[state]|
  {
    if t in nodes[state].next {
      FoundOn(nodes, words, w, state, t);
    } else if state == 0 {
      FoundNothing(nodes, words, w, t);
    } else {
      FallsBack(nodes, words, w, state, t);
      GotoFrom(nodes, words, w, nodes[state].failure, t);
    }
  }

  lemma GotoLongest(nodes: seq<Node>, words: seq<Word>, w: Word, state: nat, t: nat)
    requires Trie(nodes, words) && Longest(words, w, state) && FailuresTo(nodes, words, |words[state]|)
    ensures Longest(words, w + [t], Goto(nodes, words, state, t))
  {
    GotoFrom(nodes, words, w, state, t);
  }

  // ---- outputs ------------------------------------------------------------------------

  // Each name's word is in the tree.
  predicate Contains(words: seq<Word>, names: seq<Word>) {
    forall r :: 0 <= r < |names| ==> names[r] != [] && names[r] in words
  }

  // The names that are this word.
  predicate OwnOutputs(nodes: seq<Node>, words: seq<Word>, names: seq<Word>, v: nat)
    requires |words| == |nodes| && v < |nodes|
  {
    && (forall r <- nodes[v].outputs :: r < |names| && names[r] == words[v])
    && (forall r :: 0 <= r < |names| && names[r] == words[v] ==> r in nodes[v].outputs)
  }

  // The names this word ends with.
  predicate AllOutputs(nodes: seq<Node>, words: seq<Word>, names: seq<Word>, v: nat)
    requires |words| == |nodes| && v < |nodes|
  {
    && (forall r <- nodes[v].outputs :: r < |names| && Suffix(names[r], words[v]))
    && (forall r :: 0 <= r < |names| && Suffix(names[r], words[v]) ==> r in nodes[v].outputs)
  }

  // A node's own names and those of its failure node are all.
  lemma OutputsInherited(nodes: seq<Node>, words: seq<Word>, names: seq<Word>, v: nat, f: nat, outputs: seq<nat>)
    requires |words| == |nodes| && v < |nodes| && f < |nodes| && Contains(words, names) && words[v] != []
    requires OwnOutputs(nodes, words, names, v) && AllOutputs(nodes, words, names, f) && Longest(words, words[v][1..], f)
    requires outputs == nodes[v].outputs + nodes[f].outputs
    ensures forall r <- outputs :: r < |names| && Suffix(names[r], words[v])
    ensures forall r :: 0 <= r < |names| && Suffix(names[r], words[v]) ==> r in outputs
  {
    SuffixTransitive(words[f], words[v][1..], words[v]);
    forall r <- outputs ensures r < |names| && Suffix(names[r], words[v]) {
      if r in nodes[f].outputs {
        SuffixTransitive(names[r], words[f], words[v]);
      }
    }
    forall r | 0 <= r < |names| && Suffix(names[r], words[v]) ensures r in outputs {
      if |names[r]| < |words[v]| {
        SuffixOfSuffix(names[r], words[v][1..], words[v]);
        var x :| 0 <= x < |words| && words[x] == names[r];
        SuffixOfSuffix(names[r], words[f], words[v][1..]);
      }
    }
  }

  // At the longest suffix of the text the outputs are all names the text ends with.
  lemma OutputsOfText(nodes: seq<Node>, words: seq<Word>, names: seq<Word>, text: Word, v: nat, r: nat)
    requires |words| == |nodes| && v < |nodes| && Contains(words, names) && r < |names|
    requires AllOutputs(nodes, words, names, v) && Longest(words, text, v)
    ensures r in nodes[v].outputs <==> Suffix(names[r], text)
  {
    if r in nodes[v].outputs {
      SuffixTransitive(names[r], words[v], text);
    }
    if Suffix(names[r], text) {
      var x :| 0 <= x < |words| && words[x] == names[r];
      SuffixOfSuffix(names[r], words[v], text);
    }
  }
}
