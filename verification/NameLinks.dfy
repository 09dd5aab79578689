/** Setting the failure links, breadth first, and inheriting the outputs along them. */
module NameLinks {
  import opened Wrappers
  import opened Counting
  import opened AhoCorasick
  import opened NameAutomata

  // Nodes that are ready have their link and all their outputs, the others their own.
  predicate LinkedUpTo(nodes: seq<Node>, words: seq<Word>, names: seq<Word>, ready: set<nat>) {
    && Trie(nodes, words) && Contains(words, names)
    && forall v :: 0 <= v < |nodes| ==>
         if v in ready then NodeLinked(nodes, words, names, v) else OwnOutputs(nodes, words, names, v)
  }

  predicate AllLinked(nodes: seq<Node>, words: seq<Word>, names: seq<Word>) {
    && Trie(nodes, words) && Contains(words, names)
    && forall v :: 0 <= v < |nodes| ==> NodeLinked(nodes, words, names, v)
  }

  // The children of v are ready, but for those of the symbols left.
  predicate Expanded(nodes: seq<Node>, ready: set<nat>, v: nat, left: set<nat>)
    requires v < |nodes|
  {
    forall t <- nodes[v].next :: nodes[v].next[t] in ready <==> t !in left
  }

  // Nodes waiting in the queue are ready and their children are not; the
  // children of every other ready node are ready too.
  predicate Queued(nodes: seq<Node>, words: seq<Word>, ready: set<nat>, pending: seq<nat>, p: nat, left: set<nat>)
    requires |words| == |nodes|
  {
    && 0 in ready && p < |nodes| && p in ready && p !in pending
    && (forall i :: 0 <= i < |pending| ==> 0 < pending[i] < |nodes| && pending[i] in ready)
    && (forall i, j :: 0 <= i < j < |pending| ==> pending[i] != pending[j] && |words[pending[i]]| <= |words[pending[j]]|)
    && (forall v :: 0 <= v < |nodes| ==>
          Expanded(nodes, ready, v, if v == p then left else if v in ready && v !in pending then {} else nodes[v].next.Keys))
  }

  // No node waiting is less deep than d, so every node that deep is ready.
  lemma {:induction false} ShallowReady(nodes: seq<Node>, words: seq<Word>, ready: set<nat>, pending: seq<nat>, p: nat, left: set<nat>, d: nat, v: nat)
    requires Trie(nodes, words) && Queued(nodes, words, ready, pending, p, left) && v < |nodes| && |words[v]| <= d
    requires (left != {} ==> |words[p]| >= d) && forall i :: 0 <= i < |pending| ==> |words[pending[i]]| >= d
    ensures v in ready
    decreases |words[v]|
  {
    if v != 0 {
      var u, t := ChildOf(nodes, words, v);
      ShallowReady(nodes, words, ready, pending, p, left, d, u);
      assert Expanded(nodes, ready, u, if u == p then left else {});
    }
  }

  // ---- one child ----------------------------------------------------------------------

  function LinkedNode(node: Node, failure: nat, inherited: seq<nat>): Node {
    node.(failure := failure, outputs := node.outputs + inherited)
  }

  lemma SameTrie(nodes: seq<Node>, words: seq<Word>, c: nat, failure: nat, inherited: seq<nat>)
    requires Trie(nodes, words) && c < |nodes|
    ensures Trie(nodes[c := LinkedNode(nodes[c], failure, inherited)], words)
  {
    var r := nodes[c := LinkedNode(nodes[c], failure, inherited)];
    assert forall v :: 0 <= v < |nodes| ==> r[v].next == nodes[v].next;
    forall x | 0 < x < |r| ensures HasParent(r, words, x) {
      assert HasParent(nodes, words, x);
      var p :| 0 <= p < |nodes| && Hangs(nodes, words, p, x);
      assert Hangs(r, words, p, x);
    }
  }

  predicate NodeLinked(nodes: seq<Node>, words: seq<Word>, names: seq<Word>, v: nat)
    requires |words| == |nodes| && v < |nodes|
  {
    (v != 0 ==> Failure(nodes, words, v)) && AllOutputs(nodes, words, names, v)
  }

  // The new link is the longest proper suffix; all outputs are there with it.
  lemma NewLink(nodes: seq<Node>, words: seq<Word>, names: seq<Word>, c: nat, f: nat)
    requires |words| == |nodes| && c < |nodes| && f < |nodes| && Contains(words, names) && words[c] != []
    requires OwnOutputs(nodes, words, names, c) && AllOutputs(nodes, words, names, f) && Longest(words, words[c][1..], f)
    ensures NodeLinked(nodes[c := LinkedNode(nodes[c], f, nodes[f].outputs)], words, names, c)
  {
    OutputsInherited(nodes, words, names, c, f, nodes[c].outputs + nodes[f].outputs);
  }

  lemma OtherNode(nodes: seq<Node>, words: seq<Word>, names: seq<Word>, c: nat, x: Node, v: nat)
    requires |words| == |nodes| && c < |nodes| && v < |nodes| && v != c
    ensures NodeLinked(nodes, words, names, v) ==> NodeLinked(nodes[c := x], words, names, v)
    ensures OwnOutputs(nodes, words, names, v) ==> OwnOutputs(nodes[c := x], words, names, v)
  {
  }

  lemma LinkKeeps(nodes: seq<Node>, words: seq<Word>, names: seq<Word>, ready: set<nat>, c: nat, f: nat)
    requires LinkedUpTo(nodes, words, names, ready) && 0 < c < |nodes| && c !in ready && f < |nodes| && f in ready
    requires words[c] != [] && Longest(words, words[c][1..], f)
    ensures LinkedUpTo(nodes[c := LinkedNode(nodes[c], f, nodes[f].outputs)], words, names, ready + {c})
  {
    var r := nodes[c := LinkedNode(nodes[c], f, nodes[f].outputs)];
    SameTrie(nodes, words, c, f, nodes[f].outputs);
    NewLink(nodes, words, names, c, f);
    forall v | 0 <= v < |r|
      ensures if v in ready + {c} then NodeLinked(r, words, names, v) else OwnOutputs(r, words, names, v)
    {
      if v != c {
        OtherNode(nodes, words, names, c, r[c], v);
      }
    }
  }

  // The child is behind everything waiting.
  lemma QueueGrows(nodes: seq<Node>, words: seq<Word>, ready: set<nat>, pending: seq<nat>, p: nat, left: set<nat>, t: nat, r: seq<Node>)
    requires Trie(nodes, words) && Queued(nodes, words, ready, pending, p, left) && t in left && t in nodes[p].next
    requires |r| == |nodes| && forall v :: 0 <= v < |nodes| ==> r[v].next == nodes[v].next
    requires forall i :: 0 <= i < |pending| ==> |words[pending[i]]| <= |words[p]| + 1
    ensures Queued(r, words, ready + {nodes[p].next[t]}, pending + [nodes[p].next[t]], p, left - {t})
  {
    var c := nodes[p].next[t];
    var more, queue := ready + {c}, pending + [c];
    assert Expanded(nodes, ready, p, left);
    forall v | 0 <= v < |r|
      ensures Expanded(r, more, v, if v == p then left - {t} else if v in more && v !in queue then {} else r[v].next.Keys)
    {
      assert Expanded(nodes, ready, v, if v == p then left else if v in ready && v !in pending then {} else nodes[v].next.Keys);
      forall s <- r[v].next ensures nodes[v].next[s] == c ==> v == p && s == t {
        SnocInjective(words[v], s, words[p], t);
      }
    }
  }

  // ---- the search ---------------------------------------------------------------------------

  // Falls back until the symbol leads on.
  method FailureOf(nodes: seq<Node>, start: nat, t: nat, ghost words: seq<Word>) returns (failure: nat)
    requires Trie(nodes, words) && start < |nodes| && FailuresTo(nodes, words, |words[start]|)
    ensures failure == Goto(nodes, words, start, t)
  {
    failure := start;
    while failure != 0 && t !in nodes[failure].next
      invariant failure < |nodes| && FailuresTo(nodes, words, |words[failure]|)
      invariant Goto(nodes, words, failure, t) == Goto(nodes, words, start, t)
      decreases |words[failure]|
    {
      assert Failure(nodes, words, failure);
      failure := nodes[failure].failure;
    }
    if t in nodes[failure].next {
      failure := nodes[failure].next[t];
    }
  }

  // The node, whose children are being linked.
  predicate Linking(nodes: seq<Node>, words: seq<Word>, names: seq<Word>, ready: set<nat>, pending: seq<nat>, p: nat, left: set<nat>) {
    && LinkedUpTo(nodes, words, names, ready) && Queued(nodes, words, ready, pending, p, left) && p != 0
    && left <= nodes[p].next.Keys
    && forall i :: 0 <= i < |pending| ==> |words[p]| <= |words[pending[i]]| <= |words[p]| + 1
  }

  lemma LinkReady(nodes: seq<Node>, words: seq<Word>, names: seq<Word>, ready: set<nat>, pending: seq<nat>, p: nat, left: set<nat>)
    requires Linking(nodes, words, names, ready, pending, p, left)
    ensures Failure(nodes, words, p) && FailuresTo(nodes, words, |words[p]|)
    ensures forall v :: 0 <= v < |nodes| && |words[v]| <= |words[p]| ==> v in ready
  {
    forall v | 0 <= v < |nodes| && |words[v]| <= |words[p]| ensures v in ready {
      ShallowReady(nodes, words, ready, pending, p, left, |words[p]|, v);
    }
  }

  // The child by symbol t and the node it falls back to.
  lemma LinkFacts(nodes: seq<Node>, words: seq<Word>, names: seq<Word>, ready: set<nat>, pending: seq<nat>, p: nat, left: set<nat>,
                  t: nat, f: nat)
    requires Linking(nodes, words, names, ready, pending, p, left) && t in left && f < |nodes|
    requires Longest(words, words[p][1..] + [t], f)
    ensures var c := nodes[p].next[t];
            && 0 < c < |nodes| && c !in ready && words[c] == words[p] + [t] && f in ready && Longest(words, words[c][1..], f)
  {
    var c := nodes[p].next[t];
    LinkReady(nodes, words, names, ready, pending, p, left);
    assert Expanded(nodes, ready, p, left);
    assert words[p] != words[0];
    assert words[c][1..] == words[p][1..] + [t];
    assert |words[f]| <= |words[p]|;
  }

  lemma LinkStep(nodes: seq<Node>, words: seq<Word>, names: seq<Word>, ready: set<nat>, pending: seq<nat>, p: nat, left: set<nat>,
                 t: nat, f: nat)
    requires Linking(nodes, words, names, ready, pending, p, left) && t in left && f < |nodes|
    requires Longest(words, words[p][1..] + [t], f)
    ensures var c := nodes[p].next[t];
            && c !in ready
            && Linking(nodes[c := LinkedNode(nodes[c], f, nodes[f].outputs)], words, names, ready + {c}, pending + [c], p, left - {t})
  {
    var c := nodes[p].next[t];
    var r := nodes[c := LinkedNode(nodes[c], f, nodes[f].outputs)];
    LinkFacts(nodes, words, names, ready, pending, p, left, t, f);
    LinkKeeps(nodes, words, names, ready, c, f);
    assert forall v :: 0 <= v < |nodes| ==> r[v].next == nodes[v].next;
    QueueGrows(nodes, words, ready, pending, p, left, t, r);
  }

  // ---- the search, run ------------------------------------------------------------------

  lemma RootLinked(nodes: seq<Node>, words: seq<Word>, names: seq<Word>)
    requires Planted(nodes, words, names)
    ensures LinkedUpTo(nodes, words, names, {0}) && Queued(nodes, words, {0}, [], 0, nodes[0].next.Keys)
  {
    assert OwnOutputs(nodes, words, names, 0);
    forall v | 0 <= v < |nodes| ensures Expanded(nodes, {0}, v, nodes[v].next.Keys) {
      forall t <- nodes[v].next ensures nodes[v].next[t] != 0 {
        assert words[nodes[v].next[t]] != [];
      }
    }
  }

  // A child of the root needs no link.
  lemma ChildOfRoot(nodes: seq<Node>, words: seq<Word>, names: seq<Word>, ready: set<nat>, t: nat)
    requires LinkedUpTo(nodes, words, names, ready) && t in nodes[0].next && nodes[nodes[0].next[t]].failure == 0
    requires nodes[0].next[t] !in ready
    ensures LinkedUpTo(nodes, words, names, ready + {nodes[0].next[t]})
  {
    var c := nodes[0].next[t];
    assert words[c] == [t] && words[c][1..] == [];
    assert OwnOutputs(nodes, words, names, c);
    assert Failure(nodes, words, c);
    forall r | 0 <= r < |names| ensures Suffix(names[r], words[c]) <==> names[r] == words[c] {
    }
    assert NodeLinked(nodes, words, names, c);
  }

  // The children of the root waiting, but for those of the symbols left.
  predicate RootsQueued(nodes: seq<Node>, words: seq<Word>, names: seq<Word>, ready: set<nat>, pending: seq<nat>, left: set<nat>) {
    && LinkedUpTo(nodes, words, names, ready) && Queued(nodes, words, ready, pending, 0, left) && left <= nodes[0].next.Keys
    && (forall v :: 0 <= v < |nodes| ==> nodes[v].failure == 0)
    && (forall i :: 0 <= i < |pending| ==> |words[pending[i]]| == 1)
    && (forall x <- ready :: x < |nodes|)
  }

  lemma RootQueued(nodes: seq<Node>, words: seq<Word>, names: seq<Word>, ready: set<nat>, pending: seq<nat>, left: set<nat>, t: nat)
    requires RootsQueued(nodes, words, names, ready, pending, left) && t in left
    ensures RootsQueued(nodes, words, names, ready + {nodes[0].next[t]}, pending + [nodes[0].next[t]], left - {t})
  {
    assert Expanded(nodes, ready, 0, left);
    assert words[nodes[0].next[t]] == [t];
    ChildOfRoot(nodes, words, names, ready, t);
    QueueGrows(nodes, words, ready, pending, 0, left, t, nodes);
  }

  method QueueRoots(nodes: seq<Node>, ghost words: seq<Word>, ghost names: seq<Word>) returns (pending: seq<nat>, ghost ready: set<nat>)
    requires Planted(nodes, words, names)
    ensures LinkedUpTo(nodes, words, names, ready) && Queued(nodes, words, ready, pending, 0, {})
    ensures forall i :: 0 <= i < |pending| ==> |words[pending[i]]| == 1
    ensures forall x <- ready :: x < |nodes|
  {
    RootLinked(nodes, words, names);
    pending, ready := [], {0};
    var left := nodes[0].next.Keys;
    while left != {}
      invariant RootsQueued(nodes, words, names, ready, pending, left)
      decreases |left|
    {
      var t: nat :| t in left;
      RootQueued(nodes, words, names, ready, pending, left, t);
      pending := pending + [nodes[0].next[t]];
      ready := ready + {nodes[0].next[t]};
      left := left - {t};
    }
  }

  method LinkChildren(nodes0: seq<Node>, pending0: seq<nat>, p: nat, ghost words: seq<Word>, ghost names: seq<Word>, ghost ready0: set<nat>)
    returns (nodes: seq<Node>, pending: seq<nat>, ghost ready: set<nat>)
    requires p < |nodes0| && Linking(nodes0, words, names, ready0, pending0, p, nodes0[p].next.Keys)
    requires forall x <- ready0 :: x < |nodes0|
    ensures |nodes| == |nodes0| && Linking(nodes, words, names, ready, pending, p, {})
    ensures (forall x <- ready :: x < |nodes|) && |ready| - |ready0| == |pending| - |pending0| >= 0
  {
    nodes, pending, ready := nodes0, pending0, ready0;
    var left := nodes[p].next.Keys;
    while left != {}
      invariant |nodes| == |nodes0| && Linking(nodes, words, names, ready, pending, p, left)
      invariant (forall x <- ready :: x < |nodes|) && |ready| - |ready0| == |pending| - |pending0| >= 0
      decreases |left|
    {
      var t: nat :| t in left;
      nodes, pending, ready := LinkChild(nodes, pending, p, t, words, names, ready, left);
      left := left - {t};
    }
  }

  method LinkChild(nodes0: seq<Node>, pending0: seq<nat>, p: nat, t: nat, ghost words: seq<Word>, ghost names: seq<Word>,
                   ghost ready0: set<nat>, ghost left: set<nat>)
    returns (nodes: seq<Node>, pending: seq<nat>, ghost ready: set<nat>)
    requires Linking(nodes0, words, names, ready0, pending0, p, left) && t in left && forall x <- ready0 :: x < |nodes0|
    ensures |nodes| == |nodes0| && Linking(nodes, words, names, ready, pending, p, left - {t})
    ensures (forall x <- ready :: x < |nodes|) && |ready| == |ready0| + 1 && |pending| == |pending0| + 1
  {
    hide NodeLinked;
    LinkReady(nodes0, words, names, ready0, pending0, p, left);
    var child := nodes0[p].next[t];
    var failure := FailureOf(nodes0, nodes0[p].failure, t, words);
    GotoLongest(nodes0, words, words[p][1..], nodes0[p].failure, t);
    LinkStep(nodes0, words, names, ready0, pending0, p, left, t, failure);
    nodes := nodes0[child := LinkedNode(nodes0[child], failure, nodes0[failure].outputs)];
    pending := pending0 + [child];
    ready := ready0 + {child};
  }

  // Every node gets its link after those that are less deep.
  method Link(nodes0: seq<Node>, ghost words: seq<Word>, ghost names: seq<Word>) returns (nodes: seq<Node>)
    requires Planted(nodes0, words, names)
    ensures AllLinked(nodes, words, names)
  {
    nodes := nodes0;
    var pending: seq<nat>;
    ghost var ready: set<nat>;
    pending, ready := QueueRoots(nodes, words, names);
    ghost var p: nat := 0;
    while pending != []
      invariant LinkedUpTo(nodes, words, names, ready) && p < |nodes| && Queued(nodes, words, ready, pending, p, {})
      invariant forall i :: 0 <= i < |pending| ==> |words[pending[i]]| <= |words[pending[0]]| + 1
      invariant forall x <- ready :: x < |nodes|
      decreases 2 * (|nodes| - |ready|) + |pending|
    {
      var parent := pending[0];
      NextParent(nodes, words, names, ready, pending, p);
      nodes, pending, ready := LinkChildren(nodes, pending[1..], parent, words, names, ready);
      SubsetSize(ready, |nodes|);
      p := parent;
    }
    forall v | 0 <= v < |nodes| ensures v in ready {
      ShallowReady(nodes, words, ready, pending, p, {}, |words[v]|, v);
    }
  }

  lemma NextParent(nodes: seq<Node>, words: seq<Word>, names: seq<Word>, ready: set<nat>, pending: seq<nat>, p: nat)
    requires LinkedUpTo(nodes, words, names, ready) && p < |nodes| && Queued(nodes, words, ready, pending, p, {}) && pending != []
    requires forall i :: 0 <= i < |pending| ==> |words[pending[i]]| <= |words[pending[0]]| + 1
    ensures Linking(nodes, words, names, ready, pending[1..], pending[0], nodes[pending[0]].next.Keys)
  {
    var q, rest := pending[0], pending[1..];
    assert forall i :: 0 <= i < |rest| ==> rest[i] == pending[i + 1];
    forall v | 0 <= v < |nodes|
      ensures Expanded(nodes, ready, v, if v == q then nodes[q].next.Keys else if v in ready && v !in rest then {} else nodes[v].next.Keys)
    {
      assert Expanded(nodes, ready, v, if v == p then {} else if v in ready && v !in pending then {} else nodes[v].next.Keys);
      assert v != q ==> (v in pending <==> v in rest);
    }
  }
}
