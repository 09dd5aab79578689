/** Tarjan's depth-first search as it runs. */
module TarjanSearches {
  import opened Wrappers
  import opened Counting
  import opened DisjointSets
  import opened TreeSearch

  // visited counts the nodes done; the answer is there once both nodes are.
  ghost predicate Answered(par: seq<nat>, first: nat, second: nat, black: seq<bool>, done: set<nat>, visited: nat, answer: Option<nat>)
    requires Parents(par) && first < |par| && second < |par|
  {
    && |black| == |par| && (forall x <- done :: x < |par|) && (forall x :: 0 <= x < |par| ==> (black[x] <==> x in done))
    && visited == |done|
    && if answer.Some? then IsLowest(par, answer.value, first, second) else !(black[first] && black[second])
  }

  // Either node's label, for whichever of the two is on top.
  lemma LabelsAreLowest(par: seq<nat>, children: seq<seq<nat>>, s: Search, first: nat, second: nat)
    requires Inv(par, children, s) && s.stack != [] && first < |par| && second < |par|
    ensures var top := s.stack[|s.stack| - 1].node;
            && (top == first && (s.black[second] || second == top) ==> IsLowest(par, s.labels[s.roots[second]], first, second))
            && (top == second && (s.black[first] || first == top) ==> IsLowest(par, s.labels[s.roots[first]], first, second))
  {
    if Seen(s, second) {
      LabelIsLowest(par, children, s, second);
    }
    if Seen(s, first) {
      LabelIsLowest(par, children, s, first);
    }
  }

  lemma OneMoreDone(par: seq<nat>, first: nat, second: nat, black: seq<bool>, done: set<nat>, visited: nat, answer: Option<nat>,
                    node: nat, after: Option<nat>)
    requires Parents(par) && first < |par| && second < |par| && node < |par|
    requires Answered(par, first, second, black, done, visited, answer) && !black[node]
    requires var now := black[node := true];
             if (node == first && now[second]) || (node == second && now[first])
             then after.Some? && IsLowest(par, after.value, first, second) else after == answer
    ensures Answered(par, first, second, black[node := true], done + {node}, visited + 1, after)
  {
  }

  // The arrays are apart, and hold what the search says.
  ghost predicate Holds(s: Search, sets: DisjointSets, ancestor: array<nat>, black: array<bool>, n: nat)
    reads sets, sets.parent, sets.size, ancestor, black
  {
    && ancestor != sets.parent && ancestor != sets.size && n == ancestor.Length == black.Length == sets.parent.Length
    && sets.Valid() && s.roots == sets.Sets() && s.labels == ancestor[..] && s.black == black[..]
  }

  // Labels the set of x.
  method Relabel(sets: DisjointSets, ancestor: array<nat>, x: nat, node: nat)
    requires ancestor != sets.parent && ancestor != sets.size && ancestor.Length == sets.parent.Length
    requires sets.Valid() && x < sets.parent.Length
    modifies sets.parent, ancestor
    ensures sets.Valid() && sets.Sets() == old(sets.Sets()) && ancestor[..] == old(ancestor[..])[sets.Sets()[x] := node]
  {
    ghost var roots, labels := sets.Sets(), ancestor[..];
    var root := sets.Find(x);
    assert ancestor[..] == labels;
    ancestor[root] := node;
    assert sets.Sets() == roots;
    assert ancestor[..] == labels[root := node];
  }

  // The child c of the node v on top goes on the stack, in a set of its own.
  method Descend(v: nat, n: nat, c: nat, stack: seq<Frame>, sets: DisjointSets, ancestor: array<nat>, black: array<bool>,
                 ghost s: Search) returns (next: seq<Frame>)
    requires Holds(s, sets, ancestor, black, ancestor.Length) && stack == s.stack && stack != []
    requires v < |s.progress| && c < |s.at| && c < ancestor.Length && s.roots[c] == c
    modifies sets.parent, ancestor
    ensures Holds(Descended(s, v, n, c), sets, ancestor, black, ancestor.Length) && next == Descended(s, v, n, c).stack
  {
    next := stack[..|stack| - 1] + [Frame(v, n + 1)];
    Relabel(sets, ancestor, c, c);
    next := next + [Frame(c, 0)];
    assert next == stack[..|stack| - 1] + [Frame(v, n + 1), Frame(c, 0)];
  }

  // The answer, once the node on top is done and the other one is.
  method Answer(node: nat, first: nat, second: nat, sets: DisjointSets, ancestor: array<nat>, black: array<bool>, known: Option<nat>,
                ghost s: Search, ghost n: nat) returns (answer: Option<nat>)
    requires Holds(s, sets, ancestor, black, n) && node < n && first < n && second < n
    modifies sets.parent, black
    ensures Holds(s.(black := s.black[node := true]), sets, ancestor, black, n)
    ensures var now := s.black[node := true];
            answer == if node == first && now[second] then Some(s.labels[s.roots[second]])
                      else if node == second && now[first] then Some(s.labels[s.roots[first]])
                      else known
  {
    answer := known;
    Blacken(node, sets, ancestor, black, s, n);
    ghost var now := s.(black := s.black[node := true]);
    if node == first && black[second] {
      var shown := ShownAt(second, sets, ancestor, black, now, n);
      answer := Some(shown);
    } else if node == second && black[first] {
      var shown := ShownAt(first, sets, ancestor, black, now, n);
      answer := Some(shown);
    }
  }

  method Blacken(node: nat, sets: DisjointSets, ancestor: array<nat>, black: array<bool>, ghost s: Search, ghost n: nat)
    requires Holds(s, sets, ancestor, black, n) && node < n
    modifies black
    ensures Holds(s.(black := s.black[node := true]), sets, ancestor, black, n)
  {
    ghost var roots, labels := sets.Sets(), ancestor[..];
    black[node] := true;
    assert sets.Sets() == roots && ancestor[..] == labels && black[..] == s.black[node := true];
  }

  // The label of the set of x.
  method LabelOf(sets: DisjointSets, ancestor: array<nat>, x: nat) returns (node: nat)
    requires ancestor != sets.parent && ancestor != sets.size && ancestor.Length == sets.parent.Length
    requires sets.Valid() && x < ancestor.Length
    modifies sets.parent
    ensures sets.Valid() && sets.Sets() == old(sets.Sets()) && node == ancestor[sets.Sets()[x]]
  {
    var root := sets.Find(x);
    node := ancestor[root];
  }

  // The label of the set of x, which the search state knows.
  method ShownAt(x: nat, sets: DisjointSets, ancestor: array<nat>, black: array<bool>, ghost s: Search, ghost n: nat)
    returns (node: nat)
    requires Holds(s, sets, ancestor, black, n) && x < n
    modifies sets.parent
    ensures Holds(s, sets, ancestor, black, n) && node == s.labels[s.roots[x]]
  {
    node := LabelOf(sets, ancestor, x);
  }

  // The set of the node joins its parent's, which keeps its label.
  method Leave(node: nat, parent: nat, sets: DisjointSets, ancestor: array<nat>)
    requires ancestor != sets.parent && ancestor != sets.size && ancestor.Length == sets.parent.Length
    requires sets.Valid() && node < ancestor.Length && parent < ancestor.Length
    modifies sets, sets.parent, sets.size, ancestor
    ensures sets.Valid() && Joined(old(sets.Sets()), sets.Sets(), parent, node)
    ensures ancestor[..] == old(ancestor[..])[sets.Sets()[parent] := parent]
  {
    ghost var labels := ancestor[..];
    sets.Unite(parent, node);
    assert ancestor[..] == labels;
    Relabel(sets, ancestor, parent, parent);
  }

  // The node on top leaves the stack.
  method Retreat(node: nat, parent: nat, stack: seq<Frame>, sets: DisjointSets, ancestor: array<nat>, black: array<bool>,
                 ghost s: Search) returns (next: seq<Frame>, ghost roots: seq<nat>)
    requires stack == s.stack && stack != [] && node < ancestor.Length && parent < ancestor.Length && node < |s.black|
    requires Holds(s.(black := s.black[node := true]), sets, ancestor, black, ancestor.Length)
    requires |stack| > 1 ==> stack[|stack| - 2].node == parent
    modifies sets, sets.parent, sets.size, ancestor
    ensures |roots| == ancestor.Length == |s.labels| && roots[parent] < |s.labels|
    ensures forall x :: 0 <= x < |roots| ==> roots[x] < |roots| && roots[roots[x]] == roots[x]
    ensures if |stack| == 1 then roots == s.roots else Joined(s.roots, roots, parent, node)
    ensures Holds(Retreated(s, node, parent, roots), sets, ancestor, black, ancestor.Length)
    ensures next == Retreated(s, node, parent, roots).stack
  {
    ghost var marked := black[..];
    next := stack[..|stack| - 1];
    if next != [] {
      Leave(node, parent, sets, ancestor);
    }
    assert black[..] == marked;
    roots := sets.Sets();
  }

  method StepDown(children: seq<seq<nat>>, stack: seq<Frame>, sets: DisjointSets, ancestor: array<nat>, black: array<bool>,
                  ghost par: seq<nat>, ghost s: Search) returns (next: seq<Frame>, ghost r: Search)
    requires Inv(par, children, s) && Holds(s, sets, ancestor, black, |par|) && stack == s.stack && CanDescend(children, s)
    modifies sets.parent, ancestor
    ensures Inv(par, children, r) && Holds(r, sets, ancestor, black, |par|) && next == r.stack
    ensures |r.unseen| < |s.unseen| && r.black == s.black
  {
    ghost var v, n, c := DescendKeeps(par, children, s);
    var f := stack[|stack| - 1];
    next := Descend(f.node, f.nextChild, children[f.node][f.nextChild], stack, sets, ancestor, black, s);
    r := Descended(s, v, n, c);
    FewerUnseen(s, v, n, c);
  }

  lemma FewerUnseen(s: Search, v: nat, n: nat, c: nat)
    requires s.stack != [] && v < |s.progress| && c < |s.at| && c < |s.labels| && !Seen(s, c)
    ensures |Descended(s, v, n, c).unseen| < |s.unseen| && Descended(s, v, n, c).black == s.black
  {
  }

  // The node on top, which has no child left, and the node under it.
  lemma TopLeaves(par: seq<nat>, children: seq<seq<nat>>, s: Search, node: nat, parent: nat)
    requires Inv(par, children, s) && CanRetreat(children, s) && node == s.stack[|s.stack| - 1].node
    requires parent == if |s.stack| > 1 then s.stack[|s.stack| - 2].node else node
    ensures node < |par| && parent < |par| && !s.black[node] && s.progress[node] == |children[node]|
  {
  }

  method StepUp(children: seq<seq<nat>>, first: nat, second: nat, stack: seq<Frame>, sets: DisjointSets, ancestor: array<nat>,
                black: array<bool>, known: Option<nat>, ghost par: seq<nat>, ghost s: Search, ghost done: set<nat>, ghost visited: nat)
    returns (next: seq<Frame>, answer: Option<nat>, ghost r: Search, ghost node: nat)
    requires Inv(par, children, s) && Holds(s, sets, ancestor, black, |par|) && stack == s.stack && CanRetreat(children, s)
    requires first < |par| && second < |par| && Answered(par, first, second, s.black, done, visited, known)
    modifies sets, sets.parent, sets.size, ancestor, black
    ensures Inv(par, children, r) && Holds(r, sets, ancestor, black, |par|) && next == r.stack
    ensures |next| < |stack| && r.unseen == s.unseen
    ensures Answered(par, first, second, r.black, done + {node}, visited + 1, answer)
  {
    var top := stack[|stack| - 1].node;
    var parent := if |stack| > 1 then stack[|stack| - 2].node else top;
    node := top;
    TopLeaves(par, children, s, top, parent);
    answer := Answer(top, first, second, sets, ancestor, black, known, s, |par|);
    AnswerIsLowest(par, children, s, first, second, done, visited, known, top, answer);
    ghost var roots;
    next, roots := Retreat(top, parent, stack, sets, ancestor, black, s);
    RetreatKeeps(par, children, s, top, parent, roots);
    r := Retreated(s, top, parent, roots);
  }

  lemma AnswerIsLowest(par: seq<nat>, children: seq<seq<nat>>, s: Search, first: nat, second: nat, done: set<nat>, visited: nat,
                       known: Option<nat>, node: nat, answer: Option<nat>)
    requires Inv(par, children, s) && s.stack != [] && node == s.stack[|s.stack| - 1].node && !s.black[node]
    requires first < |par| && second < |par| && Answered(par, first, second, s.black, done, visited, known)
    requires var now := s.black[node := true];
             answer == if node == first && now[second] then Some(s.labels[s.roots[second]])
                       else if node == second && now[first] then Some(s.labels[s.roots[first]])
                       else known
    ensures Answered(par, first, second, s.black[node := true], done + {node}, visited + 1, answer)
  {
    LabelsAreLowest(par, children, s, first, second);
    OneMoreDone(par, first, second, s.black, done, visited, known, node, answer);
  }

  method Begin(children: seq<seq<nat>>, ghost par: seq<nat>)
    returns (sets: DisjointSets, ancestor: array<nat>, black: array<bool>, ghost s: Search)
    requires Parents(par) && ChildrenOf(par, children)
    ensures Inv(par, children, s) && Holds(s, sets, ancestor, black, |par|) && s.stack == [Frame(0, 0)]
    ensures s.black == seq(|par|, x => false)
    ensures fresh(sets) && fresh(sets.parent) && fresh(sets.size) && fresh(ancestor) && fresh(black)
  {
    sets := new DisjointSets(|children|);
    ancestor := new nat[|children|](i => 0);
    black := new bool[|children|](i => false);
    s := Started(par).(labels := ancestor[..]);
    StartedOk(par, children, ancestor[..]);
  }

  // Down to the next child, or up when there is none left.
  method Step(children: seq<seq<nat>>, first: nat, second: nat, stack: seq<Frame>, sets: DisjointSets, ancestor: array<nat>,
              black: array<bool>, known: Option<nat>, visited: nat, ghost par: seq<nat>, ghost s: Search, ghost done: set<nat>)
    returns (next: seq<Frame>, answer: Option<nat>, count: nat, ghost r: Search, ghost settled: set<nat>)
    requires Inv(par, children, s) && Holds(s, sets, ancestor, black, |par|) && stack == s.stack && stack != []
    requires first < |par| && second < |par| && Answered(par, first, second, s.black, done, visited, known)
    modifies sets, sets.parent, sets.size, ancestor, black
    ensures Inv(par, children, r) && Holds(r, sets, ancestor, black, |par|) && next == r.stack
    ensures Answered(par, first, second, r.black, settled, count, answer)
    ensures |r.unseen| < |s.unseen| || (r.unseen == s.unseen && |next| < |stack|)
  {
    var f := stack[|stack| - 1];
    answer, count, settled := known, visited, done;
    TopIsNode(par, children, s);
    if f.nextChild < |children[f.node]| {
      next, r := StepDown(children, stack, sets, ancestor, black, par, s);
    } else {
      ghost var node;
      next, answer, r, node := StepUp(children, first, second, stack, sets, ancestor, black, known, par, s, done, visited);
      count, settled := visited + 1, done + {node};
    }
  }

  lemma TopIsNode(par: seq<nat>, children: seq<seq<nat>>, s: Search)
    requires Inv(par, children, s) && s.stack != []
    ensures s.stack[|s.stack| - 1].node < |children|
  {
  }

  // Searches from the root. The answer is there once both nodes are done.
  method SearchAll(children: seq<seq<nat>>, first: nat, second: nat, ghost par: seq<nat>) returns (answer: Option<nat>, visited: nat)
    requires Parents(par) && ChildrenOf(par, children) && first < |par| && second < |par|
    ensures visited <= |par| && (visited == |par| <==> forall x :: 0 <= x < |par| ==> Above(par, 0, x))
    ensures answer.Some? ==> IsLowest(par, answer.value, first, second)
    ensures visited == |par| ==> answer.Some?
  {
    var sets, ancestor, black, s := Begin(children, par);
    var stack := [Frame(0, 0)];
    answer, visited := None, 0;
    ghost var done: set<nat> := {};
    while stack != []
      invariant Inv(par, children, s) && Holds(s, sets, ancestor, black, |par|) && stack == s.stack
      invariant Answered(par, first, second, s.black, done, visited, answer)
      invariant fresh(sets) && fresh(sets.parent) && fresh(sets.size) && fresh(ancestor) && fresh(black)
      decreases |s.unseen|, |stack|
    {
      stack, answer, visited, s, done := Step(children, first, second, stack, sets, ancestor, black, answer, visited, par, s, done);
    }
    AllDone(par, children, s, done);
  }

  lemma AllDone(par: seq<nat>, children: seq<seq<nat>>, s: Search, done: set<nat>)
    requires Inv(par, children, s) && s.stack == []
    requires (forall x <- done :: x < |par|) && (forall x :: 0 <= x < |par| ==> (s.black[x] <==> x in done))
    ensures |done| <= |par| && (|done| == |par| <==> forall x :: 0 <= x < |par| ==> Above(par, 0, x))
    ensures |done| == |par| ==> forall x :: 0 <= x < |par| ==> s.black[x]
  {
    forall x | 0 <= x < |par| ensures s.black[x] <==> Above(par, 0, x) {
      FoundIsReached(par, children, s, x);
    }
    SubsetSize(done, |par|);
  }
}
