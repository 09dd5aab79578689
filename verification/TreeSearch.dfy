/**
 Tarjan's offline search on nodes 0 to n - 1, every node under its parent, node
 0 the root. What holds between two steps of the depth-first search.
 */
module TreeSearch {
  import opened Wrappers
  import opened Counting
  import opened DisjointSets

  // ---- ancestors ----------------------------------------------------------------------

  predicate Parents(par: seq<nat>) {
    && par != [] && par[0] == 0
    && forall x :: 0 <= x < |par| ==> par[x] < |par|
  }

  function Climb(par: seq<nat>, x: nat, k: nat): (r: nat)
    requires Parents(par) && x < |par|
    ensures r < |par|
    decreases k
  {
    if k == 0 then x else Climb(par, par[x], k - 1)
  }

  ghost predicate Above(par: seq<nat>, a: nat, x: nat)
    requires Parents(par) && x < |par|
  {
    exists k: nat :: Climb(par, x, k) == a
  }

  // The deepest of the common ancestors.
  ghost predicate IsLowest(par: seq<nat>, a: nat, x: nat, y: nat)
    requires Parents(par) && x < |par| && y < |par|
  {
    && a < |par| && Above(par, a, x) && Above(par, a, y)
    && forall b: nat :: b < |par| && Above(par, b, x) && Above(par, b, y) ==> Above(par, b, a)
  }

  lemma {:induction false} ClimbSum(par: seq<nat>, x: nat, j: nat, k: nat)
    requires Parents(par) && x < |par|
    ensures Climb(par, x, j + k) == Climb(par, Climb(par, x, j), k)
    decreases j
  {
    if j > 0 {
      ClimbSum(par, par[x], j - 1, k);
    }
  }

  lemma AboveTransitive(par: seq<nat>, a: nat, b: nat, x: nat)
    requires Parents(par) && x < |par| && b < |par| && Above(par, a, b) && Above(par, b, x)
    ensures Above(par, a, x)
  {
    var j: nat :| Climb(par, x, j) == b;
    var k: nat :| Climb(par, b, k) == a;
    ClimbSum(par, x, j, k);
  }

  lemma AboveSelf(par: seq<nat>, x: nat)
    requires Parents(par) && x < |par|
    ensures Above(par, x, x) && Above(par, par[x], x)
  {
    assert Climb(par, x, 0) == x;
    assert Climb(par, x, 1) == par[x];
  }

  // ---- the search -----------------------------------------------------------------------

  datatype Frame = Frame(node: nat, nextChild: nat)

  // Each node but the root is listed once, under its parent.
  predicate ChildrenOf(par: seq<nat>, children: seq<seq<nat>>)
    requires Parents(par)
  {
    && |children| == |par|
    && (forall v, j :: 0 <= v < |par| && 0 <= j < |children[v]| ==> 0 < children[v][j] < |par| && par[children[v][j]] == v)
    && (forall v, i, j :: 0 <= v < |par| && 0 <= i < j < |children[v]| ==> children[v][i] != children[v][j])
    && (forall x :: 0 < x < |par| ==> x in children[par[x]])
  }

  // at[x]: how deep on the stack the nearest ancestor of a found node x is.
  // progress[v]: how many children of v were found.
  datatype Search = Search(stack: seq<Frame>, unseen: set<nat>, at: seq<nat>, progress: seq<nat>, black: seq<bool>,
                           roots: seq<nat>, labels: seq<nat>)

  predicate Sized(par: seq<nat>, s: Search) {
    && |s.at| == |s.progress| == |s.black| == |s.roots| == |s.labels| == |par|
    && (forall x <- s.unseen :: x < |par|)
    && (forall x :: 0 <= x < |par| ==> s.roots[x] < |par|)
  }

  predicate Seen(s: Search, x: nat) {
    x !in s.unseen
  }

  // The stack is a branch from the root down.
  predicate Branch(par: seq<nat>, s: Search)
    requires Parents(par) && Sized(par, s)
  {
    && (s.stack != [] ==> s.stack[0].node == 0)
    && (forall i :: 0 <= i < |s.stack| ==>
          var v := s.stack[i].node; v < |par| && Seen(s, v) && !s.black[v] && s.progress[v] == s.stack[i].nextChild)
    && (forall i :: 0 < i < |s.stack| ==> s.stack[i].node != 0 && par[s.stack[i].node] == s.stack[i - 1].node)
  }

  // What is found is on the stack or done; a node done has all its children found.
  predicate Progress(par: seq<nat>, children: seq<seq<nat>>, s: Search)
    requires Parents(par) && ChildrenOf(par, children) && Sized(par, s)
  {
    && Seen(s, 0)
    && (forall x :: 0 <= x < |par| && Seen(s, x) && !s.black[x] ==> exists i :: 0 <= i < |s.stack| && s.stack[i].node == x)
    && (forall x :: 0 <= x < |par| && s.black[x] ==> Seen(s, x) && s.progress[x] == |children[x]|)
    && (forall v :: 0 <= v < |par| ==> s.progress[v] <= |children[v]| && (s.progress[v] > 0 ==> Seen(s, v)))
    && (forall v, j :: 0 <= v < |par| && 0 <= j < |children[v]| ==> (Seen(s, children[v][j]) <==> j < s.progress[v]))
  }

  // The nearest ancestor on the stack.
  ghost predicate Nearest(par: seq<nat>, s: Search, x: nat)
    requires Parents(par) && Sized(par, s) && Branch(par, s) && x < |par|
  {
    && s.at[x] < |s.stack| && Above(par, s.stack[s.at[x]].node, x)
    && forall j :: s.at[x] < j < |s.stack| ==> !Above(par, s.stack[j].node, x)
  }

  predicate Positions(par: seq<nat>, s: Search)
    requires Parents(par) && Sized(par, s) && Branch(par, s)
  {
    forall i :: 0 <= i < |s.stack| ==> s.at[s.stack[i].node] == i
  }

  ghost predicate Owners(par: seq<nat>, s: Search)
    requires Parents(par) && Sized(par, s) && Branch(par, s)
  {
    && (forall x :: 0 <= x < |par| && Seen(s, x) && s.stack != [] ==> Nearest(par, s, x))
    && (forall x :: 0 <= x < |par| && Seen(s, x) ==> Above(par, 0, x))
  }

  // The sets: found nodes are together when their nearest ancestors are the
  // same, and their set is labelled with it; the others are alone.
  predicate Labelled(par: seq<nat>, s: Search)
    requires Sized(par, s)
  {
    && (forall x :: 0 <= x < |par| ==> s.roots[s.roots[x]] == s.roots[x])
    && (forall x :: 0 <= x < |par| && !Seen(s, x) ==> s.roots[x] == x)
    && (forall x :: 0 <= x < |par| && Seen(s, x) ==> Seen(s, s.roots[x]))
    && (s.stack != [] ==>
          && (forall x, y :: 0 <= x < |par| && 0 <= y < |par| && Seen(s, x) && Seen(s, y) ==>
                (s.roots[x] == s.roots[y] <==> s.at[x] == s.at[y]))
          && (forall x :: 0 <= x < |par| && Seen(s, x) ==> s.at[x] < |s.stack| && s.labels[s.roots[x]] == s.stack[s.at[x]].node))
  }

  ghost predicate Inv(par: seq<nat>, children: seq<seq<nat>>, s: Search) {
    && Parents(par) && ChildrenOf(par, children) && Sized(par, s)
    && Branch(par, s) && Positions(par, s) && Progress(par, children, s) && Owners(par, s) && Labelled(par, s)
  }

  // ---- the branch ---------------------------------------------------------------------------

  // The ancestors of a node on the stack are the nodes under it.
  lemma {:induction false} StackClimb(par: seq<nat>, s: Search, i: nat, k: nat)
    requires Parents(par) && Sized(par, s) && Branch(par, s) && i < |s.stack|
    ensures Climb(par, s.stack[i].node, k) == s.stack[if k <= i then i - k else 0].node
    decreases k
  {
    if k > 0 {
      if i > 0 {
        StackClimb(par, s, i - 1, k - 1);
      } else {
        StackClimb(par, s, 0, k - 1);
      }
    }
  }

  lemma StackAbove(par: seq<nat>, s: Search, i: nat, j: nat)
    requires Parents(par) && Sized(par, s) && Branch(par, s) && i <= j < |s.stack|
    ensures Above(par, s.stack[i].node, s.stack[j].node)
  {
    StackClimb(par, s, j, j - i);
  }

  // ---- the answer -----------------------------------------------------------------------------

  // When the search leaves one node after the other was done, the label of the
  // other's set is their lowest common ancestor.
  lemma LabelIsLowest(par: seq<nat>, children: seq<seq<nat>>, s: Search, y: nat)
    requires Inv(par, children, s) && s.stack != [] && y < |par| && Seen(s, y)
    ensures var x := s.stack[|s.stack| - 1].node;
            IsLowest(par, s.labels[s.roots[y]], x, y) && IsLowest(par, s.labels[s.roots[y]], y, x)
  {
    var top := |s.stack| - 1;
    var x, a := s.stack[top].node, s.stack[s.at[y]].node;
    assert Nearest(par, s, y);
    StackAbove(par, s, s.at[y], top);
    forall b: nat | b < |par| && Above(par, b, x) && Above(par, b, y) ensures Above(par, b, a) {
      var k: nat :| Climb(par, x, k) == b;
      StackClimb(par, s, top, k);
      var i := if k <= top then top - k else 0;
      StackAbove(par, s, i, s.at[y]);
    }
  }

  // ---- finding a child --------------------------------------------------------------------------

  // The node on top has a child left.
  predicate CanDescend(children: seq<seq<nat>>, s: Search) {
    && s.stack != []
    && var f := s.stack[|s.stack| - 1];
    f.node < |children| && f.nextChild < |children[f.node]|
  }

  // The next child c of the node v on top is new.
  predicate NewChild(par: seq<nat>, children: seq<seq<nat>>, s: Search, v: nat, n: nat, c: nat)
    requires Parents(par) && ChildrenOf(par, children) && Sized(par, s)
  {
    && s.stack != [] && s.stack[|s.stack| - 1] == Frame(v, n)
    && v < |par| && n < |children[v]| && c == children[v][n] && 0 < c < |par| && par[c] == v && v != c
    && Seen(s, v) && !Seen(s, c) && !s.black[c] && s.progress[c] == 0 && s.progress[v] == n && s.roots[c] == c
  }

  // It goes on the stack, in a set of its own.
  function Descended(s: Search, v: nat, n: nat, c: nat): Search
    requires s.stack != [] && v < |s.progress| && c < |s.at| && c < |s.labels|
  {
    s.(stack := s.stack[..|s.stack| - 1] + [Frame(v, n + 1), Frame(c, 0)], unseen := s.unseen - {c},
       at := s.at[c := |s.stack|], progress := s.progress[v := n + 1], labels := s.labels[c := c])
  }

  // A found node has a found parent.
  lemma ParentSeen(par: seq<nat>, children: seq<seq<nat>>, s: Search, x: nat)
    requires Inv(par, children, s) && x < |par| && Seen(s, x)
    ensures Seen(s, par[x])
  {
    if x > 0 {
      var j :| 0 <= j < |children[par[x]]| && children[par[x]][j] == x;
      assert j < s.progress[par[x]];
    }
  }

  lemma {:induction false} AncestorsSeen(par: seq<nat>, s: Search, x: nat, k: nat)
    requires Parents(par) && x < |par| && Seen(s, x)
    requires forall y :: 0 <= y < |par| && Seen(s, y) ==> Seen(s, par[y])
    ensures Seen(s, Climb(par, x, k))
    decreases k
  {
    if k > 0 {
      AncestorsSeen(par, s, par[x], k - 1);
    }
  }

  lemma ChildIsNew(par: seq<nat>, children: seq<seq<nat>>, s: Search) returns (v: nat, n: nat, c: nat)
    requires Inv(par, children, s) && CanDescend(children, s)
    ensures NewChild(par, children, s, v, n, c)
    ensures forall x :: 0 <= x < |par| && Seen(s, x) ==> !Above(par, c, x)
  {
    var f := s.stack[|s.stack| - 1];
    v, n, c := f.node, f.nextChild, children[f.node][f.nextChild];
    assert Seen(s, c) <==> n < s.progress[v];
    forall x | 0 <= x < |par| && Seen(s, x) ensures Seen(s, par[x]) {
      ParentSeen(par, children, s, x);
    }
    forall x | 0 <= x < |par| && Seen(s, x) ensures !Above(par, c, x) {
      if k: nat :| Climb(par, x, k) == c {
        AncestorsSeen(par, s, x, k);
      }
    }
  }

  lemma DescendBranch(par: seq<nat>, children: seq<seq<nat>>, s: Search, v: nat, n: nat, c: nat)
    requires Parents(par) && ChildrenOf(par, children) && Sized(par, s) && Branch(par, s) && Positions(par, s)
    requires NewChild(par, children, s, v, n, c)
    ensures var r := Descended(s, v, n, c); Sized(par, r) && Branch(par, r) && Positions(par, r)
  {
    var r, top := Descended(s, v, n, c), |s.stack| - 1;
    assert s.at[s.stack[top].node] == top;
    forall i | 0 <= i < |r.stack|
      ensures var x := r.stack[i].node;
              x < |par| && Seen(r, x) && !r.black[x] && r.progress[x] == r.stack[i].nextChild && r.at[x] == i
      ensures i == 0 ==> r.stack[i].node == 0
      ensures i > 0 ==> r.stack[i].node != 0 && par[r.stack[i].node] == r.stack[i - 1].node
    {
      if i < top {
        assert r.stack[i] == s.stack[i] && s.at[s.stack[i].node] == i;
      } else if i == top {
        assert r.stack[i] == Frame(v, n + 1);
        assert i > 0 ==> r.stack[i - 1] == s.stack[i - 1];
      } else {
        assert r.stack[i] == Frame(c, 0) && r.stack[i - 1] == Frame(v, n + 1);
      }
    }
  }

  lemma DescendProgress(par: seq<nat>, children: seq<seq<nat>>, s: Search, v: nat, n: nat, c: nat)
    requires Parents(par) && ChildrenOf(par, children) && Sized(par, s) && Progress(par, children, s)
    requires NewChild(par, children, s, v, n, c) && Sized(par, Descended(s, v, n, c))
    ensures Progress(par, children, Descended(s, v, n, c))
  {
    var r, top := Descended(s, v, n, c), |s.stack| - 1;
    forall x | 0 <= x < |par| && Seen(r, x) && !r.black[x] ensures exists i :: 0 <= i < |r.stack| && r.stack[i].node == x {
      if x == c {
        assert r.stack[top + 1].node == x;
      } else {
        var i :| 0 <= i < |s.stack| && s.stack[i].node == x;
        assert r.stack[i].node == x;
      }
    }
    forall w, j | 0 <= w < |par| && 0 <= j < |children[w]| ensures Seen(r, children[w][j]) <==> j < r.progress[w] {
      assert Seen(s, children[w][j]) <==> j < s.progress[w];
      assert children[w][j] == c ==> w == v && j == n;
    }
  }

  // One more node on the branch, above no found node but itself.
  lemma LongerOwners(par: seq<nat>, s: Search, r: Search, v: nat, c: nat)
    requires Parents(par) && Sized(par, s) && Branch(par, s) && Owners(par, s) && Sized(par, r) && Branch(par, r)
    requires s.stack != [] && c < |par| && v < |par| && par[c] == v && Seen(s, v) && r.unseen == s.unseen - {c}
    requires |r.stack| == |s.stack| + 1 && r.stack[|s.stack|].node == c
    requires forall j :: 0 <= j < |s.stack| ==> r.stack[j].node == s.stack[j].node
    requires forall x :: 0 <= x < |par| ==> r.at[x] == if x == c then |s.stack| else s.at[x]
    requires forall x :: 0 <= x < |par| && Seen(s, x) ==> !Above(par, c, x)
    ensures Owners(par, r)
  {
    NewIsReached(par, v, c);
    forall x | 0 <= x < |par| && Seen(r, x) ensures Nearest(par, r, x) && Above(par, 0, x) {
      if x != c {
        assert Seen(s, x) && Nearest(par, s, x);
        NearestStays(par, s, r, x);
      }
    }
  }

  lemma LongerStack(s: Search, v: nat, n: nat, c: nat)
    requires s.stack != [] && v < |s.progress| && c < |s.at| && c < |s.labels| && s.stack[|s.stack| - 1].node == v
    ensures var r := Descended(s, v, n, c);
            && |r.stack| == |s.stack| + 1 && r.stack[|s.stack|].node == c
            && forall j :: 0 <= j < |s.stack| ==> r.stack[j].node == s.stack[j].node
  {
  }

  // The same branch with one more node that is not above x.
  lemma NearestStays(par: seq<nat>, s: Search, r: Search, x: nat)
    requires Parents(par) && Sized(par, s) && Branch(par, s) && Sized(par, r) && Branch(par, r) && x < |par| && Nearest(par, s, x)
    requires |r.stack| == |s.stack| + 1 && (forall j :: 0 <= j < |s.stack| ==> r.stack[j].node == s.stack[j].node)
    requires r.at[x] == s.at[x] && !Above(par, r.stack[|s.stack|].node, x)
    ensures Nearest(par, r, x)
  {
  }

  lemma NewIsReached(par: seq<nat>, v: nat, c: nat)
    requires Parents(par) && c < |par| && par[c] == v && Above(par, 0, v)
    ensures Above(par, c, c) && Above(par, 0, c)
  {
    AboveSelf(par, c);
    AboveTransitive(par, 0, v, c);
  }

  lemma DescendLabelled(par: seq<nat>, children: seq<seq<nat>>, s: Search, v: nat, n: nat, c: nat)
    requires Parents(par) && ChildrenOf(par, children) && Sized(par, s) && Labelled(par, s)
    requires NewChild(par, children, s, v, n, c) && Sized(par, Descended(s, v, n, c))
    ensures Labelled(par, Descended(s, v, n, c))
  {
    var r, top := Descended(s, v, n, c), |s.stack| - 1;
    assert forall j :: 0 <= j <= top ==> r.stack[j].node == s.stack[j].node;
    forall x | 0 <= x < |par| && Seen(r, x) ensures r.at[x] < |r.stack| && r.labels[r.roots[x]] == r.stack[r.at[x]].node {
      if x != c {
        assert Seen(s, x) && Seen(s, s.roots[x]);
      }
    }
  }

  // A new child on the stack: everything still holds.
  lemma DescendKeeps(par: seq<nat>, children: seq<seq<nat>>, s: Search) returns (v: nat, n: nat, c: nat)
    requires Inv(par, children, s) && CanDescend(children, s)
    ensures NewChild(par, children, s, v, n, c) && Inv(par, children, Descended(s, v, n, c))
  {
    v, n, c := ChildIsNew(par, children, s);
    DescendBranch(par, children, s, v, n, c);
    DescendProgress(par, children, s, v, n, c);
    LongerStack(s, v, n, c);
    LongerOwners(par, s, Descended(s, v, n, c), v, c);
    DescendLabelled(par, children, s, v, n, c);
  }

  // ---- leaving a node ------------------------------------------------------------------------------

  // The node on top, which has no child left, and the node under it, which its
  // set is joined with.
  predicate Leaving(par: seq<nat>, children: seq<seq<nat>>, s: Search, node: nat, parent: nat, roots: seq<nat>)
    requires Parents(par) && ChildrenOf(par, children) && Sized(par, s)
  {
    && s.stack != [] && node < |par| && parent < |par|
    && s.stack[|s.stack| - 1].node == node && s.progress[node] == |children[node]|
    && if |s.stack| == 1 then roots == s.roots && parent == node
       else
         && s.stack[|s.stack| - 2].node == parent && Joined(s.roots, roots, parent, node)
         && (forall x :: 0 <= x < |roots| ==> roots[x] < |roots| && roots[roots[x]] == roots[x])
  }

  // The joined set keeps the parent's label.
  function Retreated(s: Search, node: nat, parent: nat, roots: seq<nat>): Search
    requires s.stack != [] && node < |s.black| && parent < |roots| && roots[parent] < |s.labels|
  {
    var top := |s.stack| - 1;
    if top == 0 then s.(stack := [], black := s.black[node := true])
    else
      s.(stack := s.stack[..top], black := s.black[node := true], roots := roots,
         at := seq(|s.at|, x requires 0 <= x < |s.at| => if s.at[x] == top then top - 1 else s.at[x]),
         labels := s.labels[roots[parent] := parent])
  }

  predicate CanRetreat(children: seq<seq<nat>>, s: Search) {
    && s.stack != []
    && var f := s.stack[|s.stack| - 1];
    f.node < |children| && f.nextChild >= |children[f.node]|
  }

  lemma RetreatBranch(par: seq<nat>, children: seq<seq<nat>>, s: Search, node: nat, parent: nat, roots: seq<nat>)
    requires Parents(par) && ChildrenOf(par, children) && Sized(par, s) && Branch(par, s) && Positions(par, s)
    requires Leaving(par, children, s, node, parent, roots)
    ensures var r := Retreated(s, node, parent, roots); Sized(par, r) && Branch(par, r) && Positions(par, r)
  {
    var r, top := Retreated(s, node, parent, roots), |s.stack| - 1;
    assert s.at[s.stack[top].node] == top;
    forall i | 0 <= i < |r.stack|
      ensures var x := r.stack[i].node;
              x < |par| && Seen(r, x) && !r.black[x] && r.progress[x] == r.stack[i].nextChild && r.at[x] == i
      ensures i == 0 ==> r.stack[i].node == 0
      ensures i > 0 ==> r.stack[i].node != 0 && par[r.stack[i].node] == r.stack[i - 1].node
    {
      assert r.stack[i] == s.stack[i] && s.at[s.stack[i].node] == i;
      assert i > 0 ==> r.stack[i - 1] == s.stack[i - 1];
    }
  }

  lemma RetreatProgress(par: seq<nat>, children: seq<seq<nat>>, s: Search, node: nat, parent: nat, roots: seq<nat>)
    requires Parents(par) && ChildrenOf(par, children) && Sized(par, s) && Branch(par, s) && Progress(par, children, s)
    requires Leaving(par, children, s, node, parent, roots) && Sized(par, Retreated(s, node, parent, roots))
    ensures Progress(par, children, Retreated(s, node, parent, roots))
  {
    var r, top := Retreated(s, node, parent, roots), |s.stack| - 1;
    forall x | 0 <= x < |par| && Seen(r, x) && !r.black[x] ensures exists i :: 0 <= i < |r.stack| && r.stack[i].node == x {
      var i :| 0 <= i < |s.stack| && s.stack[i].node == x;
      assert i != top;
      assert r.stack[i].node == x;
    }
  }

  lemma RetreatOwners(par: seq<nat>, children: seq<seq<nat>>, s: Search, node: nat, parent: nat, roots: seq<nat>)
    requires Parents(par) && ChildrenOf(par, children) && Sized(par, s) && Branch(par, s) && Owners(par, s)
    requires Leaving(par, children, s, node, parent, roots)
    requires Sized(par, Retreated(s, node, parent, roots)) && Branch(par, Retreated(s, node, parent, roots))
    ensures Owners(par, Retreated(s, node, parent, roots))
  {
    var r, top := Retreated(s, node, parent, roots), |s.stack| - 1;
    if top > 0 {
      forall x | 0 <= x < |par| && Seen(r, x) ensures Nearest(par, r, x) {
        assert Nearest(par, s, x);
        assert forall i :: 0 <= i < |r.stack| ==> r.stack[i] == s.stack[i];
        if s.at[x] == top {
          AboveSelf(par, node);
          AboveTransitive(par, parent, node, x);
        }
      }
    }
  }

  lemma RetreatLabelled(par: seq<nat>, children: seq<seq<nat>>, s: Search, node: nat, parent: nat, roots: seq<nat>)
    requires Parents(par) && ChildrenOf(par, children) && Sized(par, s) && Branch(par, s) && Positions(par, s) && Labelled(par, s)
    requires Leaving(par, children, s, node, parent, roots) && Sized(par, Retreated(s, node, parent, roots))
    ensures Labelled(par, Retreated(s, node, parent, roots))
  {
    var r, top := Retreated(s, node, parent, roots), |s.stack| - 1;
    if top > 0 {
      assert s.at[s.stack[top].node] == top && s.at[s.stack[top - 1].node] == top - 1;
      RetreatLabels(par, s, r, node, parent);
    }
  }

  // The sets before the node on top, node, is left; parent is under it.
  predicate AtTop(par: seq<nat>, s: Search, node: nat, parent: nat)
    requires Sized(par, s)
  {
    && |s.stack| >= 2 && node < |par| && parent < |par| && Seen(s, node) && Seen(s, parent)
    && s.at[node] == |s.stack| - 1 && s.at[parent] == |s.stack| - 2 && s.stack[|s.stack| - 2].node == parent
  }

  // After leaving it: the node's set is the parent's.
  predicate Left(par: seq<nat>, s: Search, r: Search, node: nat, parent: nat)
    requires Sized(par, s) && Sized(par, r) && AtTop(par, s, node, parent)
  {
    && Joined(s.roots, r.roots, parent, node) && r.unseen == s.unseen && r.stack == s.stack[..|s.stack| - 1]
    && r.labels == s.labels[r.roots[parent] := parent]
    && (forall x :: 0 <= x < |par| ==> r.at[x] == (if s.at[x] == |s.stack| - 1 then |s.stack| - 2 else s.at[x]))
    && (forall x :: 0 <= x < |par| ==> r.roots[r.roots[x]] == r.roots[x])
  }

  lemma LeftSeen(par: seq<nat>, s: Search, r: Search, node: nat, parent: nat, x: nat)
    requires Sized(par, s) && Sized(par, r) && Labelled(par, s) && AtTop(par, s, node, parent) && Left(par, s, r, node, parent)
    requires x < |par| && Seen(s, x)
    ensures r.roots[x] == if s.at[x] >= |s.stack| - 2 then r.roots[parent] else s.roots[x]
    ensures Seen(s, r.roots[x]) && r.at[x] < |r.stack| && r.labels[r.roots[x]] == r.stack[r.at[x]].node
    ensures s.at[x] < |s.stack| - 2 ==> r.roots[x] != r.roots[parent]
  {
    assert s.roots[x] == s.roots[node] <==> s.at[x] == s.at[node];
    assert s.roots[x] == s.roots[parent] <==> s.at[x] == s.at[parent];
    assert s.labels[s.roots[x]] == s.stack[s.at[x]].node;
  }

  lemma RetreatLabels(par: seq<nat>, s: Search, r: Search, node: nat, parent: nat)
    requires Sized(par, s) && Sized(par, r) && Labelled(par, s) && AtTop(par, s, node, parent) && Left(par, s, r, node, parent)
    ensures Labelled(par, r)
  {
    forall x | 0 <= x < |par| && !Seen(r, x) ensures r.roots[x] == x {
      assert s.roots[x] == x && Seen(s, s.roots[node]) && Seen(s, s.roots[parent]);
    }
    forall x | 0 <= x < |par| && Seen(r, x)
      ensures Seen(r, r.roots[x]) && r.at[x] < |r.stack| && r.labels[r.roots[x]] == r.stack[r.at[x]].node
    {
      LeftSeen(par, s, r, node, parent, x);
    }
    forall x, y | 0 <= x < |par| && 0 <= y < |par| && Seen(r, x) && Seen(r, y)
      ensures r.roots[x] == r.roots[y] <==> r.at[x] == r.at[y]
    {
      LeftSeen(par, s, r, node, parent, x);
      LeftSeen(par, s, r, node, parent, y);
      assert s.roots[x] == s.roots[y] <==> s.at[x] == s.at[y];
    }
  }

  // A node done: everything still holds.
  lemma RetreatKeeps(par: seq<nat>, children: seq<seq<nat>>, s: Search, node: nat, parent: nat, roots: seq<nat>)
    requires Inv(par, children, s) && Leaving(par, children, s, node, parent, roots)
    ensures Inv(par, children, Retreated(s, node, parent, roots))
  {
    RetreatBranch(par, children, s, node, parent, roots);
    RetreatProgress(par, children, s, node, parent, roots);
    RetreatOwners(par, children, s, node, parent, roots);
    RetreatLabelled(par, children, s, node, parent, roots);
  }

  // ---- the end -----------------------------------------------------------------------------------------

  // With the stack empty exactly what the root is above is found.
  lemma {:induction false} ReachedIsSeen(par: seq<nat>, children: seq<seq<nat>>, s: Search, x: nat, k: nat)
    requires Inv(par, children, s) && s.stack == [] && x < |par| && Climb(par, x, k) == 0
    ensures Seen(s, x) && s.black[x]
    decreases k
  {
    if k > 0 && x > 0 {
      ReachedIsSeen(par, children, s, par[x], k - 1);
      var j :| 0 <= j < |children[par[x]]| && children[par[x]][j] == x;
      assert j < s.progress[par[x]];
    }
  }

  lemma FoundIsReached(par: seq<nat>, children: seq<seq<nat>>, s: Search, x: nat)
    requires Inv(par, children, s) && s.stack == [] && x < |par|
    ensures s.black[x] <==> Above(par, 0, x)
  {
    if Above(par, 0, x) {
      var k: nat :| Climb(par, x, k) == 0;
      ReachedIsSeen(par, children, s, x, k);
    }
  }

  function Started(par: seq<nat>): Search
    requires Parents(par)
  {
    var n := |par|;
    Search([Frame(0, 0)], Below(n) - {0}, seq(n, x => 0), seq(n, x => 0), seq(n, x => false), seq(n, x => x), seq(n, x => 0))
  }

  lemma StartedOk(par: seq<nat>, children: seq<seq<nat>>, labels: seq<nat>)
    requires Parents(par) && ChildrenOf(par, children) && |labels| == |par| && labels[0] == 0
    ensures Inv(par, children, Started(par).(labels := labels))
  {
    AboveSelf(par, 0);
    var s := Started(par).(labels := labels);
    assert Nearest(par, s, 0);
    assert s.stack[0].node == 0;
  }
}
