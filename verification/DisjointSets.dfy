/**
 Union-find with path compression and union by size, as the training history
 uses it. A set is named by its root.
 */
module DisjointSets {
  // Sizes strictly grow towards the root, so climbing ends.
  predicate Forest(parent: seq<nat>, size: seq<nat>, top: nat) {
    && |parent| == |size|
    && (forall i :: 0 <= i < |parent| ==> parent[i] < |parent| && 1 <= size[i] <= top)
    && (forall i :: 0 <= i < |parent| ==> parent[i] != i ==> size[i] < size[parent[i]])
  }

  function Root(parent: seq<nat>, size: seq<nat>, top: nat, x: nat): (r: nat)
    requires Forest(parent, size, top) && x < |parent|
    ensures r < |parent| && parent[r] == r && size[x] <= size[r] && (parent[x] != x ==> size[x] < size[r])
    decreases top - size[x]
  {
    if parent[x] == x then x else Root(parent, size, top, parent[x])
  }

  // The name of the set of every node.
  function Roots(parent: seq<nat>, size: seq<nat>, top: nat): (r: seq<nat>)
    requires Forest(parent, size, top)
    ensures |r| == |parent| && forall x :: 0 <= x < |r| ==> r[x] < |r| && parent[r[x]] == r[x] == Root(parent, size, top, x)
    ensures forall x :: 0 <= x < |r| ==> r[r[x]] == r[x]
  {
    seq(|parent|, x requires 0 <= x < |parent| => Root(parent, size, top, x))
  }

  // The sets of left and right are one, named like one of them; the others stay.
  predicate Joined(was: seq<nat>, now: seq<nat>, left: nat, right: nat)
    requires left < |was| && right < |was|
  {
    && |now| == |was| && (now[left] == was[left] || now[left] == was[right])
    && forall y :: 0 <= y < |was| ==> now[y] == if was[y] == was[left] || was[y] == was[right] then now[left] else was[y]
  }

  // Hanging a node under the root of its set changes no set.
  lemma Compressed(parent: seq<nat>, size: seq<nat>, top: nat, x: nat)
    requires Forest(parent, size, top) && x < |parent|
    ensures var after := parent[x := Root(parent, size, top, x)];
            Forest(after, size, top) && Roots(after, size, top) == Roots(parent, size, top)
  {
    var root := Root(parent, size, top, x);
    var after := parent[x := root];
    forall y | 0 <= y < |parent| ensures Root(after, size, top, y) == Root(parent, size, top, y) {
      CompressedRoot(parent, size, top, x, y);
    }
  }

  lemma {:induction false} CompressedRoot(parent: seq<nat>, size: seq<nat>, top: nat, x: nat, y: nat)
    requires Forest(parent, size, top) && x < |parent| && y < |parent|
    requires Forest(parent[x := Root(parent, size, top, x)], size, top)
    ensures Root(parent[x := Root(parent, size, top, x)], size, top, y) == Root(parent, size, top, y)
    decreases top - size[y]
  {
    if y != x && parent[y] != y {
      CompressedRoot(parent, size, top, x, parent[y]);
    }
  }

  // One root hung under another that is not smaller joins the two sets.
  lemma Linked(parent: seq<nat>, size: seq<nat>, top: nat, left: nat, right: nat)
    requires Forest(parent, size, top) && left < |parent| && right < |parent| && left != right
    requires parent[left] == left && parent[right] == right && size[right] <= size[left]
    ensures var p, s := parent[right := left], size[left := size[left] + size[right]];
            && Forest(p, s, 2 * top)
            && forall y :: 0 <= y < |parent| ==>
                 Roots(p, s, 2 * top)[y] == if Roots(parent, size, top)[y] == right then left else Roots(parent, size, top)[y]
  {
    var p, s := parent[right := left], size[left := size[left] + size[right]];
    forall y | 0 <= y < |parent|
      ensures Root(p, s, 2 * top, y) == if Root(parent, size, top, y) == right then left else Root(parent, size, top, y)
    {
      LinkedRoot(parent, size, top, left, right, y);
    }
  }

  lemma {:induction false} LinkedRoot(parent: seq<nat>, size: seq<nat>, top: nat, left: nat, right: nat, y: nat)
    requires Forest(parent, size, top) && left < |parent| && right < |parent| && left != right && y < |parent|
    requires parent[left] == left && parent[right] == right
    requires Forest(parent[right := left], size[left := size[left] + size[right]], 2 * top)
    ensures Root(parent[right := left], size[left := size[left] + size[right]], 2 * top, y) ==
            if Root(parent, size, top, y) == right then left else Root(parent, size, top, y)
    decreases top - size[y]
  {
    if parent[y] != y {
      LinkedRoot(parent, size, top, left, right, parent[y]);
    }
  }

  // One of the two roots names both sets.
  predicate RootsJoined(was: seq<nat>, now: seq<nat>, l: nat, r: nat) {
    && |now| == |was|
    && ((forall y :: 0 <= y < |was| ==> now[y] == if was[y] == r then l else was[y])
        || (forall y :: 0 <= y < |was| ==> now[y] == if was[y] == l then r else was[y]))
  }

  lemma RootsAreJoined(was: seq<nat>, now: seq<nat>, left: nat, right: nat, l: nat, r: nat)
    requires left < |was| && right < |was| && l == was[left] && r == was[right] && RootsJoined(was, now, l, r)
    ensures Joined(was, now, left, right)
  {
  }

  class DisjointSets {
    const parent: array<nat>
    const size: array<nat>
    ghost var top: nat

    ghost predicate Valid()
      reads this, parent, size
    {
      parent != size && Forest(parent[..], size[..], top)
    }

    ghost function Sets(): (r: seq<nat>)
      requires Valid()
      ensures |r| == parent.Length && forall x :: 0 <= x < |r| ==> r[x] < |r| && r[r[x]] == r[x]
      reads this, parent, size
    {
      Roots(parent[..], size[..], top)
    }

    // Every node by itself.
    constructor (n: nat)
      ensures Valid() && fresh(parent) && fresh(size) && parent.Length == n
      ensures Sets() == seq(n, x => x)
    {
      parent := new nat[n](i => i);
      size := new nat[n](i => 1);
      top := 1;
      new;
      assert Sets() == seq(n, x => x);
    }

    method Climb(x: nat) returns (root: nat)
      requires Valid() && x < parent.Length
      ensures root < parent.Length && parent[root] == root && root == Sets()[x] == Sets()[root]
    {
      root := x;
      while parent[root] != root
        invariant root < parent.Length && Sets()[root] == Sets()[x]
        decreases top - size[root]
      {
        root := parent[root];
      }
    }

    // The node is hung under the root of its set; the node it was under is next.
    method Hang(node: nat, root: nat) returns (next: nat)
      requires Valid() && node < parent.Length && root == Sets()[node] && parent[node] != node
      modifies parent
      ensures Valid() && Sets() == old(Sets()) && next < parent.Length && Sets()[next] == root
      ensures size[node] < size[next] <= top
    {
      next := parent[node];
      assert Sets()[next] == Sets()[node];
      Compressed(parent[..], size[..], top, node);
      ghost var was := parent[..];
      parent[node] := root;
      assert parent[..] == was[node := root];
    }

    // The root of x. Every node on the way is hung under it; no set changes.
    method Find(x: nat) returns (root: nat)
      requires Valid() && x < parent.Length
      modifies parent
      ensures Valid() && Sets() == old(Sets()) && root < parent.Length && root == Sets()[x] == Sets()[root]
    {
      root := Climb(x);
      var node: nat := x;
      while parent[node] != node
        invariant Valid() && node < parent.Length && Sets() == old(Sets()) && Sets()[node] == root
        decreases top - size[node]
      {
        node := Hang(node, root);
      }
    }

    // Hangs the root of one set under the root of another that is not smaller.
    method Link(l: nat, r: nat)
      requires Valid() && l < parent.Length && r < parent.Length && l != r
      requires parent[l] == l && parent[r] == r && size[r] <= size[l]
      modifies this`top, parent, size
      ensures Valid()
      ensures forall y :: 0 <= y < parent.Length ==> Sets()[y] == if old(Sets())[y] == r then l else old(Sets())[y]
    {
      Linked(parent[..], size[..], top, l, r);
      ghost var p, s := parent[..], size[..];
      parent[r] := l;
      size[l] := size[l] + size[r];
      top := 2 * top;
      assert parent[..] == p[r := l] && size[..] == s[l := s[l] + s[r]];
    }

    // Joins two sets by their roots; the smaller one hangs under the other.
    method UniteRoots(left: nat, right: nat)
      requires Valid() && left < parent.Length && right < parent.Length && left != right
      requires parent[left] == left && parent[right] == right
      modifies this`top, parent, size
      ensures Valid()
      ensures RootsJoined(old(Sets()), Sets(), left, right)
    {
      if size[left] < size[right] {
        Link(right, left);
      } else {
        Link(left, right);
      }
    }

    // Joins the sets of left and right.
    method Unite(left: nat, right: nat)
      requires Valid() && left < parent.Length && right < parent.Length
      modifies this`top, parent, size
      ensures Valid()
      ensures Joined(old(Sets()), Sets(), left, right)
    {
      var l := Find(left);
      var r := Find(right);
      if l == r {
        return;
      }
      UniteRoots(l, r);
      RootsAreJoined(old(Sets()), Sets(), left, right, l, r);
    }
  }
}
