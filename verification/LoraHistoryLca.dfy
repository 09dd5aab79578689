/**
 The lowest common ancestor of two training runs in their history. A negative
 parent names a base model; base models and runs without a parent hang under 0.
 */
module LoraHistoryLca {
  import opened Wrappers
  import opened TreeSearch
  import opened TarjanSearches

  datatype Run = Run(id: int, parent: int)

  // ---- the history by ids -----------------------------------------------------------

  // The parent of an id: of a run what it says, of everything else 0.
  function Up(runs: seq<Run>, x: int): int {
    if runs == [] then 0 else if runs[0].id == x then runs[0].parent else Up(runs[1..], x)
  }

  function ClimbIds(runs: seq<Run>, x: int, k: nat): int
    decreases k
  {
    if k == 0 then x else ClimbIds(runs, Up(runs, x), k - 1)
  }

  ghost predicate Ancestor(runs: seq<Run>, a: int, x: int) {
    exists k: nat :: ClimbIds(runs, x, k) == a
  }

  predicate Known(runs: seq<Run>, x: int) {
    x == 0 || (exists r <- runs :: r.id == x) || (x < 0 && exists r <- runs :: r.parent == x)
  }

  predicate GoodIds(runs: seq<Run>) {
    && (forall r <- runs :: r.id > 0)
    && forall i, j :: 0 <= i < j < |runs| ==> runs[i].id != runs[j].id
  }

  predicate ParentsKnown(runs: seq<Run>) {
    forall r <- runs :: Known(runs, r.parent)
  }

  // No run is its own ancestor.
  ghost predicate Rooted(runs: seq<Run>) {
    forall r <- runs :: Ancestor(runs, 0, r.id)
  }

  ghost predicate WellFormed(runs: seq<Run>) {
    GoodIds(runs) && ParentsKnown(runs) && Rooted(runs)
  }

  ghost predicate IsLca(runs: seq<Run>, a: int, x: int, y: int) {
    && Ancestor(runs, a, x) && Ancestor(runs, a, y)
    && forall b :: Ancestor(runs, b, x) && Ancestor(runs, b, y) ==> Ancestor(runs, b, a)
  }

  // Some run trained a base model of its own.
  predicate Forest(runs: seq<Run>) {
    exists r <- runs :: r.parent < 0
  }

  // ---- the same by positions -----------------------------------------------------------

  // 0, then the runs, then the base models; every known id once.
  predicate Indexed(runs: seq<Run>, ids: seq<int>, index: map<int, nat>) {
    && |runs| < |ids| && ids[0] == 0 && (forall i :: 0 <= i < |runs| ==> ids[i + 1] == runs[i].id)
    && (forall i :: |runs| < i < |ids| ==> ids[i] < 0)
    && Paired(ids, index)
  }

  predicate Paired(ids: seq<int>, index: map<int, nat>) {
    && (forall i :: 0 <= i < |ids| ==> ids[i] in index && index[ids[i]] == i)
    && (forall x <- index :: index[x] < |ids| && ids[index[x]] == x)
  }

  function ParentAt(runs: seq<Run>, index: map<int, nat>, i: nat): nat {
    if 0 < i <= |runs| && runs[i - 1].parent in index then index[runs[i - 1].parent] else 0
  }

  function Par(runs: seq<Run>, ids: seq<int>, index: map<int, nat>): seq<nat> {
    seq(|ids|, i requires 0 <= i < |ids| => ParentAt(runs, index, i))
  }

  lemma {:induction false} UpOfRun(runs: seq<Run>, i: nat)
    requires GoodIds(runs) && i < |runs|
    ensures Up(runs, runs[i].id) == runs[i].parent
  {
    if i > 0 {
      assert runs[0].id != runs[i].id;
      UpOfRun(runs[1..], i - 1);
    }
  }

  lemma {:induction false} UpOfOther(runs: seq<Run>, x: int)
    requires forall r <- runs :: r.id != x
    ensures Up(runs, x) == 0
  {
    if runs != [] {
      assert runs[0] in runs;
      UpOfOther(runs[1..], x);
    }
  }

  lemma UpIsParent(runs: seq<Run>, ids: seq<int>, index: map<int, nat>, i: nat)
    requires GoodIds(runs) && Indexed(runs, ids, index) && i < |ids| && forall r <- runs :: r.parent in index
    ensures ParentAt(runs, index, i) < |ids| && Up(runs, ids[i]) == ids[ParentAt(runs, index, i)]
  {
    if 0 < i <= |runs| {
      assert ids[i - 1 + 1] == runs[i - 1].id && runs[i - 1] in runs;
      UpOfRun(runs, i - 1);
    } else {
      UpOfOther(runs, ids[i]);
    }
  }

  lemma ParIsParents(runs: seq<Run>, ids: seq<int>, index: map<int, nat>)
    requires Indexed(runs, ids, index)
    ensures Parents(Par(runs, ids, index))
  {
  }

  lemma {:induction false} SameClimb(runs: seq<Run>, ids: seq<int>, index: map<int, nat>, i: nat, k: nat)
    requires GoodIds(runs) && Indexed(runs, ids, index) && i < |ids| && (forall r <- runs :: r.parent in index)
    requires Parents(Par(runs, ids, index))
    ensures ids[Climb(Par(runs, ids, index), i, k)] == ClimbIds(runs, ids[i], k)
    decreases k
  {
    if k > 0 {
      UpIsParent(runs, ids, index, i);
      SameClimb(runs, ids, index, ParentAt(runs, index, i), k - 1);
    }
  }

  lemma SameAncestors(runs: seq<Run>, ids: seq<int>, index: map<int, nat>, i: nat, a: nat)
    requires GoodIds(runs) && Indexed(runs, ids, index) && i < |ids| && a < |ids| && (forall r <- runs :: r.parent in index)
    requires Parents(Par(runs, ids, index))
    ensures Above(Par(runs, ids, index), a, i) <==> Ancestor(runs, ids[a], ids[i])
  {
    var par := Par(runs, ids, index);
    if Above(par, a, i) {
      var k: nat :| Climb(par, i, k) == a;
      SameClimb(runs, ids, index, i, k);
    }
    if Ancestor(runs, ids[a], ids[i]) {
      var k: nat :| ClimbIds(runs, ids[i], k) == ids[a];
      SameClimb(runs, ids, index, i, k);
      assert index[ids[Climb(par, i, k)]] == index[ids[a]];
    }
  }

  // The lowest common ancestor by position is the one by id.
  lemma SameLowest(runs: seq<Run>, ids: seq<int>, index: map<int, nat>, a: nat, x: nat, y: nat)
    requires GoodIds(runs) && Indexed(runs, ids, index) && a < |ids| && x < |ids| && y < |ids| && (forall r <- runs :: r.parent in index)
    requires Parents(Par(runs, ids, index)) && IsLowest(Par(runs, ids, index), a, x, y)
    ensures IsLca(runs, ids[a], ids[x], ids[y])
  {
    var par := Par(runs, ids, index);
    SameAncestors(runs, ids, index, x, a);
    SameAncestors(runs, ids, index, y, a);
    forall b | Ancestor(runs, b, ids[x]) && Ancestor(runs, b, ids[y]) ensures Ancestor(runs, b, ids[a]) {
      var k: nat :| ClimbIds(runs, ids[x], k) == b;
      SameClimb(runs, ids, index, x, k);
      var at := Climb(par, x, k);
      SameAncestors(runs, ids, index, x, at);
      SameAncestors(runs, ids, index, y, at);
      SameAncestors(runs, ids, index, a, at);
    }
  }

  lemma SameRooted(runs: seq<Run>, ids: seq<int>, index: map<int, nat>)
    requires GoodIds(runs) && Indexed(runs, ids, index) && (forall r <- runs :: r.parent in index)
    requires Parents(Par(runs, ids, index))
    ensures Rooted(runs) <==> forall i :: 0 <= i < |ids| ==> Above(Par(runs, ids, index), 0, i)
  {
    var par := Par(runs, ids, index);
    forall i | 0 <= i < |runs| ensures Above(par, 0, i + 1) <==> Ancestor(runs, 0, runs[i].id) {
      SameAncestors(runs, ids, index, i + 1, 0);
    }
    forall i | 0 <= i < |ids| && !(0 < i <= |runs|) ensures Above(par, 0, i) {
      AboveSelf(par, i);
    }
    if Rooted(runs) {
      forall i | 0 <= i < |ids| ensures Above(par, 0, i) {
        if 0 < i <= |runs| {
          assert runs[i - 1] in runs;
          assert Above(par, 0, i - 1 + 1);
        }
      }
    }
    if forall i :: 0 <= i < |ids| ==> Above(par, 0, i) {
      forall r <- runs ensures Ancestor(runs, 0, r.id) {
        var i :| 0 <= i < |runs| && runs[i] == r;
        assert Above(par, 0, i + 1);
      }
    }
  }

  // ---- there is one ---------------------------------------------------------------------------

  lemma {:induction false} ClimbIdsSum(runs: seq<Run>, x: int, j: nat, k: nat)
    ensures ClimbIds(runs, x, j + k) == ClimbIds(runs, ClimbIds(runs, x, j), k)
    decreases j
  {
    if j > 0 {
      ClimbIdsSum(runs, Up(runs, x), j - 1, k);
    }
  }

  lemma {:induction false} RootClimb(runs: seq<Run>, k: nat)
    requires GoodIds(runs)
    ensures ClimbIds(runs, 0, k) == 0
    decreases k
  {
    if k > 0 {
      UpOfOther(runs, 0);
      RootClimb(runs, k - 1);
    }
  }

  // An id above itself by a detour comes back for ever.
  lemma {:induction false} ComesBack(runs: seq<Run>, x: int, period: nat, times: nat)
    requires ClimbIds(runs, x, period) == x
    ensures ClimbIds(runs, x, times * period) == x
    decreases times
  {
    if times > 0 {
      ComesBack(runs, x, period, times - 1);
      ClimbIdsSum(runs, x, (times - 1) * period, period);
      assert times * period == (times - 1) * period + period;
    }
  }

  lemma DetourIsRoot(runs: seq<Run>, x: int, period: nat)
    requires GoodIds(runs) && Ancestor(runs, 0, x) && period > 0 && ClimbIds(runs, x, period) == x
    ensures x == 0
  {
    var k: nat :| ClimbIds(runs, x, k) == 0;
    ComesBack(runs, x, period, k);
    assert k * period >= k by {
      assert k * period == k + k * (period - 1);
    }
    var rest := k * period - k;
    ClimbIdsSum(runs, x, k, rest);
    RootClimb(runs, rest);
  }

  // Two ids above each other are one.
  lemma AboveEachOther(runs: seq<Run>, a: int, b: int)
    requires GoodIds(runs) && Ancestor(runs, 0, a) && Ancestor(runs, 0, b) && Ancestor(runs, a, b) && Ancestor(runs, b, a)
    ensures a == b
  {
    var j: nat :| ClimbIds(runs, b, j) == a;
    var i: nat :| ClimbIds(runs, a, i) == b;
    ClimbIdsSum(runs, b, j, i);
    if j + i > 0 {
      DetourIsRoot(runs, b, j + i);
      RootClimb(runs, j);
    }
  }

  lemma LcaIsUnique(runs: seq<Run>, a: int, b: int, x: int, y: int)
    requires GoodIds(runs) && IsLca(runs, a, x, y) && IsLca(runs, b, x, y) && Ancestor(runs, 0, x) && Ancestor(runs, 0, y)
    ensures a == b
  {
    assert Ancestor(runs, 0, a) && Ancestor(runs, 0, b);
    AboveEachOther(runs, a, b);
  }

  // ---- the index, built -----------------------------------------------------------------------

  // Nothing when an id is not positive or comes twice.
  method IndexRuns(runs: seq<Run>) returns (built: Option<(seq<int>, map<int, nat>)>)
    ensures built.Some? <==> GoodIds(runs)
    ensures built.Some? ==>
              var (ids, index) := built.value;
              |ids| == |runs| + 1 && ids[0] == 0 && (forall i :: 0 <= i < |runs| ==> ids[i + 1] == runs[i].id) && Paired(ids, index)
  {
    var ids: seq<int> := [0];
    var index: map<int, nat> := map[0 := 0];
    for n := 0 to |runs|
      invariant |ids| == n + 1 && ids[0] == 0 && (forall i :: 0 <= i < n ==> ids[i + 1] == runs[i].id) && Paired(ids, index)
      invariant forall i :: 0 <= i < n ==> runs[i].id > 0
      invariant forall i, j :: 0 <= i < j < n ==> runs[i].id != runs[j].id
    {
      if runs[n].id <= 0 || runs[n].id in index {
        if runs[n].id > 0 {
          ghost var j := index[runs[n].id] - 1;
          assert ids[j + 1] == runs[n].id && 0 <= j < n;
          assert runs[j].id == runs[n].id;
        }
        assert runs[n] in runs;
        return None;
      }
      forall i | 0 <= i < n ensures runs[i].id != runs[n].id {
        assert ids[i + 1] in index;
      }
      index := index[runs[n].id := |ids|];
      ids := ids + [runs[n].id];
    }
    return Some((ids, index));
  }

  // The base models behind the runs, once each.
  method IndexModels(runs: seq<Run>, ids0: seq<int>, index0: map<int, nat>) returns (ids: seq<int>, index: map<int, nat>)
    requires GoodIds(runs) && |ids0| == |runs| + 1 && ids0[0] == 0 && (forall i :: 0 <= i < |runs| ==> ids0[i + 1] == runs[i].id)
    requires Paired(ids0, index0)
    ensures Indexed(runs, ids, index)
    ensures forall x :: x in index <==> Known(runs, x)
  {
    ids, index := ids0, index0;
    for n := 0 to |runs|
      invariant ids0 <= ids && (forall i :: |runs| < i < |ids| ==> ids[i] < 0) && Paired(ids, index)
      invariant forall i :: 0 <= i < n && runs[i].parent < 0 ==> runs[i].parent in index
      invariant forall i :: |runs| < i < |ids| ==> exists r <- runs :: r.parent == ids[i]
    {
      if runs[n].parent < 0 && runs[n].parent !in index {
        assert runs[n] in runs;
        index := index[runs[n].parent := |ids|];
        ids := ids + [runs[n].parent];
      }
    }
    forall x ensures x in index <==> Known(runs, x) {
      IndexedIsKnown(runs, ids, index, x);
    }
  }

  lemma IndexedIsKnown(runs: seq<Run>, ids: seq<int>, index: map<int, nat>, x: int)
    requires GoodIds(runs) && Indexed(runs, ids, index)
    requires forall i :: 0 <= i < |runs| && runs[i].parent < 0 ==> runs[i].parent in index
    requires forall i :: |runs| < i < |ids| ==> exists r <- runs :: r.parent == ids[i]
    ensures x in index <==> Known(runs, x)
  {
    if x in index {
      var i := index[x];
      if 0 < i <= |runs| {
        assert ids[i - 1 + 1] == runs[i - 1].id && runs[i - 1] in runs;
      }
    }
    if r :| r in runs && r.id == x {
      var i :| 0 <= i < |runs| && runs[i] == r;
      assert ids[i + 1] == x;
    }
    if r :| r in runs && r.parent == x && x < 0 {
      var i :| 0 <= i < |runs| && runs[i] == r;
      assert runs[i].parent in index;
    }
  }

  // ---- the children, listed -----------------------------------------------------------------------

  // The nodes listed so far are under their parents, once each.
  predicate Listed(par: seq<nat>, children: seq<seq<nat>>, listed: set<nat>) {
    && Parents(par) && |children| == |par|
    && (forall v, j :: 0 <= v < |par| && 0 <= j < |children[v]| ==>
          0 < children[v][j] < |par| && par[children[v][j]] == v && children[v][j] in listed)
    && (forall v, i, j :: 0 <= v < |par| && 0 <= i < j < |children[v]| ==> children[v][i] != children[v][j])
    && (forall x <- listed :: 0 < x < |par| && x in children[par[x]])
  }

  lemma OneMoreListed(par: seq<nat>, children: seq<seq<nat>>, listed: set<nat>, x: nat)
    requires Listed(par, children, listed) && 0 < x < |par| && x !in listed
    ensures Listed(par, children[par[x] := children[par[x]] + [x]], listed + {x})
  {
    var r := children[par[x] := children[par[x]] + [x]];
    forall y <- listed + {x} ensures 0 < y < |par| && y in r[par[y]] {
      if y == x {
        assert r[par[x]][|children[par[x]]|] == x;
      } else {
        assert y in children[par[y]];
      }
    }
  }

  // The base models hang under 0.
  method ListModels(runs: seq<Run>, ids: seq<int>, ghost par: seq<nat>) returns (children: seq<seq<nat>>, ghost listed: set<nat>)
    requires Parents(par) && |runs| < |ids| == |par| && forall i :: |runs| < i < |ids| ==> par[i] == 0
    ensures Listed(par, children, listed) && forall x :: x in listed <==> |runs| < x < |ids|
  {
    children, listed := seq(|ids|, i => []), {};
    for node := |runs| + 1 to |ids|
      invariant Listed(par, children, listed) && forall x :: x in listed <==> |runs| < x < node
    {
      OneMoreListed(par, children, listed, node);
      children := children[0 := children[0] + [node]];
      listed := listed + {node};
    }
  }

  // The base models and the first n runs are listed.
  ghost predicate Reached(listed: set<nat>, runs: nat, all: nat, n: nat) {
    forall x: nat :: x in listed <==> runs < x < all || 0 < x <= n
  }

  lemma NextReached(listed: set<nat>, runs: nat, all: nat, n: nat)
    requires Reached(listed, runs, all, n) && n < runs
    ensures n + 1 !in listed && Reached(listed + {n + 1}, runs, all, n + 1)
  {
  }

  // Nothing when a parent is unknown.
  method ListRuns(runs: seq<Run>, index: map<int, nat>, models: seq<seq<nat>>, ghost par: seq<nat>, ghost listed0: set<nat>)
    returns (children: Option<seq<seq<nat>>>)
    requires Listed(par, models, listed0) && Reached(listed0, |runs|, |par|, 0) && |runs| < |par|
    requires forall i :: 0 <= i < |runs| && runs[i].parent in index ==> index[runs[i].parent] == par[i + 1]
    ensures children.Some? <==> forall i :: 0 <= i < |runs| ==> runs[i].parent in index
    ensures children.Some? ==> ChildrenOf(par, children.value)
  {
    var lists: seq<seq<nat>> := models;
    ghost var listed: set<nat> := listed0;
    for n := 0 to |runs|
      invariant Listed(par, lists, listed) && Reached(listed, |runs|, |par|, n)
      invariant forall i :: 0 <= i < n ==> runs[i].parent in index
    {
      if runs[n].parent !in index {
        return None;
      }
      NextReached(listed, |runs|, |par|, n);
      lists := ListOne(par, lists, listed, n + 1, index[runs[n].parent]);
      listed := listed + {n + 1};
    }
    AllListed(par, lists, listed);
    return Some(lists);
  }

  method ListOne(ghost par: seq<nat>, children: seq<seq<nat>>, ghost listed: set<nat>, x: nat, parent: nat) returns (r: seq<seq<nat>>)
    requires Listed(par, children, listed) && 0 < x < |par| && x !in listed && parent == par[x]
    ensures Listed(par, r, listed + {x})
  {
    OneMoreListed(par, children, listed, x);
    r := children[parent := children[parent] + [x]];
  }

  lemma AllListed(par: seq<nat>, children: seq<seq<nat>>, listed: set<nat>)
    requires Listed(par, children, listed) && forall x: nat :: 0 < x < |par| ==> x in listed
    ensures ChildrenOf(par, children)
  {
  }

  method ListChildren(runs: seq<Run>, ids: seq<int>, index: map<int, nat>) returns (built: Option<seq<seq<nat>>>)
    requires Indexed(runs, ids, index)
    ensures built.Some? <==> forall r <- runs :: r.parent in index
    ensures built.Some? ==> Parents(Par(runs, ids, index)) && ChildrenOf(Par(runs, ids, index), built.value)
  {
    ParIsParents(runs, ids, index);
    ghost var par := Par(runs, ids, index);
    var models, listed := ListModels(runs, ids, par);
    built := ListRuns(runs, index, models, par, listed);
    assert forall i :: 0 <= i < |runs| ==> runs[i] in runs;
  }

  // ---- the whole --------------------------------------------------------------------------------------

  // The lowest common ancestor of two known ids of a history that makes sense;
  // nothing if it does not, or when they have no base model in common.
  method TarjanLca(runs: seq<Run>, firstId: int, secondId: int) returns (common: Option<int>)
    ensures common.Some? <==>
              && WellFormed(runs) && Known(runs, firstId) && Known(runs, secondId)
              && !(Forest(runs) && IsLca(runs, 0, firstId, secondId))
    ensures common.Some? ==> IsLca(runs, common.value, firstId, secondId)
  {
    var built := IndexRuns(runs);
    if built.None? {
      return None;
    }
    var (ids0, index0) := built.value;
    var ids, index := IndexModels(runs, ids0, index0);
    if firstId !in index || secondId !in index {
      return None;
    }
    var children := ListChildren(runs, ids, index);
    if children.None? {
      var r :| r in runs && r.parent !in index;
      assert !Known(runs, r.parent);
      return None;
    }
    var answer, visited := SearchAll(children.value, index[firstId], index[secondId], Par(runs, ids, index));
    SameRooted(runs, ids, index);
    if visited != |ids| || answer.None? {
      return None;
    }
    var a := answer.value;
    SameLowest(runs, ids, index, a, index[firstId], index[secondId]);
    RootedIds(runs, firstId);
    RootedIds(runs, secondId);
    var forest := exists r <- runs :: r.parent < 0;
    if forest && ids[a] == 0 {
      return None;
    }
    if IsLca(runs, 0, firstId, secondId) {
      LcaIsUnique(runs, 0, ids[a], firstId, secondId);
    }
    return Some(ids[a]);
  }

  lemma RootedIds(runs: seq<Run>, x: int)
    requires WellFormed(runs) && Known(runs, x)
    ensures Ancestor(runs, 0, x)
  {
    if r :| r in runs && r.id == x {
      assert Ancestor(runs, 0, r.id);
    } else {
      UpOfOther(runs, x);
      assert ClimbIds(runs, x, 1) == 0;
    }
  }
}
