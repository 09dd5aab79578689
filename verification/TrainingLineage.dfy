/**
 The training runs of the conversation database: which commits a run may
 train on, and what is kept of the runs a run continues.
 */
module TrainingLineage {
  import opened Wrappers

  // legacy: it is not known whether the commit was trained on before runs were recorded.
  datatype Commit = Commit(eventId: string, pending: bool, legacy: bool)

  // parent: the run this one continues, or 0.
  datatype Run = Run(parent: nat, fingerprint: string, revision: string, recordCount: nat, cumulative: nat)

  // links: which run trained on which commit. The last numbers given out are never given again.
  datatype Database = Database(commits: map<nat, Commit>, runs: map<nat, Run>, links: set<(nat, nat)>,
                               lastCommit: nat, lastRun: nat)

  const EMPTY := Database(map[], map[], {}, 0, 0)

  // A run and the runs it continues, the newest first.
  function Lineage(runs: map<nat, Run>, id: nat): seq<nat> {
    if id !in runs then []
    else if runs[id].parent < id then [id] + Lineage(runs, runs[id].parent)
    else [id]
  }

  function LinkedTo(db: Database, run: nat): set<nat> {
    set l <- db.links | l.0 == run :: l.1
  }

  predicate Eligible(db: Database, base: nat, commit: nat) {
    && commit in db.commits && db.commits[commit].pending && !db.commits[commit].legacy
    && forall r <- Lineage(db.runs, base) :: (r, commit) !in db.links
  }

  predicate HasEvent(db: Database, commit: nat, eventId: string) {
    commit in db.commits && db.commits[commit].eventId == eventId
  }

  predicate IsFingerprint(text: string) {
    |text| == 64 && forall c <- text :: '0' <= c <= '9' || 'a' <= c <= 'f'
  }

  // The run fits the one it continues. sound: the columns not modelled pass their own checks.
  predicate Acceptable(db: Database, run: Run, sound: bool) {
    && (run.parent != 0 ==> run.parent in db.runs && db.runs[run.parent].fingerprint == run.fingerprint
                            && db.runs[run.parent].revision == run.revision)
    && run.recordCount > 0 && run.cumulative == ParentCount(db, run.parent) + run.recordCount
    && IsFingerprint(run.fingerprint) && sound
  }

  function ParentCount(db: Database, parent: nat): nat {
    if parent in db.runs then db.runs[parent].cumulative else 0
  }

  // The commits the events name, in order, if each may be trained on and none is named twice.
  ghost predicate Names(db: Database, base: nat, events: seq<string>, commits: seq<nat>) {
    && |commits| == |events|
    && (forall i :: 0 <= i < |events| ==> HasEvent(db, commits[i], events[i]) && Eligible(db, base, commits[i]))
    && (forall i, j :: 0 <= i < j < |events| ==> commits[i] != commits[j])
  }

  function WithRun(db: Database, run: Run): Database {
    db.(runs := db.runs[db.lastRun + 1 := run], lastRun := db.lastRun + 1)
  }

  function WithLinks(db: Database, run: nat, commits: seq<nat>): Database {
    db.(links := db.links + (set c <- commits :: (run, c)))
  }

  // A completed run: recorded as the next one, and linked to the commits it trained on.
  ghost predicate Completes(db: Database, run: Run, sound: bool, events: seq<string>, next: Database) {
    && Acceptable(db, run, sound) && run.recordCount == |events|
    && exists commits :: Names(db, run.parent, events, commits) && next == WithLinks(WithRun(db, run), db.lastRun + 1, commits)
  }

  // ---- what else happens to the database ------------------------------------------------------

  datatype Step =
    | Add(eventId: string, legacy: bool)
    | Exclude(eventIds: set<string>)
    | Delete(eventId: string)
    | Reset
    | Complete(run: Run, sound: bool, events: seq<string>)

  function Without(db: Database, gone: set<nat>): Database {
    db.(commits := db.commits - gone, links := set l <- db.links | l.1 !in gone)
  }

  // Deleting a commit deletes its links. A run that cannot complete changes nothing.
  ghost predicate Next(db: Database, step: Step, next: Database) {
    match step
    case Add(e, legacy) =>
      next == if exists c :: HasEvent(db, c, e) then db
              else db.(commits := db.commits[db.lastCommit + 1 := Commit(e, true, legacy)], lastCommit := db.lastCommit + 1)
    case Exclude(es) =>
      next == db.(commits := map c <- db.commits ::
        if db.commits[c].eventId in es then db.commits[c].(pending := false) else db.commits[c])
    case Delete(e) => next == Without(db, set c <- db.commits | db.commits[c].eventId == e && db.commits[c].pending)
    case Reset => next == Without(db, db.commits.Keys)
    case Complete(run, sound, events) =>
      Completes(db, run, sound, events, next) || (next == db && !exists n :: Completes(db, run, sound, events, n))
  }

  ghost predicate Reached(dbs: seq<Database>, steps: seq<Step>) {
    && |dbs| == |steps| + 1 && dbs[0] == EMPTY
    && forall i :: 0 <= i < |steps| ==> Next(dbs[i], steps[i], dbs[i + 1])
  }

  // ---- what every step keeps --------------------------------------------------------------------

  ghost predicate RunsOk(db: Database) {
    forall r <- db.runs :: var run := db.runs[r];
      && 0 < r <= db.lastRun && run.parent < r && (run.parent != 0 ==> run.parent in db.runs)
      && (run.parent != 0 ==> db.runs[run.parent].fingerprint == run.fingerprint)
      && run.cumulative == ParentCount(db, run.parent) + run.recordCount
  }

  ghost predicate LinksOk(db: Database) {
    && (forall l <- db.links :: l.0 in db.runs && l.1 in db.commits)
    && (forall r <- db.runs :: |LinkedTo(db, r)| <= db.runs[r].recordCount)
    && (forall r <- db.runs, a <- Lineage(db.runs, db.runs[r].parent) :: LinkedTo(db, r) !! LinkedTo(db, a))
  }

  ghost predicate CommitsOk(db: Database) {
    && (forall c <- db.commits :: 0 < c <= db.lastCommit)
    && (forall c <- db.commits, d <- db.commits :: db.commits[c].eventId == db.commits[d].eventId ==> c == d)
  }

  ghost predicate Inv(db: Database) {
    RunsOk(db) && LinksOk(db) && CommitsOk(db)
  }

  // Adding a run leaves every older lineage as it was.
  lemma {:induction false} OldLineages(runs: map<nat, Run>, next: map<nat, Run>, added: nat, id: nat)
    requires next.Keys == runs.Keys + {added} && added !in runs && forall r <- runs :: next[r] == runs[r] && r < added
    requires id < added
    ensures Lineage(next, id) == Lineage(runs, id)
    decreases id
  {
    if id in runs && runs[id].parent < id {
      OldLineages(runs, next, added, runs[id].parent);
    }
  }

  lemma {:induction false} LineageIsOlder(runs: map<nat, Run>, id: nat)
    ensures forall a <- Lineage(runs, id) :: a in runs && a <= id
    decreases id
  {
    if id in runs && runs[id].parent < id {
      LineageIsOlder(runs, runs[id].parent);
    }
  }

  lemma FewerLinks(db: Database, next: Database)
    requires LinksOk(db) && next.runs == db.runs && next.links <= db.links
    requires forall l <- next.links :: l.1 in next.commits
    ensures LinksOk(next)
  {
    forall r <- db.runs ensures LinkedTo(next, r) <= LinkedTo(db, r) && |LinkedTo(next, r)| <= |LinkedTo(db, r)| {
      SubsetIsSmaller(LinkedTo(next, r), LinkedTo(db, r));
    }
    forall r <- db.runs, a <- Lineage(db.runs, db.runs[r].parent) ensures LinkedTo(next, r) !! LinkedTo(next, a) {
      assert LinkedTo(next, a) <= LinkedTo(db, a);
    }
  }

  lemma {:induction false} SubsetIsSmaller(a: set<nat>, b: set<nat>)
    requires a <= b
    ensures |a| <= |b|
    decreases |a|
  {
    if x :| x in a {
      SubsetIsSmaller(a - {x}, b - {x});
    }
  }

  lemma WithoutKeeps(db: Database, gone: set<nat>)
    requires Inv(db)
    ensures Inv(Without(db, gone))
  {
    FewerLinks(db, Without(db, gone));
  }

  lemma RunAdded(db: Database, run: Run, sound: bool)
    requires RunsOk(db) && Acceptable(db, run, sound)
    ensures RunsOk(WithRun(db, run))
  {
    var next := WithRun(db, run);
    forall r <- next.runs ensures var x := next.runs[r];
      && 0 < r <= next.lastRun && x.parent < r && (x.parent != 0 ==> x.parent in next.runs)
      && (x.parent != 0 ==> next.runs[x.parent].fingerprint == x.fingerprint)
      && x.cumulative == ParentCount(next, x.parent) + x.recordCount
    {
      if r in db.runs {
        assert ParentCount(next, db.runs[r].parent) == ParentCount(db, db.runs[r].parent);
      } else {
        assert ParentCount(next, run.parent) == ParentCount(db, run.parent);
      }
    }
  }

  function Elements(s: seq<nat>): set<nat> {
    set c <- s
  }

  lemma OldLinks(db: Database, run: Run, commits: seq<nat>, r: nat)
    requires RunsOk(db) && LinksOk(db)
    ensures var next := WithLinks(WithRun(db, run), db.lastRun + 1, commits);
      LinkedTo(next, r) == if r == db.lastRun + 1 then Elements(commits) else LinkedTo(db, r)
  {
    var next := WithLinks(WithRun(db, run), db.lastRun + 1, commits);
    forall c: nat ensures c in LinkedTo(next, r) <==> c in (if r == db.lastRun + 1 then Elements(commits) else LinkedTo(db, r)) {
      assert c in LinkedTo(next, r) <==> (r, c) in next.links;
      assert c in LinkedTo(db, r) <==> (r, c) in db.links;
    }
  }

  lemma {:induction false} FewElements(s: seq<nat>)
    ensures |Elements(s)| <= |s|
  {
    if s != [] {
      FewElements(s[1..]);
      assert Elements(s) == {s[0]} + Elements(s[1..]);
    }
  }

  lemma LinksAdded(db: Database, run: Run, sound: bool, events: seq<string>, commits: seq<nat>)
    requires RunsOk(db) && LinksOk(db) && Acceptable(db, run, sound)
    requires run.recordCount == |events| && Names(db, run.parent, events, commits)
    ensures LinksOk(WithLinks(WithRun(db, run), db.lastRun + 1, commits))
  {
    var id := db.lastRun + 1;
    var next := WithLinks(WithRun(db, run), id, commits);
    assert id !in db.runs;
    forall r <- next.runs ensures |LinkedTo(next, r)| <= next.runs[r].recordCount {
      OldLinks(db, run, commits, r);
      FewElements(commits);
    }
    forall r <- next.runs, a <- Lineage(next.runs, next.runs[r].parent) ensures LinkedTo(next, r) !! LinkedTo(next, a) {
      OldLineages(db.runs, next.runs, id, next.runs[r].parent);
      LineageIsOlder(db.runs, next.runs[r].parent);
      OldLinks(db, run, commits, r);
      OldLinks(db, run, commits, a);
      if r == id {
        forall c <- commits ensures c !in LinkedTo(db, a) {
          var i :| 0 <= i < |commits| && commits[i] == c;
          assert Eligible(db, run.parent, commits[i]);
        }
      }
    }
    forall l <- next.links ensures l.0 in next.runs && l.1 in next.commits {
      if l !in db.links {
        var i :| 0 <= i < |commits| && commits[i] == l.1;
        assert Eligible(db, run.parent, commits[i]);
      }
    }
  }

  lemma CompleteKeeps(db: Database, run: Run, sound: bool, events: seq<string>, next: Database)
    requires Inv(db) && Completes(db, run, sound, events, next)
    ensures Inv(next)
  {
    var commits :| Names(db, run.parent, events, commits) && next == WithLinks(WithRun(db, run), db.lastRun + 1, commits);
    RunAdded(db, run, sound);
    LinksAdded(db, run, sound, events, commits);
    SameRuns(WithRun(db, run), next);
  }

  lemma SameRuns(db: Database, next: Database)
    requires RunsOk(db) && next.runs == db.runs && next.lastRun == db.lastRun
    ensures RunsOk(next)
  {
    forall parent: nat ensures ParentCount(next, parent) == ParentCount(db, parent) {
    }
  }

  lemma AddKeeps(db: Database, e: string, legacy: bool, next: Database)
    requires Inv(db) && Next(db, Add(e, legacy), next)
    ensures Inv(next)
  {
    FewerLinks(db, next);
    if !exists c :: HasEvent(db, c, e) {
      forall c <- db.commits ensures db.commits[c].eventId != e && next.commits[c] == db.commits[c] {
        assert !HasEvent(db, c, e);
      }
      assert CommitsOk(next);
    }
  }

  lemma StepKeeps(db: Database, step: Step, next: Database)
    requires Inv(db) && Next(db, step, next)
    ensures Inv(next)
  {
    match step
    case Add(e, legacy) => AddKeeps(db, e, legacy, next);
    case Exclude(es) => FewerLinks(db, next);
    case Delete(e) => WithoutKeeps(db, set c <- db.commits | db.commits[c].eventId == e && db.commits[c].pending);
    case Reset => WithoutKeeps(db, db.commits.Keys);
    case Complete(run, sound, events) =>
      if Completes(db, run, sound, events, next) {
        CompleteKeeps(db, run, sound, events, next);
      }
  }

  lemma {:induction false} RunKeeps(dbs: seq<Database>, steps: seq<Step>, k: nat)
    requires Reached(dbs, steps) && k < |dbs|
    ensures Inv(dbs[k])
  {
    if k > 0 {
      RunKeeps(dbs, steps, k - 1);
      StepKeeps(dbs[k - 1], steps[k - 1], dbs[k]);
    }
  }

  // ---- what holds along a lineage --------------------------------------------------------------

  function Trained(db: Database, line: seq<nat>): set<nat> {
    if line == [] then {} else LinkedTo(db, line[0]) + Trained(db, line[1..])
  }

  function Records(db: Database, line: seq<nat>): nat
    requires forall r <- line :: r in db.runs
  {
    if line == [] then 0 else db.runs[line[0]].recordCount + Records(db, line[1..])
  }

  // No commit is trained on twice along the line, the base model stays the
  // same, and the run's own count of records adds up.
  ghost predicate LineOk(db: Database, line: seq<nat>, fingerprint: string, cumulative: nat) {
    && (forall i, j :: 0 <= i < j < |line| ==> LinkedTo(db, line[i]) !! LinkedTo(db, line[j]))
    && (forall r <- line :: r in db.runs && db.runs[r].fingerprint == fingerprint)
    && cumulative == Records(db, line) && |Trained(db, line)| <= cumulative
  }

  lemma {:induction false} LineOfRun(db: Database, id: nat)
    requires Inv(db) && id in db.runs
    ensures LineOk(db, Lineage(db.runs, id), db.runs[id].fingerprint, db.runs[id].cumulative)
    decreases id
  {
    var run := db.runs[id];
    var line := Lineage(db.runs, id);
    var older := Lineage(db.runs, run.parent);
    assert line == [id] + older && line[1..] == older;
    if run.parent == 0 {
      assert 0 !in db.runs;
      assert older == [];
    } else {
      LineOfRun(db, run.parent);
    }
    OlderApart(db, id, older);
    assert |Trained(db, line)| <= |LinkedTo(db, id)| + |Trained(db, older)|;
  }

  lemma OlderApart(db: Database, id: nat, older: seq<nat>)
    requires forall r <- older :: LinkedTo(db, id) !! LinkedTo(db, r)
    requires forall i, j :: 0 <= i < j < |older| ==> LinkedTo(db, older[i]) !! LinkedTo(db, older[j])
    ensures var line := [id] + older; forall i, j :: 0 <= i < j < |line| ==> LinkedTo(db, line[i]) !! LinkedTo(db, line[j])
  {
    var line := [id] + older;
    forall i, j | 0 <= i < j < |line| ensures LinkedTo(db, line[i]) !! LinkedTo(db, line[j]) {
      assert line[j] == older[j - 1] && (i > 0 ==> line[i] == older[i - 1]);
    }
  }

  // Whatever was recorded, deleted and reset: no lineage trains on a commit twice.
  lemma NeverTrainedTwice(dbs: seq<Database>, steps: seq<Step>, id: nat)
    requires Reached(dbs, steps) && id in dbs[|steps|].runs
    ensures var db := dbs[|steps|]; LineOk(db, Lineage(db.runs, id), db.runs[id].fingerprint, db.runs[id].cumulative)
  {
    RunKeeps(dbs, steps, |steps|);
    LineOfRun(dbs[|steps|], id);
  }

  // ---- when a run completes ---------------------------------------------------------------------

  // A commit with the event may be trained on.
  predicate Available(db: Database, base: nat, event: string) {
    exists c <- db.commits :: HasEvent(db, c, event) && Eligible(db, base, c)
  }

  predicate CanComplete(db: Database, run: Run, sound: bool, events: seq<string>) {
    && Acceptable(db, run, sound) && run.recordCount == |events|
    && (forall i :: 0 <= i < |events| ==> Available(db, run.parent, events[i]))
    && (forall i, j :: 0 <= i < j < |events| ==> events[i] != events[j])
  }

  lemma NamesAreUnique(db: Database, base: nat, events: seq<string>, a: seq<nat>, b: seq<nat>)
    requires CommitsOk(db) && Names(db, base, events, a) && Names(db, base, events, b)
    ensures a == b
  {
    forall i | 0 <= i < |events| ensures a[i] == b[i] {
      assert HasEvent(db, a[i], events[i]) && HasEvent(db, b[i], events[i]);
    }
  }

  // A run completes exactly when it fits its parent, counts its records, and
  // names different events whose commits its line has not trained on; and it
  // completes in one way.
  lemma CompletesExactly(db: Database, run: Run, sound: bool, events: seq<string>)
    requires CommitsOk(db)
    ensures (exists next :: Completes(db, run, sound, events, next)) <==> CanComplete(db, run, sound, events)
    ensures forall a, b :: Completes(db, run, sound, events, a) && Completes(db, run, sound, events, b) ==> a == b
  {
    hide Completes, CanComplete;
    if next :| Completes(db, run, sound, events, next) {
      CompletedCould(db, run, sound, events, next);
    }
    if CanComplete(db, run, sound, events) {
      var next := CouldComplete(db, run, sound, events);
    }
    forall a, b | Completes(db, run, sound, events, a) && Completes(db, run, sound, events, b) ensures a == b {
      CompletesOneWay(db, run, sound, events, a, b);
    }
  }

  lemma CompletedCould(db: Database, run: Run, sound: bool, events: seq<string>, next: Database)
    requires CommitsOk(db) && Completes(db, run, sound, events, next)
    ensures CanComplete(db, run, sound, events)
  {
    var commits :| Names(db, run.parent, events, commits) && next == WithLinks(WithRun(db, run), db.lastRun + 1, commits);
    NamedAll(db, run.parent, events, commits);
  }

  lemma CouldComplete(db: Database, run: Run, sound: bool, events: seq<string>) returns (next: Database)
    requires CanComplete(db, run, sound, events)
    ensures Completes(db, run, sound, events, next)
  {
    var commits := Chosen(db, run.parent, events);
    next := WithLinks(WithRun(db, run), db.lastRun + 1, commits);
    assert Names(db, run.parent, events, commits);
  }

  lemma CompletesOneWay(db: Database, run: Run, sound: bool, events: seq<string>, a: Database, b: Database)
    requires CommitsOk(db) && Completes(db, run, sound, events, a) && Completes(db, run, sound, events, b)
    ensures a == b
  {
    var x :| Names(db, run.parent, events, x) && a == WithLinks(WithRun(db, run), db.lastRun + 1, x);
    var y :| Names(db, run.parent, events, y) && b == WithLinks(WithRun(db, run), db.lastRun + 1, y);
    NamesAreUnique(db, run.parent, events, x, y);
  }

  ghost function Chosen(db: Database, base: nat, events: seq<string>): (r: seq<nat>)
    requires forall i :: 0 <= i < |events| ==> Available(db, base, events[i])
    ensures |r| == |events|
    ensures forall i :: 0 <= i < |events| ==> HasEvent(db, r[i], events[i]) && Eligible(db, base, r[i])
  {
    if events == [] then []
    else
      assert Available(db, base, events[0]);
      var c :| c in db.commits && HasEvent(db, c, events[0]) && Eligible(db, base, c);
      [c] + Chosen(db, base, events[1..])
  }

  // While a run is being linked it changes nothing about what it may train on.
  lemma SameEligible(db: Database, run: Run, id: nat, found: seq<nat>, now: Database)
    requires Inv(db) && now == WithLinks(WithRun(db, run), id, found) && id == db.lastRun + 1 && run.parent < id
    ensures forall c :: Eligible(now, run.parent, c) == Eligible(db, run.parent, c)
    ensures forall c :: (id, c) in now.links <==> c in found
  {
    OldLineages(db.runs, now.runs, id, run.parent);
    LineageIsOlder(db.runs, run.parent);
    forall l <- db.links ensures l.0 != id {
      assert l.0 in db.runs;
    }
  }

  lemma NamedOneMore(db: Database, base: nat, events: seq<string>, i: nat, found: seq<nat>, c: nat)
    requires i < |events| && Names(db, base, events[..i], found)
    requires HasEvent(db, c, events[i]) && Eligible(db, base, c) && c !in found
    ensures Names(db, base, events[..i + 1], found + [c])
  {
    forall k | 0 <= k < i + 1
      ensures HasEvent(db, (found + [c])[k], events[..i + 1][k]) && Eligible(db, base, (found + [c])[k])
    {
      if k < i {
        assert HasEvent(db, found[k], events[..i][k]);
      }
    }
  }

  // A commit found again was named again.
  lemma RepeatedEvent(db: Database, base: nat, events: seq<string>, i: nat, found: seq<nat>, c: nat)
    requires i < |events| && Names(db, base, events[..i], found) && HasEvent(db, c, events[i]) && c in found
    ensures exists j :: 0 <= j < i && events[j] == events[i]
  {
    var j :| 0 <= j < |found| && found[j] == c;
    assert HasEvent(db, found[j], events[..i][j]);
  }

  lemma NamedAll(db: Database, base: nat, events: seq<string>, found: seq<nat>)
    requires CommitsOk(db) && Names(db, base, events, found)
    ensures forall i :: 0 <= i < |events| ==> Available(db, base, events[i])
    ensures forall i, j :: 0 <= i < j < |events| ==> events[i] != events[j]
  {
    forall i | 0 <= i < |events| ensures Available(db, base, events[i]) {
      assert HasEvent(db, found[i], events[i]) && Eligible(db, base, found[i]);
    }
    forall i, j | 0 <= i < j < |events| ensures events[i] != events[j] {
      assert HasEvent(db, found[i], events[i]) && HasEvent(db, found[j], events[j]);
    }
  }

  // ---- the database in place ---------------------------------------------------------------------

  class TrainingDatabase {
    var commits: map<nat, Commit>
    var runs: map<nat, Run>
    var links: set<(nat, nat)>
    var lastCommit: nat
    var lastRun: nat

    ghost function View(): Database
      reads this
    {
      Database(commits, runs, links, lastCommit, lastRun)
    }

    constructor ()
      ensures View() == EMPTY
    {
      commits, runs, links, lastCommit, lastRun := map[], map[], {}, 0, 0;
    }

    // The commit with the event, if a run continuing base may train on it.
    method FindEligible(base: nat, event: string) returns (found: Option<nat>)
      ensures found.Some? ==> HasEvent(View(), found.value, event) && Eligible(View(), base, found.value)
      ensures found.None? ==> forall c :: HasEvent(View(), c, event) ==> !Eligible(View(), base, c)
    {
      var lineage := Lineage(runs, base);
      var matching := set c <- commits | commits[c].eventId == event && commits[c].pending && !commits[c].legacy
                        && forall r <- lineage :: (r, c) !in links;
      if matching == {} {
        assert forall c :: HasEvent(View(), c, event) && Eligible(View(), base, c) ==> c in matching;
        return None;
      }
      var c :| c in matching;
      found := Some(c);
    }

    // A transaction: all of it happens, or none.
    method CompleteLoraTraining(run: Run, sound: bool, events: seq<string>) returns (ok: bool)
      requires Inv(View())
      modifies this
      ensures ok == CanComplete(old(View()), run, sound, events)
      ensures if ok then Completes(old(View()), run, sound, events, View()) else View() == old(View())
    {
      ghost var start := View();
      var before := (runs, links, lastRun);
      if !Acceptable(Database(commits, runs, links, lastCommit, lastRun), run, sound) || run.recordCount != |events| {
        return false;
      }
      lastRun := lastRun + 1;
      runs := runs[lastRun := run];
      ok := LinkAll(lastRun, run, events, start);
      if !ok {
        runs, links, lastRun := before.0, before.1, before.2;
      }
    }

    method LinkAll(id: nat, run: Run, events: seq<string>, ghost start: Database) returns (ok: bool)
      requires Inv(start) && View() == WithRun(start, run) && id == start.lastRun + 1 && run.parent < id
      modifies this`links
      ensures ok <==> (forall i :: 0 <= i < |events| ==> Available(start, run.parent, events[i]))
                      && (forall i, j :: 0 <= i < j < |events| ==> events[i] != events[j])
      ensures ok ==> exists found :: Names(start, run.parent, events, found) && View() == WithLinks(WithRun(start, run), id, found)
    {
      ghost var found: seq<nat> := [];
      var i: nat := 0;
      while i < |events|
        invariant i <= |events| && Names(start, run.parent, events[..i], found)
        invariant View() == WithLinks(WithRun(start, run), id, found)
      {
        var commit := FindEligible(run.parent, events[i]);
        SameEligible(start, run, id, found, View());
        if commit.None? {
          assert !Available(start, run.parent, events[i]);
          return false;
        }
        if (id, commit.value) in links {
          RepeatedEvent(start, run.parent, events, i, found, commit.value);
          return false;
        }
        links := links + {(id, commit.value)};
        NamedOneMore(start, run.parent, events, i, found, commit.value);
        found := found + [commit.value];
        i := i + 1;
      }
      assert events[..i] == events;
      NamedAll(start, run.parent, events, found);
      ok := true;
    }
  }
}
