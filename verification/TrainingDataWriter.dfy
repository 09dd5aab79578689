/** The writer of the conversation database, whose queue and staged commits change in place. */
module TrainingDataWriters {
  import opened Wrappers
  import opened StagingWriter

  class TrainingDataWriter {
    const window: nat
    var now: nat
    var enabled: bool
    var generation: nat
    var stopping: bool
    var queue: seq<Operation>
    var staged: seq<Staged>
    var worker: Worker
    var cached: Option<Key>
    var cachedFor: nat
    var lock: Lock
    var rows: map<(string, nat), Row>
    var protection: Option<Protection>
    var next: nat
    ghost var attempts: seq<Commit>
    ghost var fates: map<nat, Fate>
    ghost var resetAt: nat
    ghost var queued: seq<Commit>

    ghost function View(): State
      reads this
    {
      State(now, window, enabled, generation, stopping, queue, staged, worker, cached, cachedFor, lock, rows, protection,
            attempts, fates, next, resetAt, queued)
    }

    constructor (window: nat, rows: map<(string, nat), Row>, protection: Option<Protection>)
      ensures View() == Start(window, rows, protection)
    {
      this.window, now, this.rows, this.protection := window, 0, rows, protection;
      enabled := protection.Some? && protection.value.enabled;
      generation, stopping, queue, staged, worker, cached, cachedFor, lock := 0, false, [], [], Waiting, None, 0, Free;
      next, attempts, fates, resetAt, queued := 0, [], map[], 0, [];
    }

    method Enqueue(session: string, sequence: nat, bopomofo: bool)
      modifies this
      ensures View() == Next(old(View()), StagingWriter.Enqueue(session, sequence, bopomofo))
    {
      if !enabled {
        return;
      }
      if stopping || |queue| >= QUEUE_LIMIT {
        return;
      }
      var commit := Commit(next, session, sequence, bopomofo, now, generation);
      queue := queue + [Store(commit)];
      next := next + 1;
      queued := queued + [commit];
    }

    method DiscardStaged(session: string, sequence: nat)
      modifies this
      ensures View() == Next(old(View()), StagingWriter.DiscardStaged(session, sequence))
    {
      if enabled && !stopping {
        queue := queue + [Discard(session, sequence, now)];
      }
    }

    method ClearQueue()
      modifies this`queue, this`fates
      ensures View() == EmptyQueue(old(View()))
    {
      fates := Fated(fates, CommitsOf(queue), Cleared);
      queue := [];
      queue := queue + [Clear];
    }

    // ok: a password is configured, if recording is to be enabled.
    method SetRecordingEnabled(value: bool) returns (ok: bool)
      requires lock.Free?
      modifies this
      ensures View() == Next(old(View()), SetEnabled(value)) && ok == (value ==> old(protection).Some?)
    {
      if value && protection.None? {
        return false;
      }
      if protection.Some? {
        protection := Some(protection.value.(enabled := value));
      }
      enabled := value;
      if !value {
        ClearQueue();
      }
      return true;
    }

    // The steps of a reset between which other threads run.
    method LowerFlag()
      requires lock.Free?
      modifies this
      ensures View() == Next(old(View()), ResetStart)
    {
      lock := Lowered;
      enabled := false;
    }

    method StartGeneration()
      requires lock.Lowered?
      modifies this
      ensures View() == Next(old(View()), ResetQueue)
    {
      generation := generation + 1;
      ClearQueue();
      lock := Emptied;
    }

    method ClearDatabase(ok: bool)
      requires lock.Emptied?
      modifies this
      ensures View() == Next(old(View()), ResetDatabase(ok))
    {
      if ok {
        rows := map[];
        protection := None;
        resetAt := next;
      }
      lock := Free;
    }

    method ConfigurePassword(key: Key, outcome: Outcome)
      requires lock.Free?
      modifies this
      ensures View() == Next(old(View()), Configure(key, outcome))
    {
      if protection.Some? || outcome.Refused? {
        return;
      }
      protection := Some(Protection(key, false));
      rows := Sealed(rows, key);
      if outcome.Complete? {
        protection := Some(protection.value.(enabled := true));
        enabled := true;
      }
    }

    // ---- the worker -----------------------------------------------------------------------

    // What the worker remembers of the public key, read again in a new generation.
    method ReadParameters()
      modifies this`cached, this`cachedFor
      ensures View() == Keyed(old(View()))
    {
      if cachedFor != generation {
        cached := None;
        cachedFor := generation;
      }
      if cached.None? && protection.Some? {
        cached := Some(protection.value.key);
      }
    }

    method Persist(commit: Commit, fails: bool)
      requires lock.Free?
      modifies this`cached, this`cachedFor, this`rows, this`attempts, this`fates
      ensures View() == StagingWriter.Persist(old(View()), commit, fails)
    {
      attempts := attempts + [commit];
      if commit.bopomofo && enabled && commit.generation == generation {
        ReadParameters();
        Insert(commit, fails);
      } else {
        fates := fates[commit.number := Rejected];
      }
    }

    method Insert(commit: Commit, fails: bool)
      modifies this`rows, this`fates
      ensures View() == Inserted(old(View()), commit, fails)
    {
      var id := (commit.session, commit.sequence);
      if cached.None? || fails {
        fates := fates[commit.number := Rejected];
      } else if id in rows {
        fates := fates[commit.number := Known];
      } else {
        rows := rows[id := Row(cached, Some(commit.number))];
        fates := fates[commit.number := Persisted];
      }
    }

    method Find(session: string) returns (i: nat)
      ensures i == FindSession(staged, session)
    {
      i := 0;
      while i < |staged| && staged[i].commit.session != session
        invariant i <= |staged| && FindSession(staged, session) == i + FindSession(staged[i..], session)
      {
        assert staged[i..][1..] == staged[i + 1..];
        i := i + 1;
      }
    }

    method FindStaged(session: string, sequence: nat) returns (i: nat)
      ensures i == FindCommit(staged, session, sequence)
    {
      i := 0;
      while i < |staged| && !(staged[i].commit.session == session && staged[i].commit.sequence == sequence)
        invariant i <= |staged| && FindCommit(staged, session, sequence) == i + FindCommit(staged[i..], session, sequence)
      {
        assert staged[i..][1..] == staged[i + 1..];
        i := i + 1;
      }
    }

    // The operation taken from the queue.
    method Handle(operation: Operation, fails: bool)
      requires worker == Took(operation) && (NeedsLock(View()) ==> lock.Free?)
      modifies this
      ensures View() == Works(old(View()), fails)
    {
      match operation
      case Clear =>
        fates := Fated(fates, StagedCommits(staged), Cleared);
        staged := [];
        worker := Waiting;
      case Discard(session, sequence, queuedAt) =>
        var found := FindStaged(session, sequence);
        if found < |staged| && queuedAt <= staged[found].deadline {
          fates := fates[staged[found].commit.number := Discarded];
          staged := Without(staged, found);
        }
        worker := Waiting;
      case Store(commit) =>
        var previous := Find(commit.session);
        worker := Staging(commit);
        if previous < |staged| {
          var before := staged[previous].commit;
          staged := Without(staged, previous);
          Persist(before, fails);
        }
    }

    method Stage(commit: Commit)
      requires worker == Staging(commit)
      modifies this
      ensures View() == Works(old(View()), false)
    {
      if enabled && commit.bopomofo {
        staged := staged + [Staged(commit, commit.queuedAt + window)];
      } else {
        fates := fates[commit.number := if commit.bopomofo then Dropped else Blank];
      }
      worker := Waiting;
    }

    // fails: for each commit, whether the database fails.
    method FlushExpired(until: nat, fails: seq<bool>)
      requires worker == Flushing(until) && lock.Free? && |fails| >= |staged|
      modifies this
      ensures View() == Flushed(old(View()), fails)
    {
      hide Works, Flushed, StagingWriter.Persist;
      var k: nat := 0;
      while staged != [] && staged[0].deadline <= until
        invariant worker == Flushing(until) && lock.Free? && k <= |fails| && |fails| - k >= |staged|
        invariant Flushed(View(), fails[k..]) == Flushed(old(View()), fails)
        decreases |staged|
      {
        FlushStep(View(), fails[k..]);
        assert fails[k..][0] == fails[k] && fails[k..][1..] == fails[k + 1..];
        var commit := staged[0].commit;
        staged := staged[1..];
        Persist(commit, fails[k]);
        k := k + 1;
      }
      FlushStep(View(), fails[k..]);
      worker := Waiting;
    }
  }

  lemma FlushStep(s: State, fails: seq<bool>)
    requires s.worker.Flushing? && s.lock.Free? && |fails| >= |s.staged|
    ensures if NeedsLock(s) then
        var t := StagingWriter.Persist(s.(staged := s.staged[1..]), s.staged[0].commit, fails[0]);
        && t.worker == s.worker && t.lock == s.lock && t.staged == s.staged[1..] && Flushed(s, fails) == Flushed(t, fails[1..])
      else Flushed(s, fails) == s.(worker := Waiting)
  {
    hide StagingWriter.Persist;
    if NeedsLock(s) {
      PersistChanges(s.(staged := s.staged[1..]), s.staged[0].commit, fails[0]);
    }
  }

  // The worker's steps until nothing staged has expired.
  ghost function Flushed(s: State, fails: seq<bool>): (r: State)
    requires s.worker.Flushing? && s.lock.Free? && |fails| >= |s.staged|
    decreases |s.staged|
  {
    if NeedsLock(s) then
      PersistChanges(s.(staged := s.staged[1..]), s.staged[0].commit, fails[0]);
      Flushed(Works(s, fails[0]), fails[1..])
    else Works(s, false)
  }

  // A flush hands exactly the expired commits to the database, oldest first.
  lemma {:induction false} FlushTakesExpired(s: State, fails: seq<bool>, n: nat)
    requires Inv(s) && s.worker.Flushing? && s.lock.Free? && |fails| >= |s.staged| && n <= |s.staged|
    requires forall i :: 0 <= i < |s.staged| ==> (s.staged[i].deadline <= s.worker.until <==> i < n)
    ensures Flushed(s, fails).staged == s.staged[n..] && Flushed(s, fails).worker == Waiting
    ensures Flushed(s, fails).attempts == s.attempts + StagedCommits(s.staged[..n])
    decreases |s.staged|
  {
    hide Inv, Persist;
    if n > 0 {
      var t := Works(s, fails[0]);
      WorksKeeps(s, fails[0]);
      PersistChanges(s.(staged := s.staged[1..]), s.staged[0].commit, fails[0]);
      FlushTakesExpired(t, fails[1..], n - 1);
      assert s.attempts + [s.staged[0].commit] + StagedCommits(s.staged[1..][..n - 1]) == s.attempts + StagedCommits(s.staged[..n]);
    } else {
      assert StagedCommits(s.staged[..n]) == [];
      assert s.staged != [] ==> !(s.staged[0].deadline <= s.worker.until);
    }
  }
}
