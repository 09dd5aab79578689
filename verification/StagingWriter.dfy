/**
 The writer of the conversation database: commits are queued, staged for a
 while by a worker thread so that they can still be discarded, and stored
 sealed under the public key of the database's password.

 A step is what one thread does under a lock, or the worker does on its own.
 Sealing is the pairing of a row with a key.
 */
module StagingWriter {
  import opened Wrappers

  type Key = nat

  // number: how many commits were queued before. bopomofo: the commit has input to learn from.
  datatype Commit = Commit(number: nat, session: string, sequence: nat, bopomofo: bool, queuedAt: nat, generation: nat)

  datatype Operation =
    | Store(commit: Commit)
    | Discard(session: string, sequence: nat, queuedAt: nat)
    | Clear

  datatype Staged = Staged(commit: Commit, deadline: nat)

  // key: what the row is sealed under; rows from before the password are not. number: its commit, if the writer stored it.
  datatype Row = Row(key: Option<Key>, number: Option<nat>)

  datatype Protection = Protection(key: Key, enabled: bool)

  // Who holds the protection lock between two steps: nobody, or a reset that
  // lowered the flag, or one that emptied the queue as well.
  datatype Lock = Free | Lowered | Emptied

  datatype Worker =
    | Waiting | Took(operation: Operation) | Staging(commit: Commit)
    | Expiring | Flushing(until: nat) | Finishing | Done

  // Handed to the database, a commit is Persisted as a row, Known if its row was
  // there already, or else Rejected; Blank and Dropped commits were never staged,
  // for want of input or because recording was off.
  datatype Fate = Persisted | Known | Rejected | Discarded | Cleared | Blank | Dropped

  // attempts, fates, next, resetAt and queued are history: the commits handed to
  // the database in order, what became of each commit, how many were queued, how
  // many when the last reset was complete, and the commits that were queued.
  datatype State = State(now: nat, window: nat, enabled: bool, generation: nat, stopping: bool, queue: seq<Operation>,
                         staged: seq<Staged>, worker: Worker, cached: Option<Key>, cachedFor: nat, lock: Lock,
                         rows: map<(string, nat), Row>, protection: Option<Protection>,
                         attempts: seq<Commit>, fates: map<nat, Fate>, next: nat, resetAt: nat, queued: seq<Commit>)

  datatype Outcome = Refused | Halfway | Complete

  datatype Step =
    | Tick(elapsed: nat)
    | Enqueue(session: string, sequence: nat, bopomofo: bool)
    | DiscardStaged(session: string, sequence: nat)
    | SetEnabled(value: bool)
    | ResetStart
    | ResetQueue
    | ResetDatabase(ok: bool)
    | Configure(key: Key, outcome: Outcome)
    | Stop
    | Work(fails: bool)

  const QUEUE_LIMIT := 256

  function Start(window: nat, rows: map<(string, nat), Row>, protection: Option<Protection>): State {
    State(0, window, protection.Some? && protection.value.enabled, 0, false, [], [], Waiting, None, 0, Free, rows, protection,
          [], map[], 0, 0, [])
  }

  // ---- the callers ------------------------------------------------------------------------

  function CommitsOf(queue: seq<Operation>): seq<Commit> {
    if queue == [] then []
    else (if queue[0].Store? then [queue[0].commit] else []) + CommitsOf(queue[1..])
  }

  function StagedCommits(staged: seq<Staged>): (r: seq<Commit>)
    ensures |r| == |staged| && forall i :: 0 <= i < |r| ==> r[i] == staged[i].commit
  {
    seq(|staged|, i requires 0 <= i < |staged| => staged[i].commit)
  }

  function Fated(fates: map<nat, Fate>, commits: seq<Commit>, fate: Fate): map<nat, Fate>
    decreases |commits|
  {
    if commits == [] then fates else Fated(fates[commits[0].number := fate], commits[1..], fate)
  }

  function EmptyQueue(s: State): State {
    s.(queue := [Clear], fates := Fated(s.fates, CommitsOf(s.queue), Cleared))
  }

  function Sealed(rows: map<(string, nat), Row>, key: Key): map<(string, nat), Row> {
    map id <- rows :: if rows[id].key.None? then rows[id].(key := Some(key)) else rows[id]
  }

  function Next(s: State, step: Step): State {
    match step
    case Tick(elapsed) => s.(now := s.now + elapsed)
    case Enqueue(session, sequence, bopomofo) =>
      if s.stopping || !s.enabled || |s.queue| >= QUEUE_LIMIT then s
      else
        var c := Commit(s.next, session, sequence, bopomofo, s.now, s.generation);
        s.(queue := s.queue + [Store(c)], next := s.next + 1, queued := s.queued + [c])
    case DiscardStaged(session, sequence) =>
      if s.stopping || !s.enabled then s else s.(queue := s.queue + [Discard(session, sequence, s.now)])
    case SetEnabled(value) =>
      if !s.lock.Free? || (value && s.protection.None?) then s
      else
        var r := s.(enabled := value,
                    protection := if s.protection.None? then None else Some(s.protection.value.(enabled := value)));
        if value then r else EmptyQueue(r)
    case ResetStart => if s.lock.Free? then s.(enabled := false, lock := Lowered) else s
    case ResetQueue =>
      if s.lock.Lowered? then EmptyQueue(s).(generation := s.generation + 1, lock := Emptied) else s
    case ResetDatabase(ok) =>
      if !s.lock.Emptied? then s
      else if ok then s.(rows := map[], protection := None, lock := Free, resetAt := s.next)
      else s.(lock := Free)
    case Configure(key, outcome) =>
      if !s.lock.Free? || s.protection.Some? || outcome.Refused? then s
      else s.(rows := Sealed(s.rows, key), protection := Some(Protection(key, outcome.Complete?)),
              enabled := s.enabled || outcome.Complete?)
    case Stop => s.(stopping := true)
    case Work(fails) => Works(s, fails)
  }

  // ---- the worker -------------------------------------------------------------------------

  function PublicKey(protection: Option<Protection>): Option<Key> {
    if protection.Some? then Some(protection.value.key) else None
  }

  function Met(s: State, c: Commit, fate: Fate): State {
    s.(fates := s.fates[c.number := fate])
  }

  // Needs the protection lock. fails: the database does.
  function Persist(s: State, c: Commit, fails: bool): State {
    var t := s.(attempts := s.attempts + [c]);
    if !c.bopomofo || !s.enabled || c.generation != s.generation then Met(t, c, Rejected) else Inserted(Keyed(t), c, fails)
  }

  // The key remembered, read again in a new generation or when there was none.
  function Keyed(s: State): State {
    s.(cachedFor := s.generation,
       cached := if s.cachedFor == s.generation && s.cached.Some? then s.cached else PublicKey(s.protection))
  }

  // A row for the commit, unless there is one.
  function Inserted(s: State, c: Commit, fails: bool): State {
    if s.cached.None? || fails then Met(s, c, Rejected)
    else if (c.session, c.sequence) in s.rows then Met(s, c, Known)
    else Met(s, c, Persisted).(rows := s.rows[(c.session, c.sequence) := Row(s.cached, Some(c.number))])
  }

  // Where the first staged commit of the session is.
  function FindSession(staged: seq<Staged>, session: string): (r: nat)
    ensures r <= |staged| && (r < |staged| ==> staged[r].commit.session == session)
    ensures forall i :: 0 <= i < r ==> staged[i].commit.session != session
  {
    if staged == [] || staged[0].commit.session == session then 0 else 1 + FindSession(staged[1..], session)
  }

  function FindCommit(staged: seq<Staged>, session: string, sequence: nat): (r: nat)
    ensures r <= |staged|
    ensures r < |staged| ==> staged[r].commit.session == session && staged[r].commit.sequence == sequence
    ensures forall i :: 0 <= i < r ==> !(staged[i].commit.session == session && staged[i].commit.sequence == sequence)
  {
    if staged == [] || (staged[0].commit.session == session && staged[0].commit.sequence == sequence) then 0
    else 1 + FindCommit(staged[1..], session, sequence)
  }

  function Without(staged: seq<Staged>, i: nat): seq<Staged>
    requires i < |staged|
  {
    staged[..i] + staged[i + 1..]
  }

  // The worker is about to hand a commit to the database.
  predicate NeedsLock(s: State) {
    match s.worker
    case Took(Store(c)) => FindSession(s.staged, c.session) < |s.staged|
    case Flushing(until) => s.staged != [] && s.staged[0].deadline <= until
    case Finishing => s.staged != []
    case _ => false
  }

  function Works(s: State, fails: bool): State {
    if NeedsLock(s) && !s.lock.Free? then s
    else
      match s.worker
      case Waiting =>
        if s.queue != [] then s.(worker := Took(s.queue[0]), queue := s.queue[1..])
        else if s.stopping then s.(worker := Finishing)
        else if s.staged != [] && s.staged[0].deadline <= s.now then s.(worker := Expiring)
        else s
      case Took(Clear) => s.(worker := Waiting, staged := [], fates := Fated(s.fates, StagedCommits(s.staged), Cleared))
      case Took(Discard(session, sequence, queuedAt)) =>
        var i := FindCommit(s.staged, session, sequence);
        if i < |s.staged| && queuedAt <= s.staged[i].deadline then
          s.(worker := Waiting, staged := Without(s.staged, i), fates := s.fates[s.staged[i].commit.number := Discarded])
        else s.(worker := Waiting)
      case Took(Store(c)) =>
        var i := FindSession(s.staged, c.session);
        if i < |s.staged| then
          Persist(s.(worker := Staging(c), staged := Without(s.staged, i)), s.staged[i].commit, fails)
        else s.(worker := Staging(c))
      case Staging(c) =>
        if s.enabled && c.bopomofo then s.(worker := Waiting, staged := s.staged + [Staged(c, c.queuedAt + s.window)])
        else Met(s.(worker := Waiting), c, if c.bopomofo then Dropped else Blank)
      case Expiring => s.(worker := Flushing(s.now))
      case Flushing(until) =>
        if s.staged != [] && s.staged[0].deadline <= until then
          Persist(s.(staged := s.staged[1..]), s.staged[0].commit, fails)
        else s.(worker := Waiting)
      case Finishing =>
        if s.staged != [] then Persist(s.(staged := s.staged[1..]), s.staged[0].commit, fails) else s.(worker := Done)
      case Done => s
  }

  function Run(start: State, steps: seq<Step>): State {
    if steps == [] then start else Next(Run(start, steps[..|steps| - 1]), steps[|steps| - 1])
  }

  // ---- what every step keeps -----------------------------------------------------------------

  // The rows are sealed under the present key, which is what the worker remembers of it.
  predicate KeysOk(s: State) {
    && (forall id <- s.rows :: s.rows[id].key == PublicKey(s.protection))
    && s.cachedFor <= s.generation && (s.lock.Emptied? ==> s.cachedFor < s.generation)
    && (s.cachedFor == s.generation && s.cached.Some? ==> s.cached == PublicKey(s.protection))
    && (!s.lock.Free? ==> !s.enabled)
  }

  function Hand(w: Worker): seq<Commit> {
    match w
    case Took(Store(c)) => [c]
    case Staging(c) => [c]
    case _ => []
  }

  // The commits on their way, oldest first.
  function Flight(s: State): seq<Commit> {
    StagedCommits(s.staged) + Hand(s.worker) + CommitsOf(s.queue)
  }

  // First queued, first on the way.
  predicate Ordered(flight: seq<Commit>) {
    forall i, j :: 0 <= i < j < |flight| ==> flight[i].number < flight[j].number && flight[i].queuedAt <= flight[j].queuedAt
  }

  // None is newer than now, or of a generation to come, or has met its fate.
  // Only commits queued after the last reset are of the present generation.
  predicate Present(flight: seq<Commit>, s: State) {
    forall c <- flight ::
      && c.number < s.next && c.queuedAt <= s.now && c.generation <= s.generation && c.number !in s.fates
      && (c.generation == s.generation ==> s.resetAt <= c.number && !s.lock.Emptied?)
  }

  // Every commit is on its way or has met one fate.
  ghost predicate Accounted(flight: seq<Commit>, s: State) {
    && (forall n <- s.fates :: n < s.next)
    && (forall n: nat :: n < s.next && n !in s.fates ==> exists c :: c in flight && c.number == n)
  }

  // Per session: attempted first, then in flight, with growing numbers.
  predicate After(flight: seq<Commit>, attempts: seq<Commit>, next: nat) {
    && (forall p <- attempts :: p.number < next)
    && (forall p <- attempts, c <- flight :: p.session == c.session ==> p.number < c.number)
  }

  ghost predicate FlightOk(flight: seq<Commit>, s: State) {
    Ordered(flight) && Present(flight, s) && Accounted(flight, s) && After(flight, s.attempts, s.next)
  }

  predicate AttemptsOk(attempts: seq<Commit>) {
    forall i, j :: 0 <= i < j < |attempts| && attempts[i].session == attempts[j].session ==> attempts[i].number < attempts[j].number
  }

  // One commit of a session is staged, until its window is over.
  predicate StagedOk(s: State) {
    && (forall e <- s.staged :: e.deadline == e.commit.queuedAt + s.window)
    && (forall i, j :: 0 <= i < j < |s.staged| ==> s.staged[i].commit.session != s.staged[j].commit.session)
    && (s.worker.Staging? ==> forall e <- s.staged :: e.commit.session != s.worker.commit.session)
  }

  // Only commits queued after the last reset are stored.
  predicate RowsOk(s: State) {
    s.resetAt <= s.next && forall id <- s.rows :: s.rows[id].number.Some? ==> s.resetAt <= s.rows[id].number.value < s.next
  }

  ghost predicate Inv(s: State) {
    KeysOk(s) && RowsOk(s) && StagedOk(s) && AttemptsOk(s.attempts) && FlightOk(Flight(s), s)
  }

  // ---- the commits on their way -----------------------------------------------------------------

  lemma {:induction false} CommitsJoin(a: seq<Operation>, b: seq<Operation>)
    ensures CommitsOf(a + b) == CommitsOf(a) + CommitsOf(b)
  {
    if a == [] {
      assert a + b == b;
    } else {
      var first := if a[0].Store? then [a[0].commit] else [];
      assert (a + b)[1..] == a[1..] + b && (a + b)[0] == a[0];
      CommitsJoin(a[1..], b);
      assert CommitsOf(a) == first + CommitsOf(a[1..]) && CommitsOf(a + b) == first + CommitsOf(a[1..] + b);
      assert first + (CommitsOf(a[1..]) + CommitsOf(b)) == first + CommitsOf(a[1..]) + CommitsOf(b);
    }
  }

  lemma {:induction false} FatedAll(fates: map<nat, Fate>, commits: seq<Commit>, fate: Fate)
    ensures forall n :: n in Fated(fates, commits, fate) <==> n in fates || exists c :: c in commits && c.number == n
    decreases |commits|
  {
    if commits != [] {
      FatedAll(fates[commits[0].number := fate], commits[1..], fate);
      assert commits == [commits[0]] + commits[1..];
    }
  }

  // The flight is unchanged, and so is what is said of it.
  lemma FlightSame(flight: seq<Commit>, s: State, t: State)
    requires FlightOk(flight, s) && t.next == s.next && s.now <= t.now && t.fates == s.fates && t.attempts == s.attempts
    requires t.generation == s.generation && t.resetAt == s.resetAt && t.lock == s.lock
    ensures FlightOk(flight, t)
  {
  }

  // Some commits of the flight meet a fate.
  lemma FlightLess(before: seq<Commit>, gone: seq<Commit>, after: seq<Commit>, fate: Fate, s: State, t: State)
    requires FlightOk(before + gone + after, s) && t.fates == Fated(s.fates, gone, fate) && t.attempts == s.attempts
    requires t.next == s.next && t.now == s.now && t.generation == s.generation && t.resetAt == s.resetAt && t.lock == s.lock
    ensures FlightOk(before + after, t)
  {
    hide Fated, Ordered;
    FatedAll(s.fates, gone, fate);
    LessOrdered(before, gone, after);
    LessAccounted(before, gone, after, s, t);
    forall c <- before + after ensures c in before + gone + after && c.number !in t.fates {
      NotGone(before, gone, after, c);
    }
    assert Present(before + after, t);
  }

  lemma LessOrdered(before: seq<Commit>, gone: seq<Commit>, after: seq<Commit>)
    requires Ordered(before + gone + after)
    ensures Ordered(before + after)
  {
    var flight, left := before + gone + after, before + after;
    forall i, j | 0 <= i < j < |left| ensures left[i].number < left[j].number && left[i].queuedAt <= left[j].queuedAt {
      var x := if i < |before| then i else i + |gone|;
      var y := if j < |before| then j else j + |gone|;
      assert left[i] == flight[x] && left[j] == flight[y];
    }
  }

  lemma LessAccounted(before: seq<Commit>, gone: seq<Commit>, after: seq<Commit>, s: State, t: State)
    requires Accounted(before + gone + after, s) && t.next == s.next && forall c <- gone :: c.number < s.next
    requires forall n :: n in t.fates <==> n in s.fates || exists c :: c in gone && c.number == n
    ensures Accounted(before + after, t)
  {
    forall n: nat | n < t.next && n !in t.fates ensures exists c :: c in before + after && c.number == n {
      var c :| c in before + gone + after && c.number == n;
      assert c in before + after;
    }
  }

  lemma NotGone(before: seq<Commit>, gone: seq<Commit>, after: seq<Commit>, c: Commit)
    requires Ordered(before + gone + after) && c in before + after
    ensures c in before + gone + after && forall g <- gone :: g.number != c.number
  {
    var flight := before + gone + after;
    forall g <- gone ensures g.number != c.number {
      var k :| 0 <= k < |gone| && gone[k] == g;
      assert flight[|before| + k] == g;
      if c in before {
        var i :| 0 <= i < |before| && before[i] == c;
        assert flight[i] == c;
      } else {
        var i :| 0 <= i < |after| && after[i] == c;
        assert flight[|before| + |gone| + i] == c;
      }
    }
  }

  // A commit of the flight is handed to the database before any other of its session.
  lemma FlightAttempt(before: seq<Commit>, c: Commit, after: seq<Commit>, fate: Fate, s: State, t: State)
    requires FlightOk(before + [c] + after, s) && AttemptsOk(s.attempts)
    requires forall x <- before :: x.session != c.session
    requires t.fates == s.fates[c.number := fate] && t.attempts == s.attempts + [c]
    requires t.next == s.next && t.now == s.now && t.generation == s.generation && t.resetAt == s.resetAt && t.lock == s.lock
    ensures FlightOk(before + after, t) && AttemptsOk(t.attempts)
  {
    var u := t.(attempts := s.attempts);
    assert Fated(s.fates, [c], fate) == t.fates;
    FlightLess(before, [c], after, fate, s, u);
    assert c in before + [c] + after;
    AttemptAfter(before, c, after, s.attempts, s.next);
  }

  lemma AttemptAfter(before: seq<Commit>, c: Commit, after: seq<Commit>, attempts: seq<Commit>, next: nat)
    requires Ordered(before + [c] + after) && After(before + [c] + after, attempts, next) && c.number < next
    requires AttemptsOk(attempts) && forall x <- before :: x.session != c.session
    ensures After(before + after, attempts + [c], next) && AttemptsOk(attempts + [c])
  {
    var flight := before + [c] + after;
    assert flight[|before|] == c;
    forall x <- after ensures c.number < x.number && x in flight {
      var k :| 0 <= k < |after| && after[k] == x;
      assert flight[|before| + 1 + k] == x;
    }
    forall p <- attempts + [c], x <- before + after | p.session == x.session ensures p.number < x.number {
      assert x in before || x in after;
      assert x in flight;
    }
  }

  lemma FlightMore(flight: seq<Commit>, c: Commit, s: State, t: State)
    requires FlightOk(flight, s) && t == s.(queue := t.queue, next := s.next + 1, queued := t.queued)
    requires c.number == s.next && c.queuedAt == s.now && c.generation == s.generation && s.resetAt <= s.next && s.lock.Free?
    ensures FlightOk(flight + [c], t)
  {
    MoreAccounted(flight, c, s, t);
    var more := flight + [c];
    forall x <- more ensures x in flight || x == c {
    }
    assert Present(more, t);
    assert Ordered(more);
    assert After(more, t.attempts, t.next);
  }

  lemma MoreAccounted(flight: seq<Commit>, c: Commit, s: State, t: State)
    requires Accounted(flight, s) && t.fates == s.fates && t.next == s.next + 1 && c.number == s.next
    ensures Accounted(flight + [c], t)
  {
    forall n: nat | n < t.next && n !in t.fates ensures exists x :: x in flight + [c] && x.number == n {
      if n < s.next {
        var x :| x in flight && x.number == n;
        assert x in flight + [c];
      } else {
        assert c in flight + [c];
      }
    }
  }

  lemma EmptyQueueKeeps(s: State)
    requires Inv(s)
    ensures Inv(EmptyQueue(s))
  {
    var before, gone := StagedCommits(s.staged) + Hand(s.worker), CommitsOf(s.queue);
    assert before + gone + [] == Flight(s);
    FlightLess(before, gone, [], Cleared, s, EmptyQueue(s));
    assert before + [] == before + CommitsOf([Clear]) == Flight(EmptyQueue(s));
  }

  // ---- handing a commit to the database ----------------------------------------------------------

  lemma PersistKeeps(s: State, c: Commit, fails: bool)
    requires KeysOk(s) && RowsOk(s) && s.lock.Free? && c.number < s.next
    requires c.generation == s.generation ==> s.resetAt <= c.number
    ensures var t := Persist(s, c, fails);
      && KeysOk(t) && RowsOk(t) && t.attempts == s.attempts + [c]
      && c.number in t.fates && t.fates == s.fates[c.number := t.fates[c.number]]
      && t == s.(rows := t.rows, cached := t.cached, cachedFor := t.cachedFor, attempts := t.attempts, fates := t.fates)
  {
  }

  // ---- every step of the worker --------------------------------------------------------------------

  lemma WithoutFlight(staged: seq<Staged>, i: nat)
    requires i < |staged|
    ensures StagedCommits(staged) == StagedCommits(staged[..i]) + [staged[i].commit] + StagedCommits(staged[i + 1..])
    ensures StagedCommits(Without(staged, i)) == StagedCommits(staged[..i]) + StagedCommits(staged[i + 1..])
  {
  }

  // The flight around a staged commit, and without it.
  lemma FlightAround(s: State, i: nat, w: Worker)
    requires i < |s.staged| && Hand(w) == Hand(s.worker)
    ensures var before, after := StagedCommits(s.staged[..i]), StagedCommits(s.staged[i + 1..]) + Hand(w) + CommitsOf(s.queue);
      && Flight(s) == before + [s.staged[i].commit] + after
      && Flight(s.(worker := w, staged := Without(s.staged, i))) == before + after
  {
    hide Hand, CommitsOf;
    WithoutFlight(s.staged, i);
    Regroup(StagedCommits(s.staged[..i]), [s.staged[i].commit], StagedCommits(s.staged[i + 1..]), Hand(w), CommitsOf(s.queue));
  }

  lemma Regroup(a: seq<Commit>, b: seq<Commit>, c: seq<Commit>, d: seq<Commit>, e: seq<Commit>)
    ensures a + b + c + d + e == a + b + (c + d + e)
    ensures a + c + d + e == a + (c + d + e)
  {
  }

  lemma SameFlight(s: State, t: State)
    requires t.staged == s.staged && t.worker == s.worker && t.queue == s.queue
    ensures Flight(t) == Flight(s)
  {
  }

  lemma StagedLess(s: State, i: nat, w: Worker)
    requires StagedOk(s) && i < |s.staged|
    requires w.Staging? ==> w.commit.session == s.staged[i].commit.session
    ensures StagedOk(s.(worker := w, staged := Without(s.staged, i)))
  {
    var left := Without(s.staged, i);
    forall e <- left ensures e in s.staged && e.commit.session != s.staged[i].commit.session {
      var k :| 0 <= k < |left| && left[k] == e;
      assert s.staged[if k < i then k else k + 1] == e;
    }
  }

  lemma SameStaged(s: State, t: State)
    requires StagedOk(s) && t.staged == s.staged && t.worker == s.worker && t.window == s.window
    ensures StagedOk(t)
  {
  }

  lemma OfFlight(flight: seq<Commit>, s: State, c: Commit)
    requires FlightOk(flight, s) && c in flight
    ensures c.number < s.next && (c.generation == s.generation ==> s.resetAt <= c.number)
  {
  }

  lemma KeysRowsSame(s: State, t: State)
    requires KeysOk(s) && RowsOk(s)
    requires t.rows == s.rows && t.protection == s.protection && t.cached == s.cached && t.cachedFor == s.cachedFor
    requires t.generation == s.generation && t.lock == s.lock && t.enabled == s.enabled && t.resetAt == s.resetAt && t.next == s.next
    ensures KeysOk(t) && RowsOk(t)
  {
  }

  // A staged commit leaves for the database.
  lemma PersistStaged(s: State, i: nat, w: Worker, fails: bool)
    requires Inv(s) && s.lock.Free? && i < |s.staged| && Hand(w) == Hand(s.worker)
    requires w.Staging? ==> w.commit.session == s.staged[i].commit.session
    ensures Inv(Persist(s.(worker := w, staged := Without(s.staged, i)), s.staged[i].commit, fails))
  {
    hide FlightOk, KeysOk, RowsOk, StagedOk, AttemptsOk, Persist, Flight, Hand;
    var c, u := s.staged[i].commit, s.(worker := w, staged := Without(s.staged, i));
    var t := Persist(u, c, fails);
    var before, after := StagedCommits(s.staged[..i]), StagedCommits(s.staged[i + 1..]) + Hand(w) + CommitsOf(s.queue);
    FlightAround(s, i, w);
    assert (before + [c] + after)[|before|] == c;
    OfFlight(Flight(s), s, c);
    KeysRowsSame(s, u);
    PersistKeeps(u, c, fails);
    forall x <- before ensures x.session != c.session {
      EarlierSession(s, i, x);
    }
    FlightAttempt(before, c, after, t.fates[c.number], s, t);
    SameFlight(u, t);
    StagedLess(s, i, w);
    SameStaged(u, t);
  }

  lemma EarlierSession(s: State, i: nat, x: Commit)
    requires StagedOk(s) && i < |s.staged| && x in StagedCommits(s.staged[..i])
    ensures x.session != s.staged[i].commit.session
  {
    var k :| 0 <= k < i && StagedCommits(s.staged[..i])[k] == x;
    assert s.staged[k].commit == x;
  }

  lemma TakeKeeps(s: State)
    requires Inv(s) && s.worker.Waiting? && s.queue != []
    ensures Inv(s.(worker := Took(s.queue[0]), queue := s.queue[1..]))
  {
    var t := s.(worker := Took(s.queue[0]), queue := s.queue[1..]);
    assert Flight(t) == Flight(s);
    FlightSame(Flight(s), s, t);
  }

  lemma ClearKeeps(s: State)
    requires Inv(s) && s.worker == Took(Clear)
    ensures Inv(s.(worker := Waiting, staged := [], fates := Fated(s.fates, StagedCommits(s.staged), Cleared)))
  {
    var t := s.(worker := Waiting, staged := [], fates := Fated(s.fates, StagedCommits(s.staged), Cleared));
    var gone, after := StagedCommits(s.staged), CommitsOf(s.queue);
    assert Flight(s) == [] + gone + after;
    FlightLess([], gone, after, Cleared, s, t);
    assert Flight(t) == [] + after;
  }

  lemma DiscardKeeps(s: State, i: nat)
    requires Inv(s) && s.worker.Took? && s.worker.operation.Discard? && i < |s.staged|
    ensures Inv(s.(worker := Waiting, staged := Without(s.staged, i), fates := s.fates[s.staged[i].commit.number := Discarded]))
  {
    hide FlightOk, KeysOk, RowsOk, StagedOk, AttemptsOk, Flight;
    var c, u := s.staged[i].commit, s.(worker := Waiting, staged := Without(s.staged, i));
    var t := u.(fates := s.fates[c.number := Discarded]);
    var before, after := StagedCommits(s.staged[..i]), StagedCommits(s.staged[i + 1..]) + Hand(Waiting) + CommitsOf(s.queue);
    FlightAround(s, i, Waiting);
    assert Fated(s.fates, [c], Discarded) == t.fates;
    FlightLess(before, [c], after, Discarded, s, t);
    SameFlight(u, t);
    KeysRowsSame(s, t);
    StagedLess(s, i, Waiting);
    SameStaged(u, t);
  }

  lemma StageKeeps(s: State)
    requires Inv(s) && s.worker.Staging?
    ensures Inv(Works(s, false))
  {
    hide FlightOk, KeysOk, RowsOk, AttemptsOk;
    var c, t := s.worker.commit, Works(s, false);
    var before, after := StagedCommits(s.staged), CommitsOf(s.queue);
    KeysRowsSame(s, t);
    if s.enabled && c.bopomofo {
      assert StagedCommits(t.staged) == before + [c];
      assert Flight(t) == Flight(s);
      FlightSame(Flight(s), s, t);
    } else {
      var fate := if c.bopomofo then Dropped else Blank;
      assert Fated(s.fates, [c], fate) == t.fates;
      FlightLess(before, [c], after, fate, s, t);
      assert Flight(t) == before + after;
    }
  }

  // Nothing on the way changes hands.
  lemma IdleKeeps(s: State, t: State)
    requires Inv(s) && t == s.(worker := t.worker, now := t.now, stopping := t.stopping, queue := t.queue)
    requires s.now <= t.now && Hand(t.worker) == Hand(s.worker) && CommitsOf(t.queue) == CommitsOf(s.queue)
    requires t.worker.Staging? && t.worker != s.worker ==> (forall e <- s.staged :: e.commit.session != t.worker.commit.session)
    ensures Inv(t)
  {
    assert Flight(t) == Flight(s);
    FlightSame(Flight(s), s, t);
  }

  lemma TookKeeps(s: State, operation: Operation, fails: bool)
    requires Inv(s) && s.worker == Took(operation) && (NeedsLock(s) ==> s.lock.Free?)
    ensures Inv(Works(s, fails))
  {
    match operation
    case Clear => ClearKeeps(s);
    case Discard(session, sequence, queuedAt) =>
      var i := FindCommit(s.staged, session, sequence);
      if i < |s.staged| && queuedAt <= s.staged[i].deadline {
        DiscardKeeps(s, i);
      } else {
        IdleKeeps(s, s.(worker := Waiting));
      }
    case Store(c) =>
      var i := FindSession(s.staged, c.session);
      if i < |s.staged| {
        PersistStaged(s, i, Staging(c), fails);
      } else {
        IdleKeeps(s, s.(worker := Staging(c)));
      }
  }

  lemma WorksKeeps(s: State, fails: bool)
    requires Inv(s)
    ensures Inv(Works(s, fails))
  {
    hide Inv, Persist;
    if !NeedsLock(s) || s.lock.Free? {
      match s.worker
      case Waiting =>
        if s.queue != [] {
          TakeKeeps(s);
        } else {
          IdleKeeps(s, Works(s, fails));
        }
      case Took(operation) => TookKeeps(s, operation, fails);
      case Staging(c) => StageKeeps(s);
      case Expiring => IdleKeeps(s, Works(s, fails));
      case Flushing(until) =>
        if s.staged != [] && s.staged[0].deadline <= until {
          assert s.staged[1..] == Without(s.staged, 0);
          PersistStaged(s, 0, s.worker, fails);
        } else {
          IdleKeeps(s, Works(s, fails));
        }
      case Finishing =>
        if s.staged != [] {
          assert s.staged[1..] == Without(s.staged, 0);
          PersistStaged(s, 0, s.worker, fails);
        } else {
          IdleKeeps(s, Works(s, fails));
        }
      case Done =>
    }
  }

  // Where the commit is that the worker hands to the database, and what it does after that.
  lemma HandsOver(s: State, fails: bool) returns (i: nat, w: Worker)
    requires NeedsLock(s) && s.lock.Free?
    ensures i < |s.staged| && Hand(w) == Hand(s.worker) && !w.Took?
    ensures Works(s, fails) == Persist(s.(worker := w, staged := Without(s.staged, i)), s.staged[i].commit, fails)
  {
    hide Persist;
    i := if s.worker.Took? then FindSession(s.staged, s.worker.operation.commit.session) else 0;
    w := if s.worker.Took? then Staging(s.worker.operation.commit) else s.worker;
    assert s.staged[1..] == Without(s.staged, 0);
  }

  // ---- every step of the callers --------------------------------------------------------------------

  lemma EnqueueKeeps(s: State, session: string, sequence: nat, bopomofo: bool)
    requires Inv(s)
    ensures Inv(Next(s, Enqueue(session, sequence, bopomofo)))
  {
    hide FlightOk, StagedOk, AttemptsOk;
    if !s.stopping && s.enabled && |s.queue| < QUEUE_LIMIT {
      var c := Commit(s.next, session, sequence, bopomofo, s.now, s.generation);
      var t := s.(queue := s.queue + [Store(c)], next := s.next + 1, queued := s.queued + [c]);
      CommitsJoin(s.queue, [Store(c)]);
      assert CommitsOf([Store(c)]) == [c];
      FlightMore(Flight(s), c, s, t);
      assert Flight(t) == Flight(s) + [c];
      SameStaged(s, t);
    }
  }

  lemma SetEnabledKeeps(s: State, value: bool)
    requires Inv(s)
    ensures Inv(Next(s, SetEnabled(value)))
  {
    if s.lock.Free? && !(value && s.protection.None?) {
      var r := s.(enabled := value,
                  protection := if s.protection.None? then None else Some(s.protection.value.(enabled := value)));
      assert Flight(r) == Flight(s);
      FlightSame(Flight(s), s, r);
      if !value {
        EmptyQueueKeeps(r);
      }
    }
  }

  lemma ResetStartKeeps(s: State)
    requires Inv(s) && s.lock.Free?
    ensures Inv(s.(enabled := false, lock := Lowered))
  {
    hide AttemptsOk;
    var t := s.(enabled := false, lock := Lowered);
    SameFlight(s, t);
    assert Present(Flight(s), t);
  }

  lemma ResetQueueKeeps(s: State)
    requires Inv(s) && s.lock.Lowered?
    ensures Inv(EmptyQueue(s).(generation := s.generation + 1, lock := Emptied))
  {
    EmptyQueueKeeps(s);
    hide FlightOk, AttemptsOk, EmptyQueue;
    var u := EmptyQueue(s);
    assert u.generation == s.generation && u.lock == s.lock by {
      EmptiedIsSame(s);
    }
    var t := u.(generation := u.generation + 1, lock := Emptied);
    SameFlight(u, t);
    NewGeneration(Flight(u), u, t);
  }

  lemma EmptiedIsSame(s: State)
    ensures EmptyQueue(s) == s.(queue := [Clear], fates := EmptyQueue(s).fates)
  {
  }

  lemma ResetDatabaseKeeps(s: State, ok: bool)
    requires Inv(s) && s.lock.Emptied?
    ensures Inv(Next(s, ResetDatabase(ok)))
  {
    hide AttemptsOk;
    var t := Next(s, ResetDatabase(ok));
    SameFlight(s, t);
    assert Present(Flight(s), t);
  }

  lemma NewGeneration(flight: seq<Commit>, s: State, t: State)
    requires FlightOk(flight, s) && t == s.(generation := s.generation + 1, lock := Emptied)
    ensures FlightOk(flight, t)
  {
    assert Present(flight, t);
  }

  lemma ConfigureKeeps(s: State, key: Key, outcome: Outcome)
    requires Inv(s)
    ensures Inv(Next(s, Configure(key, outcome)))
  {
    hide FlightOk, AttemptsOk;
    var t := Next(s, Configure(key, outcome));
    SameFlight(s, t);
    FlightSame(Flight(s), s, t);
    SameStaged(s, t);
  }

  lemma StepKeeps(s: State, step: Step)
    requires Inv(s)
    ensures Inv(Next(s, step))
  {
    hide Inv, Works;
    match step
    case Tick(elapsed) => IdleKeeps(s, s.(now := s.now + elapsed));
    case Enqueue(session, sequence, bopomofo) => EnqueueKeeps(s, session, sequence, bopomofo);
    case DiscardStaged(session, sequence) =>
      CommitsJoin(s.queue, [Discard(session, sequence, s.now)]);
      assert CommitsOf([Discard(session, sequence, s.now)]) == [];
      IdleKeeps(s, Next(s, step));
    case SetEnabled(value) => SetEnabledKeeps(s, value);
    case ResetStart => if s.lock.Free? { ResetStartKeeps(s); }
    case ResetQueue => if s.lock.Lowered? { ResetQueueKeeps(s); }
    case ResetDatabase(ok) => if s.lock.Emptied? { ResetDatabaseKeeps(s, ok); }
    case Configure(key, outcome) => ConfigureKeeps(s, key, outcome);
    case Stop => IdleKeeps(s, s.(stopping := true));
    case Work(fails) => WorksKeeps(s, fails);
  }

  // A database as it may be found: its rows are sealed under its password, if it has one.
  predicate Found(rows: map<(string, nat), Row>, protection: Option<Protection>) {
    forall id <- rows :: rows[id].number.None? && rows[id].key == PublicKey(protection)
  }

  lemma {:induction false} RunKeeps(window: nat, rows: map<(string, nat), Row>, protection: Option<Protection>, steps: seq<Step>)
    requires Found(rows, protection)
    ensures Inv(Run(Start(window, rows, protection), steps))
  {
    var start := Start(window, rows, protection);
    if steps == [] {
      assert Flight(start) == [];
    } else {
      RunKeeps(window, rows, protection, steps[..|steps| - 1]);
      StepKeeps(Run(start, steps[..|steps| - 1]), steps[|steps| - 1]);
    }
  }

  // ---- what a reader can rely on ----------------------------------------------------------------------

  // Every row is sealed under the present public key.
  lemma RowsAreSealed(window: nat, rows: map<(string, nat), Row>, protection: Option<Protection>, steps: seq<Step>)
    requires Found(rows, protection)
    ensures var s := Run(Start(window, rows, protection), steps);
      forall id <- s.rows :: s.rows[id].key == PublicKey(s.protection)
  {
    RunKeeps(window, rows, protection, steps);
  }

  // The rows are those of commits queued as the nth or later.
  predicate OnlySince(s: State, n: nat) {
    n <= s.resetAt && forall id <- s.rows :: s.rows[id].number.Some?
  }

  lemma OnlySinceKeeps(s: State, step: Step, n: nat)
    requires Inv(s) && OnlySince(s, n)
    ensures OnlySince(Next(s, step), n)
  {
    assert s.resetAt <= s.next;
    hide Inv;
    if step.Work? {
      RowsOfWork(s, step.fails);
    }
  }

  // What handing a commit to the database changes.
  lemma PersistChanges(s: State, c: Commit, fails: bool)
    ensures var t := Persist(s, c, fails);
      && c.number in t.fates
      && t == s.(rows := t.rows, cached := t.cached, cachedFor := t.cachedFor, attempts := s.attempts + [c],
                 fates := s.fates[c.number := t.fates[c.number]])
      && (if t.fates[c.number].Persisted?
          then (c.session, c.sequence) !in s.rows
               && t.rows == s.rows[(c.session, c.sequence) := Row(t.cached, Some(c.number))]
          else t.rows == s.rows)
  {
  }

  lemma RowsOfWork(s: State, fails: bool)
    ensures var t := Works(s, fails);
      && t.resetAt == s.resetAt
      && (forall id <- t.rows :: id in s.rows || t.rows[id].number.Some?)
      && (forall id <- s.rows :: id in t.rows && t.rows[id] == s.rows[id])
  {
    hide Persist, FindSession, FindCommit, Fated;
    if NeedsLock(s) && s.lock.Free? {
      var i, w := HandsOver(s, fails);
      PersistChanges(s.(worker := w, staged := Without(s.staged, i)), s.staged[i].commit, fails);
    }
  }

  lemma {:induction false} SinceReset(window: nat, rows: map<(string, nat), Row>, protection: Option<Protection>,
                                      before: seq<Step>, after: seq<Step>)
    requires Found(rows, protection) && Run(Start(window, rows, protection), before).lock.Emptied?
    ensures OnlySince(Run(Start(window, rows, protection), before + [ResetDatabase(true)] + after),
                      Run(Start(window, rows, protection), before).next)
  {
    var start, steps := Start(window, rows, protection), before + [ResetDatabase(true)] + after;
    if after == [] {
      assert steps[..|steps| - 1] == before;
    } else {
      SinceReset(window, rows, protection, before, after[..|after| - 1]);
      assert steps[..|steps| - 1] == before + [ResetDatabase(true)] + after[..|after| - 1];
      RunKeeps(window, rows, protection, steps[..|steps| - 1]);
      OnlySinceKeeps(Run(start, steps[..|steps| - 1]), steps[|steps| - 1], Run(start, before).next);
    }
  }

  // After a reset that succeeded, only commits queued after it can ever be stored.
  lemma OnlyAfterReset(window: nat, rows: map<(string, nat), Row>, protection: Option<Protection>,
                       before: seq<Step>, after: seq<Step>)
    requires Found(rows, protection) && Run(Start(window, rows, protection), before).lock.Emptied?
    ensures var done := Run(Start(window, rows, protection), before);
      var s := Run(Start(window, rows, protection), before + [ResetDatabase(true)] + after);
      forall id <- s.rows :: s.rows[id].number.Some? && done.next <= s.rows[id].number.value
  {
    SinceReset(window, rows, protection, before, after);
    RunKeeps(window, rows, protection, before + [ResetDatabase(true)] + after);
  }

  // The staged deadlines are sorted, so what is left when the flush stops has not expired.
  lemma DeadlinesSorted(s: State)
    requires Inv(s)
    ensures forall i, j :: 0 <= i < j < |s.staged| ==> s.staged[i].deadline <= s.staged[j].deadline
  {
    forall i, j | 0 <= i < j < |s.staged| ensures s.staged[i].deadline <= s.staged[j].deadline {
      assert Flight(s)[i] == s.staged[i].commit && Flight(s)[j] == s.staged[j].commit;
    }
  }

  lemma FlushIsExact(s: State, fails: bool)
    requires Inv(s) && s.worker.Flushing? && s.lock.Free?
    ensures var t := Works(s, fails); var until := s.worker.until;
      if t.worker.Waiting? then t.staged == s.staged && forall e <- s.staged :: until < e.deadline
      else s.staged != [] && s.staged[0].deadline <= until && t.staged == s.staged[1..] && t.attempts == s.attempts + [s.staged[0].commit]
  {
    DeadlinesSorted(s);
    hide Persist, Inv;
    if NeedsLock(s) {
      PersistChanges(s.(staged := s.staged[1..]), s.staged[0].commit, fails);
    }
  }

  // A session has one staged commit at most, and its commits reach the database in order.
  lemma SessionsInOrder(window: nat, rows: map<(string, nat), Row>, protection: Option<Protection>, steps: seq<Step>)
    requires Found(rows, protection)
    ensures var s := Run(Start(window, rows, protection), steps);
      && AttemptsOk(s.attempts)
      && forall i, j :: 0 <= i < j < |s.staged| ==> s.staged[i].commit.session != s.staged[j].commit.session
  {
    RunKeeps(window, rows, protection, steps);
  }

  // A commit's fate is its last.
  lemma FatesStay(s: State, step: Step)
    requires Inv(s)
    ensures forall n <- s.fates :: n in Next(s, step).fates && Next(s, step).fates[n] == s.fates[n]
  {
    FlightNotFated(s);
    hide FlightOk, KeysOk, RowsOk, AttemptsOk;
    match step
    case SetEnabled(value) => FatedStay(s.fates, CommitsOf(s.queue), Cleared);
    case ResetQueue => FatedStay(s.fates, CommitsOf(s.queue), Cleared);
    case Work(fails) => WorkFatesStay(s, fails);
    case _ =>
  }

  // Whatever happens later, what became of a commit stands.
  lemma {:induction false} FatesStand(window: nat, rows: map<(string, nat), Row>, protection: Option<Protection>,
                                      before: seq<Step>, after: seq<Step>)
    requires Found(rows, protection)
    ensures var s := Run(Start(window, rows, protection), before);
      var t := Run(Start(window, rows, protection), before + after);
      forall n <- s.fates :: n in t.fates && t.fates[n] == s.fates[n]
  {
    if after == [] {
      assert before + after == before;
    } else {
      var steps := before + after;
      assert steps[..|steps| - 1] == before + after[..|after| - 1];
      FatesStand(window, rows, protection, before, after[..|after| - 1]);
      RunKeeps(window, rows, protection, steps[..|steps| - 1]);
      FatesStay(Run(Start(window, rows, protection), steps[..|steps| - 1]), steps[|steps| - 1]);
    }
  }

  lemma FlightNotFated(s: State)
    requires Inv(s)
    ensures forall c <- CommitsOf(s.queue) :: c.number !in s.fates
    ensures forall c <- Hand(s.worker) :: c.number !in s.fates
    ensures forall c <- StagedCommits(s.staged) :: c.number !in s.fates
  {
    forall c | c in CommitsOf(s.queue) || c in Hand(s.worker) || c in StagedCommits(s.staged) ensures c in Flight(s) {
    }
  }

  lemma {:induction false} FatedStay(fates: map<nat, Fate>, commits: seq<Commit>, fate: Fate)
    requires forall c <- commits :: c.number !in fates
    ensures forall n <- fates :: n in Fated(fates, commits, fate) && Fated(fates, commits, fate)[n] == fates[n]
    decreases |commits|
  {
    FatedKeeps(fates, fates, commits, fate);
  }

  lemma {:induction false} FatedKeeps(first: map<nat, Fate>, fates: map<nat, Fate>, commits: seq<Commit>, fate: Fate)
    requires forall c <- commits :: c.number !in first
    requires forall n <- first :: n in fates && fates[n] == first[n]
    ensures forall n <- first :: n in Fated(fates, commits, fate) && Fated(fates, commits, fate)[n] == first[n]
    decreases |commits|
  {
    if commits != [] {
      assert commits[0] in commits;
      FatedKeeps(first, fates[commits[0].number := fate], commits[1..], fate);
    }
  }

  lemma WorkFatesStay(s: State, fails: bool)
    requires forall c <- Hand(s.worker) :: c.number !in s.fates
    requires forall c <- StagedCommits(s.staged) :: c.number !in s.fates
    ensures forall n <- s.fates :: n in Works(s, fails).fates && Works(s, fails).fates[n] == s.fates[n]
  {
    forall i | 0 <= i < |s.staged| ensures s.staged[i].commit.number !in s.fates {
      assert StagedCommits(s.staged)[i] == s.staged[i].commit;
    }
    hide Persist, Fated;
    if s.worker == Took(Clear) {
      FatedStay(s.fates, StagedCommits(s.staged), Cleared);
    } else if NeedsLock(s) && s.lock.Free? {
      var i, w := HandsOver(s, fails);
      PersistChanges(s.(worker := w, staged := Without(s.staged, i)), s.staged[i].commit, fails);
    }
  }

  // ---- which commits are rows ---------------------------------------------------------------------------

  predicate IsRow(s: State, n: nat, id: (string, nat)) {
    id in s.rows && s.rows[id].number == Some(n)
  }

  predicate StoredAs(attempts: seq<Commit>, n: nat, id: (string, nat)) {
    exists c <- attempts :: c.number == n && (c.session, c.sequence) == id
  }

  // The rows of the writer are those of the commits persisted since the last
  // reset, one for each, under the session and the sequence it was queued with.
  ghost predicate RowsTold(s: State) {
    && (forall n: nat, id :: IsRow(s, n, id) ==> n in s.fates && s.fates[n].Persisted? && StoredAs(s.attempts, n, id))
    && (forall n <- s.fates :: s.fates[n].Persisted? && s.resetAt <= n ==> exists id :: IsRow(s, n, id))
    && (forall n: nat, x, y :: IsRow(s, n, x) && IsRow(s, n, y) ==> x == y)
  }

  // No row comes or goes, and nothing more is persisted.
  predicate NoneStored(s: State, t: State) {
    && t.rows.Keys == s.rows.Keys && (forall id <- s.rows :: t.rows[id].number == s.rows[id].number)
    && t.resetAt == s.resetAt && s.attempts <= t.attempts
    && (forall n <- t.fates :: if n in s.fates then t.fates[n] == s.fates[n] else !t.fates[n].Persisted?)
    && (forall n <- s.fates :: n in t.fates)
  }

  lemma AttemptedStill(a: seq<Commit>, b: seq<Commit>, n: nat, id: (string, nat))
    requires a <= b && StoredAs(a, n, id)
    ensures StoredAs(b, n, id)
  {
    var c :| c in a && c.number == n && (c.session, c.sequence) == id;
    assert c in b;
  }

  lemma NoneStoredTold(s: State, t: State)
    requires RowsTold(s) && NoneStored(s, t)
    ensures RowsTold(t)
  {
    hide StoredAs;
    forall n: nat, id | IsRow(t, n, id)
      ensures IsRow(s, n, id) && n in t.fates && t.fates[n].Persisted? && StoredAs(t.attempts, n, id)
    {
      AttemptedStill(s.attempts, t.attempts, n, id);
    }
    forall n <- t.fates | t.fates[n].Persisted? && t.resetAt <= n ensures exists id :: IsRow(t, n, id) {
      var id :| IsRow(s, n, id);
      assert IsRow(t, n, id);
    }
  }

  // A commit is persisted: its row is new, and so is its fate.
  lemma StoredTold(s: State, t: State, c: Commit, id: (string, nat))
    requires RowsTold(s) && c.number !in s.fates && id == (c.session, c.sequence) && id !in s.rows
    requires id in t.rows && t.rows == s.rows[id := t.rows[id]] && t.rows[id].number == Some(c.number)
    requires t.fates == s.fates[c.number := Persisted] && t.resetAt == s.resetAt && t.attempts == s.attempts + [c]
    ensures RowsTold(t)
  {
    hide StoredAs;
    forall n: nat, x | IsRow(t, n, x)
      ensures n in t.fates && t.fates[n].Persisted? && StoredAs(t.attempts, n, x)
    {
      if x == id {
        NewlyAttempted(s.attempts, c);
      } else {
        assert IsRow(s, n, x);
        AttemptedStill(s.attempts, t.attempts, n, x);
      }
    }
    forall n <- t.fates | t.fates[n].Persisted? && t.resetAt <= n ensures exists x :: IsRow(t, n, x) {
      if n == c.number {
        assert IsRow(t, n, id);
      } else {
        var x :| IsRow(s, n, x);
        assert IsRow(t, n, x);
      }
    }
    forall n: nat, x, y | IsRow(t, n, x) && IsRow(t, n, y) ensures x == y {
      assert (x == id || IsRow(s, n, x)) && (y == id || IsRow(s, n, y));
    }
  }

  lemma NewlyAttempted(attempts: seq<Commit>, c: Commit)
    ensures StoredAs(attempts + [c], c.number, (c.session, c.sequence))
  {
    assert (attempts + [c])[|attempts|] == c;
  }

  lemma PersistTold(s: State, c: Commit, fails: bool)
    requires RowsTold(s) && c.number !in s.fates
    ensures RowsTold(Persist(s, c, fails))
  {
    hide Persist, RowsTold;
    PersistChanges(s, c, fails);
    var t := Persist(s, c, fails);
    if t.fates[c.number].Persisted? {
      StoredTold(s, t, c, (c.session, c.sequence));
    } else {
      NoneStoredTold(s, t);
    }
  }

  // A fate is as it was, or one of the commits has met it now.
  lemma {:induction false} FatedFrom(fates: map<nat, Fate>, commits: seq<Commit>, fate: Fate)
    ensures var r := Fated(fates, commits, fate);
      forall n <- r :: (n in fates && r[n] == fates[n]) || (r[n] == fate && exists c :: c in commits && c.number == n)
    decreases |commits|
  {
    if commits != [] {
      FatedFrom(fates[commits[0].number := fate], commits[1..], fate);
      assert commits[0] in commits && forall c <- commits[1..] :: c in commits;
    }
  }

  lemma WorkTold(s: State, fails: bool)
    requires Inv(s) && RowsTold(s)
    ensures RowsTold(Works(s, fails))
  {
    FlightNotFated(s);
    hide Inv, Persist, RowsTold, Works;
    if NeedsLock(s) && s.lock.Free? {
      var i, w := HandsOver(s, fails);
      assert StagedCommits(s.staged)[i] == s.staged[i].commit;
      var u := s.(worker := w, staged := Without(s.staged, i));
      NoneStoredTold(s, u);
      PersistTold(u, s.staged[i].commit, fails);
    } else {
      LeavesRows(s, fails);
      NoneStoredTold(s, Works(s, fails));
    }
  }

  lemma LeavesRows(s: State, fails: bool)
    requires Inv(s) && !(NeedsLock(s) && s.lock.Free?)
    ensures NoneStored(s, Works(s, fails))
  {
    hide KeysOk, RowsOk;
    hide Inv, Persist, Fated, FindSession, FindCommit;
    FlightNotFated(s);
    WorkFatesStay(s, fails);
    match s.worker
    case Took(Clear) => FatedFrom(s.fates, StagedCommits(s.staged), Cleared);
    case _ =>
  }

  lemma CallTold(s: State, step: Step)
    requires Inv(s) && RowsTold(s) && !step.Work?
    ensures RowsTold(Next(s, step))
  {
    var t := Next(s, step);
    if step == ResetDatabase(true) && s.lock.Emptied? {
      assert forall n <- s.fates :: n < s.next;
    } else {
      FatesStay(s, step);
      FatedFrom(s.fates, CommitsOf(s.queue), Cleared);
      hide Inv, RowsTold, Fated;
      NoneStoredTold(s, t);
    }
  }

  lemma {:induction false} RunTold(window: nat, rows: map<(string, nat), Row>, protection: Option<Protection>, steps: seq<Step>)
    requires Found(rows, protection)
    ensures RowsTold(Run(Start(window, rows, protection), steps))
  {
    var start := Start(window, rows, protection);
    if steps != [] {
      var before, step := steps[..|steps| - 1], steps[|steps| - 1];
      RunKeeps(window, rows, protection, before);
      RunTold(window, rows, protection, before);
      hide Inv, RowsTold, Next;
      if step.Work? {
        WorkIsStep(Run(start, before), step.fails);
        WorkTold(Run(start, before), step.fails);
      } else {
        CallTold(Run(start, before), step);
      }
    }
  }

  lemma WorkIsStep(s: State, fails: bool)
    ensures Next(s, Work(fails)) == Works(s, fails)
  {
  }

  // The rows are exactly the commits persisted since the last reset, each once and under its own name.
  lemma RowsArePersisted(window: nat, rows: map<(string, nat), Row>, protection: Option<Protection>, steps: seq<Step>)
    requires Found(rows, protection)
    ensures var s := Run(Start(window, rows, protection), steps);
      && (forall n: nat :: (n in s.fates && s.fates[n].Persisted? && s.resetAt <= n) <==> exists id :: IsRow(s, n, id))
      && (forall n: nat, id :: IsRow(s, n, id) ==> StoredAs(s.attempts, n, id))
      && (forall n: nat, x, y :: IsRow(s, n, x) && IsRow(s, n, y) ==> x == y)
  {
    RunKeeps(window, rows, protection, steps);
    RunTold(window, rows, protection, steps);
  }

  // ---- when recording is off -----------------------------------------------------------------------------

  predicate SwitchesOn(step: Step) {
    step == SetEnabled(true) || (step.Configure? && step.outcome.Complete?)
  }

  lemma OffStoresNothing(s: State, step: Step)
    requires !s.enabled && !SwitchesOn(step)
    ensures !Next(s, step).enabled && Next(s, step).rows.Keys <= s.rows.Keys
  {
    hide Works;
    if step.Work? {
      OffWorks(s, step.fails);
    }
  }

  lemma OffWorks(s: State, fails: bool)
    requires !s.enabled
    ensures Works(s, fails).enabled == s.enabled && Works(s, fails).rows == s.rows
  {
    hide Persist;
    if NeedsLock(s) && s.lock.Free? {
      var i, w := HandsOver(s, fails);
      hide Works, NeedsLock;
      PersistOff(s.(worker := w, staged := Without(s.staged, i)), s.staged[i].commit, fails);
    }
  }

  lemma PersistOff(s: State, c: Commit, fails: bool)
    requires !s.enabled
    ensures Persist(s, c, fails).enabled == s.enabled && Persist(s, c, fails).rows == s.rows
  {
  }

  // From the moment recording is off until it is switched on again no row is
  // added, whatever is still queued or staged.
  lemma {:induction false} NothingStoredWhileOff(start: State, before: seq<Step>, after: seq<Step>)
    requires !Run(start, before).enabled && forall step <- after :: !SwitchesOn(step)
    ensures !Run(start, before + after).enabled && Run(start, before + after).rows.Keys <= Run(start, before).rows.Keys
  {
    if after == [] {
      assert before + after == before;
    } else {
      var front, last := after[..|after| - 1], after[|after| - 1];
      assert (before + after)[..|before + after| - 1] == before + front && (before + after)[|before + after| - 1] == last;
      assert last in after && forall step <- front :: step in after;
      NothingStoredWhileOff(start, before, front);
      OffStoresNothing(Run(start, before + front), last);
    }
  }

  // ---- why a commit is no row -----------------------------------------------------------------------------

  // Recording is not switched off, nothing is reset, and the database does not fail.
  predicate Undisturbed(step: Step) {
    match step
    case SetEnabled(value) => value
    case ResetStart => false
    case Work(fails) => !fails
    case _ => true
  }

  predicate Calm(steps: seq<Step>) {
    forall step <- steps :: Undisturbed(step)
  }

  // What the steps must have been for the commit to meet the fate.
  predicate FateFits(fate: Fate, c: Commit, steps: seq<Step>) {
    match fate
    case Persisted => c.bopomofo
    case Known => c.bopomofo
    case Blank => !c.bopomofo
    case Discarded => DiscardStaged(c.session, c.sequence) in steps
    case _ => !Calm(steps)
  }

  predicate Requested(o: Operation, steps: seq<Step>) {
    o.Discard? ==> DiscardStaged(o.session, o.sequence) in steps
  }

  predicate Registered(c: Commit, s: State) {
    c.number < |s.queued| && s.queued[c.number] == c
  }

  // The commits on the way are some of those queued, and each fate is the one
  // the commit of its number had to meet.
  predicate Remembered(s: State, steps: seq<Step>) {
    && |s.queued| == s.next && (forall n :: 0 <= n < |s.queued| ==> s.queued[n].number == n)
    && (forall c <- Flight(s) :: Registered(c, s)) && (forall e <- s.staged :: e.commit.bopomofo)
    && (forall o <- s.queue :: Requested(o, steps)) && (s.worker.Took? ==> Requested(s.worker.operation, steps))
    && (forall n <- s.fates :: n < |s.queued| && FateFits(s.fates[n], s.queued[n], steps))
  }

  // While nothing disturbs it the writer takes what it is given.
  predicate Steady(s: State) {
    && s.lock.Free? && s.generation == 0 && (s.enabled ==> s.protection.Some?) && (Flight(s) != [] ==> s.enabled)
    && (forall c <- Flight(s) :: c.generation == 0) && s.worker != Took(Clear) && Clear !in s.queue
  }

  predicate Reasoned(s: State, steps: seq<Step>) {
    Remembered(s, steps) && (Calm(steps) ==> Steady(s))
  }

  lemma StillRemembered(s: State, steps: seq<Step>, step: Step)
    requires Reasoned(s, steps)
    ensures Reasoned(s, steps + [step]) && (Calm(steps + [step]) ==> Undisturbed(step))
  {
    var all := steps + [step];
    assert step in all && forall x <- steps :: x in all;
    assert Calm(all) ==> Calm(steps);
    forall n <- s.fates ensures FateFits(s.fates[n], s.queued[n], all) {
    }
  }

  // The commits on their way in t are among those of s.
  predicate FlightWithin(t: State, s: State) {
    forall c <- Flight(t) :: c in Flight(s)
  }

  predicate FatesFrom(s: State, t: State, steps: seq<Step>) {
    forall n <- t.fates ::
      (n in s.fates && t.fates[n] == s.fates[n]) || exists c :: c in Flight(s) && c.number == n && FateFits(t.fates[n], c, steps)
  }

  // Nothing is queued but a clearing, and that not while all is calm.
  lemma ReasonedLess(s: State, t: State, steps: seq<Step>)
    requires Reasoned(s, steps) && t.queued == s.queued && t.next == s.next && FlightWithin(t, s) && FatesFrom(s, t, steps)
    requires forall e <- t.staged :: e.commit.bopomofo
    requires forall o <- t.queue :: o in s.queue || (o == Clear && !Calm(steps))
    requires t.worker.Took? ==> t.worker == s.worker || t.worker.operation in s.queue
    requires Calm(steps) ==> t.lock == s.lock && t.protection == s.protection && t.generation == s.generation && t.enabled == s.enabled
    ensures Reasoned(t, steps)
  {
    hide Flight, FateFits, Calm;
    forall n <- t.fates ensures n < |t.queued| && FateFits(t.fates[n], t.queued[n], steps) {
      if !(n in s.fates && t.fates[n] == s.fates[n]) {
        var c :| c in Flight(s) && c.number == n && FateFits(t.fates[n], c, steps);
        assert Registered(c, s);
      }
    }
    if Flight(t) != [] {
      assert Flight(t)[0] in Flight(t);
    }
  }

  // A staged commit is handed over: it is stored, unless the steps were disturbed.
  lemma HandedFits(s: State, c: Commit, fails: bool, steps: seq<Step>)
    requires c.bopomofo && (Calm(steps) ==> !fails && s.enabled && s.protection.Some? && c.generation == s.generation)
    ensures var t := Persist(s, c, fails); c.number in t.fates && FateFits(t.fates[c.number], c, steps)
  {
    hide Calm;
  }

  lemma HandsReasoned(s: State, steps: seq<Step>, fails: bool)
    requires Reasoned(s, steps) && NeedsLock(s) && s.lock.Free? && (Calm(steps) ==> !fails)
    ensures Reasoned(Works(s, fails), steps)
  {
    hide Persist, Flight, FateFits, Calm;
    var i, w := HandsOver(s, fails);
    hide Works, NeedsLock;
    var u, c := s.(worker := w, staged := Without(s.staged, i)), s.staged[i].commit;
    FlightAround(s, i, w);
    assert s.staged[i] in s.staged && c in Flight(s);
    HandedFits(u, c, fails, steps);
    PersistChanges(u, c, fails);
    var t := Persist(u, c, fails);
    SameFlight(u, t);
    ReasonedLess(s, t, steps);
  }

  lemma TakesReasoned(s: State, steps: seq<Step>, t: State)
    requires Reasoned(s, steps) && s.worker.Waiting? && s.queue != []
    requires t == s.(worker := Took(s.queue[0]), queue := s.queue[1..])
    ensures Reasoned(t, steps)
  {
    assert Flight(t) == Flight(s);
    hide Flight, FateFits, Calm;
    ReasonedLess(s, t, steps);
  }

  lemma ClearReasoned(s: State, steps: seq<Step>, t: State)
    requires Reasoned(s, steps) && s.worker == Took(Clear)
    requires t == s.(worker := Waiting, staged := [], fates := Fated(s.fates, StagedCommits(s.staged), Cleared))
    ensures Reasoned(t, steps)
  {
    FatedFrom(s.fates, StagedCommits(s.staged), Cleared);
    hide Calm, Fated;
    assert forall c <- StagedCommits(s.staged) :: c in Flight(s);
    ReasonedLess(s, t, steps);
  }

  lemma DiscardReasoned(s: State, steps: seq<Step>, i: nat)
    requires Reasoned(s, steps) && s.worker.Took? && s.worker.operation.Discard? && i < |s.staged|
    requires s.staged[i].commit.session == s.worker.operation.session && s.staged[i].commit.sequence == s.worker.operation.sequence
    ensures Reasoned(s.(worker := Waiting, staged := Without(s.staged, i), fates := s.fates[s.staged[i].commit.number := Discarded]), steps)
  {
    hide Calm;
    var c, u := s.staged[i].commit, s.(worker := Waiting, staged := Without(s.staged, i));
    FlightAround(s, i, Waiting);
    hide Flight;
    assert c in Flight(s) && FateFits(Discarded, c, steps);
    hide FateFits;
    var t := u.(fates := s.fates[c.number := Discarded]);
    SameFlight(u, t);
    ReasonedLess(s, t, steps);
  }

  // The commit in hand is staged.
  lemma StageReasoned(s: State, steps: seq<Step>, deadline: nat)
    requires Reasoned(s, steps) && s.worker.Staging? && s.worker.commit.bopomofo
    ensures Reasoned(s.(worker := Waiting, staged := s.staged + [Staged(s.worker.commit, deadline)]), steps)
  {
    var c, t := s.worker.commit, s.(worker := Waiting, staged := s.staged + [Staged(s.worker.commit, deadline)]);
    assert StagedCommits(t.staged) == StagedCommits(s.staged) + [c];
    assert Flight(t) == Flight(s);
    hide Flight, Calm, FateFits;
    ReasonedLess(s, t, steps);
  }

  // It is not: there is nothing in it, or the steps were disturbed.
  lemma LeftReasoned(s: State, steps: seq<Step>)
    requires Reasoned(s, steps) && s.worker.Staging? && !(s.enabled && s.worker.commit.bopomofo)
    ensures Reasoned(Met(s.(worker := Waiting), s.worker.commit, if s.worker.commit.bopomofo then Dropped else Blank), steps)
  {
    hide Calm;
    var c := s.worker.commit;
    var t := Met(s.(worker := Waiting), c, if c.bopomofo then Dropped else Blank);
    assert Flight(s) == StagedCommits(s.staged) + [c] + CommitsOf(s.queue);
    assert c in Flight(s);
    assert Flight(t) == StagedCommits(s.staged) + CommitsOf(s.queue);
    hide Flight;
    ReasonedLess(s, t, steps);
  }

  lemma SameReasoned(s: State, t: State, steps: seq<Step>)
    requires Reasoned(s, steps) && t == s.(worker := t.worker, now := t.now, stopping := t.stopping)
    requires Hand(t.worker) == Hand(s.worker) && (t.worker.Took? ==> t.worker == s.worker)
    ensures Reasoned(t, steps)
  {
    assert Flight(t) == Flight(s);
    hide Flight, FateFits, Calm;
    ReasonedLess(s, t, steps);
  }

  lemma WorksReasoned(s: State, steps: seq<Step>, fails: bool)
    requires Reasoned(s, steps) && (Calm(steps) ==> !fails)
    ensures Reasoned(Works(s, fails), steps)
  {
    hide Reasoned, Persist;
    if NeedsLock(s) {
      if s.lock.Free? { HandsReasoned(s, steps, fails); }
    } else {
      match s.worker
      case Waiting =>
        if s.queue != [] {
          TakesReasoned(s, steps, Works(s, fails));
        } else {
          SameReasoned(s, Works(s, fails), steps);
        }
      case Took(Clear) => ClearReasoned(s, steps, Works(s, fails));
      case Took(Discard(session, sequence, queuedAt)) =>
        var i := FindCommit(s.staged, session, sequence);
        if i < |s.staged| && queuedAt <= s.staged[i].deadline {
          DiscardReasoned(s, steps, i);
        } else {
          SameReasoned(s, Works(s, fails), steps);
        }
      case Staging(c) =>
        if s.enabled && c.bopomofo {
          StageReasoned(s, steps, c.queuedAt + s.window);
        } else {
          LeftReasoned(s, steps);
        }
      case _ => SameReasoned(s, Works(s, fails), steps);
    }
  }

  lemma EnqueueReasoned(s: State, steps: seq<Step>, c: Commit)
    requires Reasoned(s, steps) && s.enabled && c.number == s.next && c.generation == s.generation
    ensures Reasoned(s.(queue := s.queue + [Store(c)], next := s.next + 1, queued := s.queued + [c]), steps)
  {
    hide Calm, FateFits;
    var t := s.(queue := s.queue + [Store(c)], next := s.next + 1, queued := s.queued + [c]);
    CommitsJoin(s.queue, [Store(c)]);
    assert CommitsOf([Store(c)]) == [c];
    assert Flight(t) == Flight(s) + [c];
    hide Flight;
    forall x <- Flight(t) ensures Registered(x, t) && (Steady(s) ==> x.generation == 0) {
      assert x in Flight(s) || x == c;
    }
    forall n <- t.fates ensures n < |t.queued| && FateFits(t.fates[n], t.queued[n], steps) {
      assert t.queued[n] == s.queued[n];
    }
  }

  // The queue is emptied by what disturbs.
  lemma EmptyQueueReasoned(s: State, t: State, steps: seq<Step>)
    requires Reasoned(s, steps) && !Calm(steps)
    requires t == EmptyQueue(s).(enabled := t.enabled, protection := t.protection, generation := t.generation, lock := t.lock)
    ensures Reasoned(t, steps)
  {
    FatedFrom(s.fates, CommitsOf(s.queue), Cleared);
    hide Calm, Fated;
    assert CommitsOf([Clear]) == [];
    ReasonedLess(s, t, steps);
  }

  lemma DiscardQueued(s: State, steps: seq<Step>, session: string, sequence: nat)
    requires Reasoned(s, steps) && DiscardStaged(session, sequence) in steps
    ensures Reasoned(s.(queue := s.queue + [Discard(session, sequence, s.now)]), steps)
  {
    hide Calm, FateFits;
    var t := s.(queue := s.queue + [Discard(session, sequence, s.now)]);
    CommitsJoin(s.queue, [Discard(session, sequence, s.now)]);
    assert CommitsOf([Discard(session, sequence, s.now)]) == [];
    assert Flight(t) == Flight(s);
    hide Flight;
  }

  // Switches and keys, with the commits where they are.
  lemma SwitchReasoned(s: State, t: State, steps: seq<Step>)
    requires Reasoned(s, steps)
    requires t == s.(enabled := t.enabled, protection := t.protection, lock := t.lock, rows := t.rows, resetAt := t.resetAt)
    requires Calm(steps) ==> t.lock == s.lock && (s.enabled ==> t.enabled) && (t.enabled ==> t.protection.Some?)
    ensures Reasoned(t, steps)
  {
    assert Flight(t) == Flight(s);
    hide Flight, FateFits, Calm;
  }

  lemma CallReasoned(s: State, steps: seq<Step>, step: Step)
    requires Reasoned(s, steps) && !step.Work? && !step.Enqueue? && !step.DiscardStaged? && (Calm(steps) ==> Undisturbed(step))
    ensures Reasoned(Next(s, step), steps)
  {
    var t := Next(s, step);
    assert Calm(steps) ==> Steady(s);
    hide Reasoned, Calm, EmptyQueue, Flight, Sealed;
    match step
    case SetEnabled(value) =>
      if value {
        SwitchReasoned(s, t, steps);
      } else if s.lock.Free? {
        EmptyQueueReasoned(s, t, steps);
      }
    case ResetQueue => if s.lock.Lowered? { EmptyQueueReasoned(s, t, steps); }
    case Tick(_) => SameReasoned(s, t, steps);
    case Stop => SameReasoned(s, t, steps);
    case _ => SwitchReasoned(s, t, steps);
  }

  lemma StepReasoned(s: State, steps: seq<Step>, step: Step)
    requires Reasoned(s, steps)
    ensures Reasoned(Next(s, step), steps + [step])
  {
    var t, all := Next(s, step), steps + [step];
    StillRemembered(s, steps, step);
    assert step in all;
    hide Reasoned, Calm, Works;
    match step
    case Enqueue(session, sequence, bopomofo) =>
      if t != s { EnqueueReasoned(s, all, Commit(s.next, session, sequence, bopomofo, s.now, s.generation)); }
    case DiscardStaged(session, sequence) => if t != s { DiscardQueued(s, all, session, sequence); }
    case Work(fails) => WorksReasoned(s, all, fails);
    case _ => CallReasoned(s, all, step);
  }

  lemma {:induction false} RunReasoned(window: nat, rows: map<(string, nat), Row>, protection: Option<Protection>, steps: seq<Step>)
    ensures Reasoned(Run(Start(window, rows, protection), steps), steps)
  {
    var start := Start(window, rows, protection);
    if steps == [] {
      assert Flight(start) == [];
    } else {
      var front, last := steps[..|steps| - 1], steps[|steps| - 1];
      hide Reasoned, Next;
      RunReasoned(window, rows, protection, front);
      StepReasoned(Run(start, front), front, last);
      assert steps == front + [last];
    }
  }

  // When nothing is on its way each commit queued has met one fate: it was stored,
  // or its row was there; it had no input; a step discarded it by its name; or else
  // recording was switched off, the data reset, or the database failed meanwhile.
  lemma NothingIsForgotten(window: nat, rows: map<(string, nat), Row>, protection: Option<Protection>, steps: seq<Step>)
    requires Found(rows, protection) && Flight(Run(Start(window, rows, protection), steps)) == []
    ensures var s := Run(Start(window, rows, protection), steps);
      && |s.queued| == s.next && (forall n: nat :: n < s.next <==> n in s.fates)
      && (forall n <- s.fates :: s.queued[n].number == n && FateFits(s.fates[n], s.queued[n], steps))
  {
    RunKeeps(window, rows, protection, steps);
    RunReasoned(window, rows, protection, steps);
  }
}
