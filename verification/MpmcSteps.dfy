/**
 What every step of a thread on the bounded queue keeps.
 */
module MpmcSteps {
  import opened Wrappers
  import opened MpmcQueue

  // ---- slots -----------------------------------------------------------------------------

  lemma {:induction false} SameSlot(p: nat, q: nat, capacity: nat)
    requires capacity > 0 && p <= q < p + capacity && Slot(p, capacity) == Slot(q, capacity)
    ensures p == q
  {
    if p >= capacity {
      SameSlot(p - capacity, q - capacity, capacity);
    }
  }

  lemma SlotAround(p: nat, capacity: nat)
    requires capacity >= 2
    ensures Slot(p + capacity, capacity) == Slot(p, capacity)
    ensures Slot(p + 1, capacity) != Slot(p, capacity)
  {
    if Slot(p + 1, capacity) == Slot(p, capacity) {
      SameSlot(p, p + 1, capacity);
    }
  }

  lemma {:induction false} SlotIsModulo(p: nat, capacity: nat)
    requires capacity > 0
    ensures Slot(p, capacity) == p % capacity
  {
    if p >= capacity {
      SlotIsModulo(p - capacity, capacity);
      ModuloLess(p, capacity);
    }
  }

  lemma ModuloLess(p: nat, capacity: nat)
    requires 0 < capacity <= p
    ensures (p - capacity) % capacity == p % capacity
  {
    var x := p - capacity;
    var q := x / capacity;
    assert (q + 1) * capacity == q * capacity + capacity;
    SameQuotient(q + 1, x % capacity, p / capacity, p % capacity, capacity);
  }

  lemma SameQuotient(q: int, r: nat, q': int, r': nat, capacity: nat)
    requires r < capacity && r' < capacity && q * capacity + r == q' * capacity + r'
    ensures r == r'
  {
    assert (q - q') * capacity == r' - r;
    MultipleIsFar(q - q', capacity);
  }

  lemma {:induction false} MultipleIsFar(x: int, capacity: nat)
    ensures x == 0 || x * capacity >= capacity || x * capacity + capacity <= 0
    decreases if x < 0 then -x else x
  {
    if x > 0 {
      MultipleIsFar(x - 1, capacity);
    } else if x < 0 {
      MultipleIsFar(x + 1, capacity);
    }
  }

  // ---- what every step keeps ----------------------------------------------------------------

  // A cell waits for the push of a ticket, or for its pop.
  predicate Free(s: State, i: nat)
    requires i < |s.cells|
  {
    Slot(s.cells[i].sequence, |s.cells|) == i
  }

  function Ticket(s: State, i: nat): int
    requires i < |s.cells|
  {
    if Free(s, i) then s.cells[i].sequence else s.cells[i].sequence - 1
  }

  // The ticket a cell waits for is its own, not more than one round ahead of
  // the queue and none behind it, and what waits to be popped was pushed.
  predicate CellOk(s: State, i: nat)
    requires i < |s.cells|
  {
    var t := Ticket(s, i);
    && t >= 0 && Slot(t, |s.cells|) == i
    && s.enqueue <= t + |s.cells| && (t >= |s.cells| ==> t - |s.cells| < s.dequeue)
    && (if Free(s, i) then s.dequeue <= t && (t >= s.enqueue ==> s.cells[i].value.None?)
        else t < s.enqueue && t < |s.pushed| && (t >= s.dequeue ==> s.cells[i].value == Some(s.pushed[t])))
  }

  predicate Released(s: State, t: nat)
    requires s.cells != []
  {
    t < Ticket(s, Slot(t, |s.cells|))
  }

  predicate Published(s: State, t: nat)
    requires s.cells != []
  {
    var i := Slot(t, |s.cells|);
    t < Ticket(s, i) || (t == Ticket(s, i) && !Free(s, i))
  }

  // A ticket is published once its value can be popped, and released once its cell can be reused.
  ghost predicate Tracked(s: State)
    requires s.cells != []
  {
    && (forall t: nat :: t in s.released <==> Released(s, t))
    && (forall t: nat :: t in s.published <==> Published(s, t))
  }

  function PushTicket(pc: Pc): Option<nat> {
    match pc
    case PushClaimed(_, p) => Some(p)
    case PushWritten(_, p) => Some(p)
    case _ => None
  }

  function PopTicket(pc: Pc): Option<nat> {
    match pc
    case PopClaimed(p) => Some(p)
    case PopTaken(p, _) => Some(p)
    case PopCleared(p, _) => Some(p)
    case _ => None
  }

  function Owned(pc: Pc): Option<nat> {
    if PushTicket(pc).Some? then PushTicket(pc) else PopTicket(pc)
  }

  // What a thread read is not newer than what there is, and its cell is as it needs it.
  predicate PcOk(s: State, pc: Pc)
    requires s.cells != []
  {
    match pc
    case Idle => true
    case PushLoaded(_, p) => p <= s.enqueue
    case PushRead(_, p, sequence, time) =>
      p <= s.enqueue && sequence <= CellOf(s, p).sequence
    case PushClaimed(item, p) =>
      p < s.enqueue && p < |s.pushed| && s.pushed[p] == item && CellOf(s, p) == Cell(p, None)
    case PushWritten(item, p) =>
      p < s.enqueue && p < |s.pushed| && s.pushed[p] == item && CellOf(s, p) == Cell(p, Some(item))
    case PopLoaded(p) => p <= s.dequeue
    case PopRead(p, sequence, time) =>
      p <= s.dequeue && sequence <= CellOf(s, p).sequence
    case PopClaimed(p) =>
      p < s.dequeue && p < |s.pushed| && CellOf(s, p) == Cell(p + 1, Some(s.pushed[p]))
    case PopTaken(p, item) =>
      p < s.dequeue && p < |s.pushed| && CellOf(s, p) == Cell(p + 1, Some(item)) && item == s.pushed[p]
    case PopCleared(p, item) =>
      p < s.dequeue && p < |s.pushed| && CellOf(s, p) == Cell(p + 1, None) && item == s.pushed[p]
  }

  ghost predicate ThreadsOk(s: State)
    requires s.cells != []
  {
    forall a <- s.threads :: PcOk(s, s.threads[a])
  }

  // No two threads hold the same ticket.
  predicate Apart(s: State) {
    forall a <- s.threads, b <- s.threads :: a != b ==>
      && (PushTicket(s.threads[a]).Some? ==> PushTicket(s.threads[a]) != PushTicket(s.threads[b]))
      && (PopTicket(s.threads[a]).Some? ==> PopTicket(s.threads[a]) != PopTicket(s.threads[b]))
  }

  ghost predicate Pushing(s: State, t: nat) {
    exists a :: a in s.threads && PushTicket(s.threads[a]) == Some(t)
  }

  ghost predicate Popping(s: State, t: nat) {
    exists a :: a in s.threads && PopTicket(s.threads[a]) == Some(t)
  }

  // A claimed ticket is in the hands of a thread until it is published, or released.
  ghost predicate Held(s: State) {
    && (forall t: nat :: t < s.enqueue ==> t in s.published || Pushing(s, t))
    && (forall t: nat :: t < s.dequeue ==> t in s.released || Popping(s, t))
  }

  // What a finished call returned is what happened.
  predicate ResultOk(s: State, r: Result) {
    match r
    case Pushed(t, item) => t < |s.pushed| && s.pushed[t] == item && t in s.published
    case Popped(t, item) => t < |s.pushed| && s.pushed[t] == item && t in s.released
    case _ => true
  }

  // No ticket is returned twice.
  predicate Once(log: seq<Result>) {
    forall i, j :: 0 <= i < j < |log| ==>
      && (log[i].Popped? && log[j].Popped? ==> log[i].ticket != log[j].ticket)
      && (log[i].Pushed? && log[j].Pushed? ==> log[i].ticket != log[j].ticket)
  }

  // What is popped was pushed before.
  predicate PushedFirst(log: seq<Result>) {
    forall j :: 0 <= j < |log| && log[j].Popped? ==> Pushed(log[j].ticket, log[j].item) in log[..j]
  }

  // The calls that returned are those that published or released a ticket.
  ghost predicate LogOk(s: State) {
    && (forall r <- s.log :: ResultOk(s, r)) && Once(s.log) && PushedFirst(s.log)
    && (forall t <- s.published :: t < |s.pushed| && Pushed(t, s.pushed[t]) in s.log)
    && (forall t <- s.released :: t < |s.pushed| && Popped(t, s.pushed[t]) in s.log)
  }

  ghost predicate CellsOk(s: State) {
    && |s.cells| >= 2 && s.dequeue <= s.enqueue == |s.pushed|
    && (forall i :: 0 <= i < |s.cells| ==> CellOk(s, i))
  }

  ghost predicate Inv(s: State) {
    CellsOk(s) && Tracked(s) && ThreadsOk(s) && Apart(s) && Held(s) && LogOk(s)
  }

  // A cell read for a ticket that is not its turn yet: the cell is a round or more behind.
  lemma Behind(s: State, p: nat)
    requires CellsOk(s)
    ensures CellOf(s, p).sequence < p <= s.enqueue ==> p == s.enqueue && p >= |s.cells| && !Released(s, p - |s.cells|)
    ensures CellOf(s, p).sequence < p + 1 ==> !Published(s, p) && (p <= s.dequeue ==> p == s.dequeue)
    ensures CellOf(s, p).sequence == p ==> Free(s, Slot(p, |s.cells|)) && !Published(s, p)
    ensures CellOf(s, p).sequence == p + 1 ==> !Free(s, Slot(p, |s.cells|)) && Ticket(s, Slot(p, |s.cells|)) == p
  {
    var i := Slot(p, |s.cells|);
    var t := Ticket(s, i);
    assert CellOk(s, i);
    SlotAround(t, |s.cells|);
    SlotAround(p, |s.cells|);
    if t < p {
      if p < t + |s.cells| {
        SameSlot(t, p, |s.cells|);
      }
      SlotAround(p - |s.cells|, |s.cells|);
    }
  }

  // The next ticket to push finds its cell empty, or the cell a round behind.
  lemma NextToPush(s: State)
    requires CellsOk(s) && CellOf(s, s.enqueue).sequence >= s.enqueue
    ensures CellOf(s, s.enqueue) == Cell(s.enqueue, None)
    ensures Ticket(s, Slot(s.enqueue, |s.cells|)) == s.enqueue && Free(s, Slot(s.enqueue, |s.cells|))
  {
    var p := s.enqueue;
    var i := Slot(p, |s.cells|);
    assert CellOk(s, i);
    if p < Ticket(s, i) < p + |s.cells| {
      SameSlot(p, Ticket(s, i), |s.cells|);
    }
  }

  // The next ticket to pop finds its value in its cell, or its cell not yet published.
  lemma NextToPop(s: State)
    requires CellsOk(s) && CellOf(s, s.dequeue).sequence >= s.dequeue + 1
    ensures s.dequeue < s.enqueue && CellOf(s, s.dequeue) == Cell(s.dequeue + 1, Some(s.pushed[s.dequeue]))
    ensures Ticket(s, Slot(s.dequeue, |s.cells|)) == s.dequeue && !Free(s, Slot(s.dequeue, |s.cells|))
  {
    var p := s.dequeue;
    var i := Slot(p, |s.cells|);
    assert CellOk(s, i);
    if p < Ticket(s, i) < p + |s.cells| {
      SameSlot(p, Ticket(s, i), |s.cells|);
    }
  }

  // The cells answer for themselves.
  lemma SameCells(s: State, s': State)
    requires s.cells == s'.cells != [] && s.enqueue == s'.enqueue && s.dequeue == s'.dequeue && s.pushed == s'.pushed
    ensures CellsOk(s) ==> CellsOk(s')
  {
    forall i | 0 <= i < |s.cells| && CellOk(s, i) ensures CellOk(s', i) {
    }
  }

  lemma SameTracked(s: State, s': State)
    requires s.cells == s'.cells != [] && s.published == s'.published && s.released == s'.released
    ensures Tracked(s) ==> Tracked(s')
  {
    forall t: nat ensures Released(s', t) == Released(s, t) && Published(s', t) == Published(s, t) {
    }
  }

  // ---- a step that only moves its thread ------------------------------------------------------

  lemma LocalKeeps(s: State, a: nat, pc: Pc)
    requires Inv(s) && PcOk(s, pc)
    requires PushTicket(pc) == PushTicket(PcOf(s, a)) && PopTicket(pc) == PopTicket(PcOf(s, a))
    ensures Inv(Goes(s, a, pc))
  {
    var s' := Goes(s, a, pc);
    SameCells(s, s');
    SameTracked(s, s');
    forall b <- s'.threads ensures PcOk(s', s'.threads[b]) {
      assert b != a ==> PcOk(s, s.threads[b]);
    }
    SameHands(s, s', a);
    assert LogOk(s');
  }

  // Who holds what is unchanged when no thread's tickets change.
  lemma SameHands(s: State, s': State, a: nat)
    requires Apart(s) && s'.threads.Keys == s.threads.Keys + {a} && s'.enqueue == s.enqueue && s'.dequeue == s.dequeue
    requires s'.published == s.published && s'.released == s.released
    requires forall b <- s.threads :: b != a ==> s'.threads[b] == s.threads[b]
    requires PushTicket(s'.threads[a]) == PushTicket(PcOf(s, a)) && PopTicket(s'.threads[a]) == PopTicket(PcOf(s, a))
    ensures Apart(s') && (Held(s) ==> Held(s'))
  {
    forall t: nat | Pushing(s, t) ensures Pushing(s', t) {
      var b :| b in s.threads && PushTicket(s.threads[b]) == Some(t);
      assert PushTicket(s'.threads[b]) == Some(t);
    }
    forall t: nat | Popping(s, t) ensures Popping(s', t) {
      var b :| b in s.threads && PopTicket(s.threads[b]) == Some(t);
      assert PopTicket(s'.threads[b]) == Some(t);
    }
  }

  lemma LogKeeps(s: State, r: Result)
    requires Inv(s) && (r.Full? || r.Empty?)
    ensures Inv(Log(s, r))
  {
    var s' := Log(s, r);
    SameCells(s, s');
    SameTracked(s, s');
    forall b <- s'.threads ensures PcOk(s', s'.threads[b]) {
      assert PcOk(s, s.threads[b]);
    }
    forall t: nat ensures Pushing(s, t) == Pushing(s', t) && Popping(s, t) == Popping(s', t) {
    }
    forall x <- s'.log ensures ResultOk(s', x) {
      assert x == r || x in s.log;
    }
    forall j | 0 <= j <= |s.log| ensures s'.log[..j] == s.log[..j] {
    }
    assert LogOk(s');
  }

  lemma FailKeeps(s: State, a: nat, r: Result)
    requires Inv(s) && (r.Full? || r.Empty?) && Owned(PcOf(s, a)).None?
    ensures Inv(Goes(Log(s, r), a, Idle))
  {
    LogKeeps(s, r);
    LocalKeeps(Log(s, r), a, Idle);
  }

  // ---- claiming a ticket -----------------------------------------------------------------------

  lemma ClaimPushCells(s: State, item: Value)
    requires CellsOk(s) && CellOf(s, s.enqueue).sequence >= s.enqueue
    ensures CellsOk(s.(enqueue := s.enqueue + 1, pushed := s.pushed + [item]))
  {
    NextToPush(s);
    var s' := s.(enqueue := s.enqueue + 1, pushed := s.pushed + [item]);
    forall i | 0 <= i < |s.cells| ensures CellOk(s', i) {
      assert CellOk(s, i);
      SlotAround(Ticket(s, i), |s.cells|);
    }
  }

  lemma ClaimPopCells(s: State)
    requires CellsOk(s) && CellOf(s, s.dequeue).sequence >= s.dequeue + 1
    ensures CellsOk(s.(dequeue := s.dequeue + 1))
  {
    NextToPop(s);
    var s' := s.(dequeue := s.dequeue + 1);
    forall i | 0 <= i < |s.cells| ensures CellOk(s', i) {
      assert CellOk(s, i);
    }
  }

  // A thread that held nothing takes a ticket: the others hold theirs.
  lemma StillHeld(s: State, s': State, a: nat)
    requires Owned(PcOf(s, a)).None?
    requires s'.threads.Keys == s.threads.Keys + {a} && forall b <- s.threads :: b != a ==> s'.threads[b] == s.threads[b]
    ensures forall t: nat :: Pushing(s, t) ==> Pushing(s', t)
    ensures forall t: nat :: Popping(s, t) ==> Popping(s', t)
  {
    forall t: nat | Pushing(s, t) ensures Pushing(s', t) {
      var b :| b in s.threads && PushTicket(s.threads[b]) == Some(t);
      assert PushTicket(s'.threads[b]) == Some(t);
    }
    forall t: nat | Popping(s, t) ensures Popping(s', t) {
      var b :| b in s.threads && PopTicket(s.threads[b]) == Some(t);
      assert PopTicket(s'.threads[b]) == Some(t);
    }
  }

  lemma ClaimPushKeeps(s: State, a: nat, item: Value)
    requires Inv(s) && Owned(PcOf(s, a)).None?
    requires CellOf(s, s.enqueue).sequence >= s.enqueue
    ensures Inv(Goes(s.(enqueue := s.enqueue + 1, pushed := s.pushed + [item]), a, PushClaimed(item, s.enqueue)))
  {
    var s' := Goes(s.(enqueue := s.enqueue + 1, pushed := s.pushed + [item]), a, PushClaimed(item, s.enqueue));
    ClaimPushCells(s, item);
    SameCells(s.(enqueue := s.enqueue + 1, pushed := s.pushed + [item]), s');
    NextToPush(s);
    SameTracked(s, s');
    forall b <- s'.threads ensures PcOk(s', s'.threads[b]) {
      assert b != a ==> PcOk(s, s.threads[b]);
    }
    StillHeld(s, s', a);
    assert PushTicket(s'.threads[a]) == Some(s.enqueue);
    assert Held(s');
    assert Apart(s') by {
      forall b <- s.threads | PushTicket(s.threads[b]).Some? ensures PushTicket(s.threads[b]).value < s.enqueue {
        assert PcOk(s, s.threads[b]);
      }
    }
  }

  lemma ClaimPopThreads(s: State, a: nat)
    requires CellsOk(s) && ThreadsOk(s) && Apart(s) && Owned(PcOf(s, a)).None?
    requires CellOf(s, s.dequeue).sequence >= s.dequeue + 1
    ensures ThreadsOk(Goes(s.(dequeue := s.dequeue + 1), a, PopClaimed(s.dequeue)))
    ensures Apart(Goes(s.(dequeue := s.dequeue + 1), a, PopClaimed(s.dequeue)))
  {
    var s' := Goes(s.(dequeue := s.dequeue + 1), a, PopClaimed(s.dequeue));
    NextToPop(s);
    forall b <- s'.threads ensures PcOk(s', s'.threads[b]) {
      assert b != a ==> PcOk(s, s.threads[b]);
    }
    forall b <- s.threads | PopTicket(s.threads[b]).Some? ensures PopTicket(s.threads[b]).value < s.dequeue {
      assert PcOk(s, s.threads[b]);
    }
  }

  lemma ClaimPopKeeps(s: State, a: nat)
    requires Inv(s) && Owned(PcOf(s, a)).None?
    requires CellOf(s, s.dequeue).sequence >= s.dequeue + 1
    ensures Inv(Goes(s.(dequeue := s.dequeue + 1), a, PopClaimed(s.dequeue)))
  {
    var s' := Goes(s.(dequeue := s.dequeue + 1), a, PopClaimed(s.dequeue));
    ClaimPopCells(s);
    SameCells(s.(dequeue := s.dequeue + 1), s');
    ClaimPopThreads(s, a);
    SameTracked(s, s');
    StillHeld(s, s', a);
    assert PopTicket(s'.threads[a]) == Some(s.dequeue);
    assert Held(s');
    assert LogOk(s');
  }

  // ---- using a claimed cell ----------------------------------------------------------------------

  // The cell of a held ticket is no other thread's.
  lemma OwnCell(s: State, a: nat, b: nat)
    requires CellsOk(s) && ThreadsOk(s) && Apart(s) && a in s.threads && b in s.threads && a != b
    requires Owned(s.threads[a]).Some? && Owned(s.threads[b]).Some?
    ensures Slot(Owned(s.threads[a]).value, |s.cells|) != Slot(Owned(s.threads[b]).value, |s.cells|)
  {
    var p, q := Owned(s.threads[a]).value, Owned(s.threads[b]).value;
    assert PcOk(s, s.threads[a]) && PcOk(s, s.threads[b]);
    SlotAround(p, |s.cells|);
    SlotAround(q, |s.cells|);
  }

  // A step that changes the cell of the ticket its thread holds leaves the other threads as they were.
  lemma OthersKeep(s: State, s': State, a: nat, p: nat)
    requires CellsOk(s) && ThreadsOk(s) && Apart(s) && a in s.threads && Owned(s.threads[a]) == Some(p)
    requires s'.enqueue == s.enqueue && s'.dequeue == s.dequeue && s'.pushed == s.pushed
    requires |s'.cells| == |s.cells| && CellOf(s, p).sequence <= CellOf(s', p).sequence
    requires forall i :: 0 <= i < |s.cells| && i != Slot(p, |s.cells|) ==> s'.cells[i] == s.cells[i]
    ensures forall b <- s.threads :: b != a ==> PcOk(s', s.threads[b])
  {
    forall b <- s.threads | b != a ensures PcOk(s', s.threads[b]) {
      assert PcOk(s, s.threads[b]);
      if Owned(s.threads[b]).Some? {
        OwnCell(s, a, b);
      }
    }
  }

  // Writing the value of a claimed cell, or clearing it.
  lemma StoreCells(s: State, p: nat, v: Option<Value>)
    requires CellsOk(s) && (CellOf(s, p).sequence == p < s.enqueue || (CellOf(s, p).sequence == p + 1 && p < s.dequeue))
    ensures CellsOk(SetCell(s, p, CellOf(s, p).(value := v)))
    ensures Tracked(s) ==> Tracked(SetCell(s, p, CellOf(s, p).(value := v)))
  {
    var s' := SetCell(s, p, CellOf(s, p).(value := v));
    SlotAround(p, |s.cells|);
    forall i | 0 <= i < |s.cells| ensures Free(s', i) == Free(s, i) && Ticket(s', i) == Ticket(s, i) && CellOk(s', i) {
      assert CellOk(s, i);
    }
    forall t: nat ensures Released(s', t) == Released(s, t) && Published(s', t) == Published(s, t) {
    }
  }

  lemma OwnedCell(s: State, pc: Pc, p: nat)
    requires s.cells != [] && PcOk(s, pc) && Owned(pc) == Some(p)
    ensures CellOf(s, p).sequence == p < s.enqueue || (CellOf(s, p).sequence == p + 1 && p < s.dequeue)
  {
  }

  lemma StoreThreads(s: State, s': State, a: nat, p: nat, pc: Pc)
    requires CellsOk(s) && ThreadsOk(s) && Apart(s) && a in s.threads && Owned(s.threads[a]) == Some(p)
    requires s'.enqueue == s.enqueue && s'.dequeue == s.dequeue && s'.pushed == s.pushed
    requires |s'.cells| == |s.cells| && CellOf(s, p).sequence <= CellOf(s', p).sequence
    requires forall i :: 0 <= i < |s.cells| && i != Slot(p, |s.cells|) ==> s'.cells[i] == s.cells[i]
    requires s'.threads == s.threads[a := pc] && PcOk(s', pc)
    ensures ThreadsOk(s')
  {
    OthersKeep(s, s', a, p);
  }

  lemma StoreHands(s: State, s': State, a: nat, p: nat, pc: Pc)
    requires CellsOk(s) && ThreadsOk(s) && Apart(s) && Held(s) && LogOk(s) && a in s.threads
    requires Owned(s.threads[a]) == Some(p)
    requires PushTicket(pc) == PushTicket(s.threads[a]) && PopTicket(pc) == PopTicket(s.threads[a])
    requires |s'.cells| == |s.cells| && s' == s.(cells := s'.cells, threads := s.threads[a := pc])
    requires CellOf(s, p).sequence <= CellOf(s', p).sequence && PcOk(s', pc)
    requires forall i :: 0 <= i < |s.cells| && i != Slot(p, |s.cells|) ==> s'.cells[i] == s.cells[i]
    ensures ThreadsOk(s') && Apart(s') && Held(s') && LogOk(s')
  {
    assert ThreadsOk(s') by {
      StoreThreads(s, s', a, p, pc);
    }
    assert Apart(s') && Held(s') by {
      SameHands(s, s', a);
    }
    assert LogOk(s');
  }

  lemma StoreKeeps(s: State, a: nat, p: nat, v: Option<Value>, pc: Pc)
    requires Inv(s) && a in s.threads && Owned(s.threads[a]) == Some(p)
    requires PushTicket(pc) == PushTicket(s.threads[a]) && PopTicket(pc) == PopTicket(s.threads[a])
    requires PcOk(Goes(SetCell(s, p, CellOf(s, p).(value := v)), a, pc), pc)
    ensures Inv(Goes(SetCell(s, p, CellOf(s, p).(value := v)), a, pc))
  {
    var s1 := SetCell(s, p, CellOf(s, p).(value := v));
    var s' := Goes(s1, a, pc);
    OwnedCell(s, s.threads[a], p);
    StoreCells(s, p, v);
    SameCells(s1, s');
    SameTracked(s1, s');
    StoreHands(s, s', a, p, pc);
  }

  // ---- handing a claimed cell on -----------------------------------------------------------------

  lemma PublishCells(s: State, p: nat)
    requires CellsOk(s) && p < s.enqueue && CellOf(s, p) == Cell(p, Some(s.pushed[p]))
    ensures CellsOk(SetCell(s, p, CellOf(s, p).(sequence := p + 1)))
    ensures Tracked(s) ==> Tracked(SetCell(s, p, CellOf(s, p).(sequence := p + 1)).(published := s.published + {p}))
  {
    var s' := SetCell(s, p, CellOf(s, p).(sequence := p + 1));
    SlotAround(p, |s.cells|);
    forall i | 0 <= i < |s.cells| ensures CellOk(s', i) {
      assert CellOk(s, i);
    }
    var s2 := s'.(published := s.published + {p});
    forall t: nat ensures Released(s2, t) == Released(s, t) && (Published(s2, t) <==> Published(s, t) || t == p) {
    }
  }

  lemma ReleaseCells(s: State, p: nat)
    requires CellsOk(s) && p < s.dequeue && CellOf(s, p) == Cell(p + 1, None)
    ensures CellsOk(SetCell(s, p, CellOf(s, p).(sequence := p + |s.cells|)))
  {
    var s' := SetCell(s, p, CellOf(s, p).(sequence := p + |s.cells|));
    SlotAround(p, |s.cells|);
    assert CellOk(s, Slot(p, |s.cells|));
    forall i | 0 <= i < |s.cells| ensures CellOk(s', i) {
      assert CellOk(s, i);
    }
  }

  lemma ReleaseTracked(s: State, p: nat)
    requires |s.cells| >= 2 && Tracked(s) && CellOf(s, p) == Cell(p + 1, None)
    ensures Tracked(SetCell(s, p, CellOf(s, p).(sequence := p + |s.cells|)).(released := s.released + {p}))
  {
    var s' := SetCell(s, p, CellOf(s, p).(sequence := p + |s.cells|)).(released := s.released + {p});
    SlotAround(p, |s.cells|);
    forall t: nat ensures Published(s', t) == Published(s, t) && (Released(s', t) <==> Released(s, t) || t == p) {
      if p < t < p + |s.cells| && Slot(t, |s.cells|) == Slot(p, |s.cells|) {
        SameSlot(p, t, |s.cells|);
      }
    }
  }

  // The thread has handed its ticket on: nobody holds it, the others hold theirs.
  lemma HandedOn(s: State, s': State, a: nat, p: nat)
    requires Apart(s) && Held(s) && a in s.threads && Owned(s.threads[a]) == Some(p)
    requires s'.threads == s.threads[a := Idle] && s'.enqueue == s.enqueue && s'.dequeue == s.dequeue
    requires s'.published == s.published + (if PushTicket(s.threads[a]).Some? then {p} else {})
    requires s'.released == s.released + (if PopTicket(s.threads[a]).Some? then {p} else {})
    ensures Apart(s') && Held(s')
  {
    forall t: nat | Pushing(s, t) && PushTicket(s.threads[a]) != Some(t) ensures Pushing(s', t) {
      var b :| b in s.threads && PushTicket(s.threads[b]) == Some(t);
      assert PushTicket(s'.threads[b]) == Some(t);
    }
    forall t: nat | Popping(s, t) && PopTicket(s.threads[a]) != Some(t) ensures Popping(s', t) {
      var b :| b in s.threads && PopTicket(s.threads[b]) == Some(t);
      assert PopTicket(s'.threads[b]) == Some(t);
    }
  }

  // A ticket handed on is logged for the first time.
  lemma LoggedOnce(s: State, s': State, r: Result)
    requires LogOk(s) && s'.pushed == s.pushed && |s'.cells| == |s.cells| && s'.log == s.log + [r]
    requires r.Pushed? || r.Popped?
    requires r.ticket < |s.pushed| && r.item == s.pushed[r.ticket]
    requires r.Pushed? ==> r.ticket !in s.published && s'.published == s.published + {r.ticket} && s'.released == s.released
    requires r.Popped? ==> r.ticket in s.published && r.ticket !in s.released && s'.released == s.released + {r.ticket} && s'.published == s.published
    ensures LogOk(s')
  {
    forall x <- s'.log ensures ResultOk(s', x) {
      assert x in s.log ==> ResultOk(s, x);
    }
    assert r == s'.log[|s.log|];
    forall x <- s.log ensures x in s'.log {
    }
    forall i | 0 <= i < |s.log| ensures ResultOk(s, s'.log[i]) {
      assert s'.log[i] in s.log;
    }
    forall j | 0 <= j <= |s.log| ensures s'.log[..j] == s.log[..j] {
    }
  }

  lemma PublishHands(s: State, s': State, a: nat, item: Value, p: nat)
    requires CellsOk(s) && ThreadsOk(s) && Apart(s) && Held(s) && LogOk(s) && a in s.threads
    requires s.threads[a] == PushWritten(item, p) && p !in s.published && p < |s.pushed| && s.pushed[p] == item
    requires |s'.cells| == |s.cells| && CellOf(s, p).sequence <= CellOf(s', p).sequence
    requires forall i :: 0 <= i < |s.cells| && i != Slot(p, |s.cells|) ==> s'.cells[i] == s.cells[i]
    requires s' == s.(cells := s'.cells, threads := s.threads[a := Idle], published := s.published + {p}, log := s.log + [Pushed(p, item)])
    ensures ThreadsOk(s') && Apart(s') && Held(s') && LogOk(s')
  {
    StoreThreads(s, s', a, p, Idle);
    HandedOn(s, s', a, p);
    LoggedOnce(s, s', Pushed(p, item));
  }

  lemma WrittenCell(s: State, a: nat, item: Value, p: nat)
    requires Inv(s) && a in s.threads && s.threads[a] == PushWritten(item, p)
    ensures p < s.enqueue && p < |s.pushed| && s.pushed[p] == item && CellOf(s, p) == Cell(p, Some(item))
    ensures p !in s.published
  {
    assert PcOk(s, PushWritten(item, p));
    Behind(s, p);
  }

  lemma PublishQueue(s: State, s': State, p: nat)
    requires CellsOk(s) && Tracked(s) && p < s.enqueue && CellOf(s, p) == Cell(p, Some(s.pushed[p]))
    requires s'.cells == SetCell(s, p, CellOf(s, p).(sequence := p + 1)).cells && s'.published == s.published + {p}
    requires s'.enqueue == s.enqueue && s'.dequeue == s.dequeue && s'.pushed == s.pushed && s'.released == s.released
    ensures CellsOk(s') && Tracked(s')
  {
    PublishCells(s, p);
    SameCells(SetCell(s, p, CellOf(s, p).(sequence := p + 1)), s');
    SameTracked(SetCell(s, p, CellOf(s, p).(sequence := p + 1)).(published := s.published + {p}), s');
  }

  lemma PublishKeeps(s: State, a: nat, item: Value, p: nat)
    requires Inv(s) && a in s.threads && s.threads[a] == PushWritten(item, p)
    ensures Inv(PushStep(s, a, PushWritten(item, p), false))
  {
    var s' := PushStep(s, a, PushWritten(item, p), false);
    hide CellsOk, Tracked, ThreadsOk, Apart, Held, LogOk;
    WrittenCell(s, a, item, p);
    PublishQueue(s, s', p);
    PublishHands(s, s', a, item, p);
  }

  lemma ReleaseQueue(s: State, s': State, p: nat)
    requires CellsOk(s) && Tracked(s) && p < s.dequeue && CellOf(s, p) == Cell(p + 1, None)
    requires s'.cells == SetCell(s, p, CellOf(s, p).(sequence := p + |s.cells|)).cells && s'.released == s.released + {p}
    requires s'.enqueue == s.enqueue && s'.dequeue == s.dequeue && s'.pushed == s.pushed && s'.published == s.published
    ensures CellsOk(s') && Tracked(s')
  {
    ReleaseCells(s, p);
    ReleaseTracked(s, p);
    SameCells(SetCell(s, p, CellOf(s, p).(sequence := p + |s.cells|)), s');
    SameTracked(SetCell(s, p, CellOf(s, p).(sequence := p + |s.cells|)).(released := s.released + {p}), s');
  }

  lemma ReleaseHands(s: State, s': State, a: nat, item: Value, p: nat)
    requires CellsOk(s) && ThreadsOk(s) && Apart(s) && Held(s) && LogOk(s) && a in s.threads
    requires s.threads[a] == PopCleared(p, item) && p < |s.pushed| && s.pushed[p] == item
    requires p in s.published && p !in s.released
    requires |s'.cells| == |s.cells| && CellOf(s, p).sequence <= CellOf(s', p).sequence
    requires forall i :: 0 <= i < |s.cells| && i != Slot(p, |s.cells|) ==> s'.cells[i] == s.cells[i]
    requires s' == s.(cells := s'.cells, threads := s.threads[a := Idle], released := s.released + {p}, log := s.log + [Popped(p, item)])
    ensures ThreadsOk(s') && Apart(s') && Held(s') && LogOk(s')
  {
    StoreThreads(s, s', a, p, Idle);
    HandedOn(s, s', a, p);
    LoggedOnce(s, s', Popped(p, item));
  }

  lemma ClearedCell(s: State, a: nat, item: Value, p: nat)
    requires Inv(s) && a in s.threads && s.threads[a] == PopCleared(p, item)
    ensures p < s.dequeue && p < |s.pushed| && s.pushed[p] == item && CellOf(s, p) == Cell(p + 1, None)
    ensures p in s.published && p !in s.released
  {
    assert PcOk(s, PopCleared(p, item));
    Behind(s, p);
  }

  lemma ReleaseKeeps(s: State, a: nat, item: Value, p: nat)
    requires Inv(s) && a in s.threads && s.threads[a] == PopCleared(p, item)
    ensures Inv(PopStep(s, a, PopCleared(p, item), false))
  {
    var s' := PopStep(s, a, PopCleared(p, item), false);
    hide CellsOk, Tracked, ThreadsOk, Apart, Held, LogOk;
    ClearedCell(s, a, item, p);
    ReleaseQueue(s, s', p);
    ReleaseHands(s, s', a, item, p);
  }

  // ---- every step ---------------------------------------------------------------------------------

  lemma PushKeeps(s: State, a: nat, pc: Pc, spurious: bool)
    requires Inv(s) && a in s.threads && s.threads[a] == pc
    requires pc.PushLoaded? || pc.PushRead? || pc.PushClaimed? || pc.PushWritten?
    ensures Inv(PushStep(s, a, pc, spurious))
  {
    assert PcOk(s, pc);
    match pc
    case PushLoaded(item, p) =>
      LocalKeeps(s, a, PushRead(item, p, CellOf(s, p).sequence, s.time));
    case PushRead(item, p, sequence, time) =>
      if sequence == p && s.enqueue == p && !spurious {
        ClaimPushKeeps(s, a, item);
      } else if sequence < p {
        FailKeeps(s, a, Full(p, time));
      } else {
        LocalKeeps(s, a, PushLoaded(item, s.enqueue));
      }
    case PushClaimed(item, p) => StoreKeeps(s, a, p, Some(item), PushWritten(item, p));
    case PushWritten(item, p) => PublishKeeps(s, a, item, p);
  }

  lemma PopReadKeeps(s: State, a: nat, p: nat, sequence: nat, time: nat, spurious: bool)
    requires Inv(s) && a in s.threads && s.threads[a] == PopRead(p, sequence, time)
    ensures Inv(PopStep(s, a, PopRead(p, sequence, time), spurious))
  {
    assert PcOk(s, PopRead(p, sequence, time));
    hide CellsOk, Tracked, ThreadsOk, Apart, Held, LogOk;
    if sequence == p + 1 && s.dequeue == p && !spurious {
      ClaimPopKeeps(s, a);
    } else if sequence < p + 1 {
      FailKeeps(s, a, Empty(p, time));
    } else {
      LocalKeeps(s, a, PopLoaded(s.dequeue));
    }
  }

  lemma PopKeeps(s: State, a: nat, pc: Pc, spurious: bool)
    requires Inv(s) && a in s.threads && s.threads[a] == pc
    requires pc.PopLoaded? || pc.PopRead? || pc.PopClaimed? || pc.PopTaken? || pc.PopCleared?
    ensures Inv(PopStep(s, a, pc, spurious))
  {
    assert PcOk(s, pc);
    match pc
    case PopLoaded(p) =>
      LocalKeeps(s, a, PopRead(p, CellOf(s, p).sequence, s.time));
    case PopRead(p, sequence, time) => PopReadKeeps(s, a, p, sequence, time, spurious);
    case PopClaimed(p) => LocalKeeps(s, a, PopTaken(p, CellOf(s, p).value.value));
    case PopTaken(p, item) => StoreKeeps(s, a, p, None, PopCleared(p, item));
    case PopCleared(p, item) => ReleaseKeeps(s, a, item, p);
  }

  lemma StartHolds(capacity: nat)
    requires capacity >= 2
    ensures Inv(Start(capacity))
  {
    var s := Start(capacity);
    forall t: nat ensures Slot(t, capacity) <= t {
      SlotIsBelow(t, capacity);
    }
    forall i | 0 <= i < capacity ensures CellOk(s, i) {
    }
    assert Tracked(s);
  }

  lemma {:induction false} SlotIsBelow(t: nat, capacity: nat)
    requires capacity > 0
    ensures Slot(t, capacity) <= t
  {
    if t >= capacity {
      SlotIsBelow(t - capacity, capacity);
    }
  }

  lemma TakesKeeps(s: State, step: Step)
    requires Inv(s)
    ensures Inv(Takes(s, step))
  {
    var pc := PcOf(s, step.thread);
    match pc
    case Idle =>
      LocalKeeps(s, step.thread, if step.call.Push? then PushLoaded(step.call.item, s.enqueue) else PopLoaded(s.dequeue));
    case PushLoaded(_, _) => PushKeeps(s, step.thread, pc, step.spurious);
    case PushRead(_, _, _, _) => PushKeeps(s, step.thread, pc, step.spurious);
    case PushClaimed(_, _) => PushKeeps(s, step.thread, pc, step.spurious);
    case PushWritten(_, _) => PushKeeps(s, step.thread, pc, step.spurious);
    case _ => PopKeeps(s, step.thread, pc, step.spurious);
  }

  lemma StepKeeps(s: State, step: Step)
    requires Inv(s)
    ensures Inv(Next(s, step))
  {
    TakesKeeps(s, step);
    var s1, s' := Takes(s, step), Next(s, step);
    SameCells(s1, s');
    SameTracked(s1, s');
    assert ThreadsOk(s') by {
      forall b <- s'.threads ensures PcOk(s', s'.threads[b]) {
        assert PcOk(s1, s1.threads[b]);
      }
    }
    assert Held(s') by {
      forall t: nat ensures Pushing(s', t) == Pushing(s1, t) && Popping(s', t) == Popping(s1, t) {
      }
    }
    assert LogOk(s') by {
      forall x <- s'.log ensures ResultOk(s', x) {
        assert ResultOk(s1, x);
      }
    }
  }
}
