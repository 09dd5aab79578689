/**
 Every run of the bounded queue: tickets are popped once and give what was
 pushed with them, cells have one owner, and failures are real.
 */
module MpmcRuns {
  import opened Wrappers
  import opened MpmcQueue
  import opened MpmcSteps

  lemma {:induction false} RunKeeps(capacity: nat, steps: seq<Step>)
    requires capacity >= 2
    ensures Inv(Run(capacity, steps))
  {
    if steps == [] {
      StartHolds(capacity);
    } else {
      RunKeeps(capacity, steps[..|steps| - 1]);
      StepKeeps(Run(capacity, steps[..|steps| - 1]), steps[|steps| - 1]);
    }
  }

  // The state after some of the steps of a run.
  function Moment(capacity: nat, steps: seq<Step>, time: nat): State
    requires capacity > 0 && time <= |steps|
  {
    Run(capacity, steps[..time])
  }

  // At that moment the queue was full: the cell of the next ticket to push was not released.
  predicate FullAt(capacity: nat, steps: seq<Step>, p: nat, time: nat)
    requires capacity > 0
  {
    time <= |steps| && var s := Moment(capacity, steps, time);
    s.enqueue == p && p >= capacity && p - capacity !in s.released
  }

  // At that moment the queue was empty: the next ticket to pop was not published.
  predicate EmptyAt(capacity: nat, steps: seq<Step>, p: nat, time: nat)
    requires capacity > 0
  {
    time <= |steps| && var s := Moment(capacity, steps, time);
    s.dequeue == p && p !in s.published
  }

  // What a thread read justifies the failure it is about to report.
  predicate Justified(capacity: nat, steps: seq<Step>, pc: Pc)
    requires capacity > 0
  {
    match pc
    case PushRead(_, p, sequence, time) => sequence < p ==> FullAt(capacity, steps, p, time)
    case PopRead(p, sequence, time) => sequence < p + 1 ==> EmptyAt(capacity, steps, p, time)
    case _ => true
  }

  predicate Real(capacity: nat, steps: seq<Step>, r: Result)
    requires capacity > 0
  {
    match r
    case Full(p, time) => FullAt(capacity, steps, p, time)
    case Empty(p, time) => EmptyAt(capacity, steps, p, time)
    case _ => true
  }

  ghost predicate FailuresReal(capacity: nat, steps: seq<Step>)
    requires capacity > 0
  {
    var s := Run(capacity, steps);
    && s.time == |steps|
    && (forall a <- s.threads :: Justified(capacity, steps, s.threads[a]))
    && (forall r <- s.log :: Real(capacity, steps, r))
  }

  lemma MomentsStay(capacity: nat, steps: seq<Step>, x: Step, pc: Pc, r: Result)
    requires capacity > 0
    ensures Justified(capacity, steps, pc) ==> Justified(capacity, steps + [x], pc)
    ensures Real(capacity, steps, r) ==> Real(capacity, steps + [x], r)
  {
    forall time: nat | time <= |steps| ensures (steps + [x])[..time] == steps[..time] {
    }
  }

  // What a thread would read in this state justifies the failure it would report.
  predicate ReadingReal(capacity: nat, steps: seq<Step>, pc: Pc)
    requires capacity > 0
  {
    var s := Run(capacity, steps);
    && (pc.PushLoaded? ==> CellOf(s, pc.position).sequence < pc.position ==> FullAt(capacity, steps, pc.position, |steps|))
    && (pc.PopLoaded? ==> CellOf(s, pc.position).sequence < pc.position + 1 ==> EmptyAt(capacity, steps, pc.position, |steps|))
  }

  lemma ReadingOfState(s: State, a: nat)
    requires Inv(s) && a in s.threads
    ensures s.threads[a].PushLoaded? ==> var p := s.threads[a].position;
      CellOf(s, p).sequence < p ==> s.enqueue == p && p >= |s.cells| && p - |s.cells| !in s.released
    ensures s.threads[a].PopLoaded? ==> var p := s.threads[a].position;
      CellOf(s, p).sequence < p + 1 ==> s.dequeue == p && p !in s.published
  {
    assert PcOk(s, s.threads[a]);
    if s.threads[a].PushLoaded? || s.threads[a].PopLoaded? {
      Behind(s, s.threads[a].position);
    }
  }

  lemma ReadingOfRun(capacity: nat, steps: seq<Step>, a: nat)
    requires capacity >= 2 && a in Run(capacity, steps).threads
    ensures var s := Run(capacity, steps);
      && (s.threads[a].PushLoaded? ==> var p := s.threads[a].position;
           CellOf(s, p).sequence < p ==> s.enqueue == p && p >= |s.cells| && p - |s.cells| !in s.released)
      && (s.threads[a].PopLoaded? ==> var p := s.threads[a].position;
           CellOf(s, p).sequence < p + 1 ==> s.dequeue == p && p !in s.published)
  {
    hide Inv;
    RunKeeps(capacity, steps);
    ReadingOfState(Run(capacity, steps), a);
  }

  lemma ReadingIsReal(capacity: nat, steps: seq<Step>, a: nat)
    requires capacity >= 2 && a in Run(capacity, steps).threads
    ensures ReadingReal(capacity, steps, Run(capacity, steps).threads[a])
  {
    ReadingOfRun(capacity, steps, a);
    assert steps[..|steps|] == steps;
  }

  // A thread that has read a sequence has just read it.
  lemma ReadNow(s: State, x: Step)
    requires s.cells != []
    ensures PcOf(Next(s, x), x.thread).PushRead? ==> PcOf(s, x.thread).PushLoaded? && var p := PcOf(s, x.thread).position;
      PcOf(Next(s, x), x.thread) == PushRead(PcOf(s, x.thread).item, p, CellOf(s, p).sequence, s.time)
    ensures PcOf(Next(s, x), x.thread).PopRead? ==> PcOf(s, x.thread).PopLoaded? && var p := PcOf(s, x.thread).position;
      PcOf(Next(s, x), x.thread) == PopRead(p, CellOf(s, p).sequence, s.time)
  {
  }

  lemma NextThreadJustified(capacity: nat, steps: seq<Step>, x: Step)
    requires capacity >= 2 && FailuresReal(capacity, steps)
    ensures Justified(capacity, steps + [x], PcOf(Run(capacity, steps + [x]), x.thread))
  {
    var s := Run(capacity, steps);
    assert (steps + [x])[..|steps|] == steps == steps[..|steps|];
    ReadNow(s, x);
    if x.thread in s.threads {
      ReadingIsReal(capacity, steps, x.thread);
    }
  }

  // The log grows by at most what the moving thread is justified to report.
  lemma NextLogged(capacity: nat, steps: seq<Step>, x: Step, r: Result)
    requires capacity >= 2 && FailuresReal(capacity, steps)
    requires r in Run(capacity, steps + [x]).log
    ensures Real(capacity, steps + [x], r)
  {
    var s := Run(capacity, steps);
    assert (steps + [x])[..|steps|] == steps;
    MomentsStay(capacity, steps, x, Idle, r);
    if r !in s.log {
      assert x.thread in s.threads;
      assert Justified(capacity, steps, s.threads[x.thread]);
    }
  }

  lemma {:induction false} FailuresAreReal(capacity: nat, steps: seq<Step>)
    requires capacity >= 2
    ensures FailuresReal(capacity, steps)
  {
    if steps != [] {
      var before, x := steps[..|steps| - 1], steps[|steps| - 1];
      assert steps == before + [x];
      FailuresAreReal(capacity, before);
      var s, s' := Run(capacity, before), Run(capacity, steps);
      NextThreadJustified(capacity, before, x);
      forall a <- s'.threads ensures Justified(capacity, steps, s'.threads[a]) {
        if a != x.thread {
          MomentsStay(capacity, before, x, s.threads[a], Pushed(0, 0));
        }
      }
      forall r <- s'.log ensures Real(capacity, steps, r) {
        NextLogged(capacity, before, x, r);
      }
    }
  }

  // ---- what a reader can rely on ---------------------------------------------------------------------

  // The queue never holds more tickets than it has cells.
  lemma Window(s: State)
    requires CellsOk(s)
    ensures s.dequeue <= s.enqueue <= s.dequeue + |s.cells|
  {
    var i := Slot(s.dequeue, |s.cells|);
    assert CellOk(s, i);
    if s.dequeue < Ticket(s, i) < s.dequeue + |s.cells| {
      SameSlot(s.dequeue, Ticket(s, i), |s.cells|);
    }
  }

  // The threads between claiming a cell and handing it on own different cells.
  ghost predicate OwnersApart(s: State)
    requires s.cells != []
  {
    forall a <- s.threads, b <- s.threads :: a != b && Owned(s.threads[a]).Some? && Owned(s.threads[b]).Some? ==>
      Slot(Owned(s.threads[a]).value, |s.cells|) != Slot(Owned(s.threads[b]).value, |s.cells|)
  }

  // A popped ticket is popped once, after it was pushed, and gives the value pushed with it.
  predicate ValuesArrive(s: State) {
    && Once(s.log) && PushedFirst(s.log)
    && (forall r <- s.log :: r.Pushed? || r.Popped? ==> r.ticket < |s.pushed| && r.item == s.pushed[r.ticket])
  }

  lemma EveryRun(capacity: nat, steps: seq<Step>)
    requires capacity >= 2
    ensures var s := Run(capacity, steps);
      && s.dequeue <= s.enqueue <= s.dequeue + capacity
      && OwnersApart(s) && ValuesArrive(s)
    ensures forall r <- Run(capacity, steps).log :: Real(capacity, steps, r)
  {
    var s := Run(capacity, steps);
    RunKeeps(capacity, steps);
    FailuresAreReal(capacity, steps);
    Window(s);
    forall a <- s.threads, b <- s.threads | a != b && Owned(s.threads[a]).Some? && Owned(s.threads[b]).Some?
      ensures Slot(Owned(s.threads[a]).value, |s.cells|) != Slot(Owned(s.threads[b]).value, |s.cells|)
    {
      OwnCell(s, a, b);
    }
    forall r <- s.log | r.Pushed? || r.Popped? ensures r.ticket < |s.pushed| && r.item == s.pushed[r.ticket] {
      assert ResultOk(s, r);
    }
  }

  // Once every call has returned nothing is lost: each ticket was returned by
  // the call that claimed it, and the cells hold, in order, what is not popped.
  lemma NothingIsLost(capacity: nat, steps: seq<Step>)
    requires capacity >= 2
    requires forall a <- Run(capacity, steps).threads :: Run(capacity, steps).threads[a].Idle?
    ensures var s := Run(capacity, steps);
      && (forall t: nat :: t < s.enqueue <==> t < |s.pushed| && Pushed(t, s.pushed[t]) in s.log)
      && (forall t: nat :: t < s.dequeue <==> t < |s.pushed| && Popped(t, s.pushed[t]) in s.log)
      && (forall t: nat :: s.dequeue <= t < |s.pushed| ==> CellOf(s, t) == Cell(t + 1, Some(s.pushed[t])))
  {
    RunKeeps(capacity, steps);
    QuietState(Run(capacity, steps));
  }

  lemma QuietState(s: State)
    requires Inv(s) && forall a <- s.threads :: s.threads[a].Idle?
    ensures forall t: nat :: t < s.enqueue <==> t < |s.pushed| && Pushed(t, s.pushed[t]) in s.log
    ensures forall t: nat :: t < s.dequeue <==> t < |s.pushed| && Popped(t, s.pushed[t]) in s.log
    ensures forall t: nat :: s.dequeue <= t < |s.pushed| ==> CellOf(s, t) == Cell(t + 1, Some(s.pushed[t]))
  {
    forall t: nat ensures !Pushing(s, t) && !Popping(s, t) {
    }
    forall t: nat | t < |s.pushed| && Popped(t, s.pushed[t]) in s.log ensures t < s.dequeue {
      assert ResultOk(s, Popped(t, s.pushed[t]));
      ReleasedIsPopped(s, t);
    }
    forall t: nat | s.dequeue <= t < |s.pushed| ensures CellOf(s, t) == Cell(t + 1, Some(s.pushed[t])) {
      Waiting(s, t);
    }
  }

  lemma ReleasedIsPopped(s: State, t: nat)
    requires CellsOk(s) && Released(s, t)
    ensures t < s.dequeue
  {
    var i := Slot(t, |s.cells|);
    assert CellOk(s, i);
    if Ticket(s, i) < t + |s.cells| {
      SameSlot(t, Ticket(s, i), |s.cells|);
    }
  }

  lemma Waiting(s: State, t: nat)
    requires CellsOk(s) && s.dequeue <= t < s.enqueue && Published(s, t)
    ensures CellOf(s, t) == Cell(t + 1, Some(s.pushed[t]))
  {
    var i := Slot(t, |s.cells|);
    assert CellOk(s, i);
    if Released(s, t) {
      ReleasedIsPopped(s, t);
      assert false;
    }
  }
}
