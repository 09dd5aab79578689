/**
 The bounded queue of many producers and many consumers: every access to a
 shared variable is one step of one thread, in any interleaving. Accesses are
 sequentially consistent and the counters do not wrap around.
 */
module MpmcQueue {
  import opened Wrappers

  type Value = int

  datatype Cell = Cell(sequence: nat, value: Option<Value>)

  // Where a thread is. time: the number of steps before it read the sequence.
  datatype Pc =
    | Idle
    | PushLoaded(item: Value, position: nat)
    | PushRead(item: Value, position: nat, sequence: nat, time: nat)
    | PushClaimed(item: Value, position: nat)
    | PushWritten(item: Value, position: nat)
    | PopLoaded(position: nat)
    | PopRead(position: nat, sequence: nat, time: nat)
    | PopClaimed(position: nat)
    | PopTaken(position: nat, item: Value)
    | PopCleared(position: nat, item: Value)

  datatype Result =
    | Pushed(ticket: nat, item: Value)
    | Full(position: nat, time: nat)
    | Popped(ticket: nat, item: Value)
    | Empty(position: nat, time: nat)

  // pushed: the value of every ticket claimed by a push. log: what each finished call returned.
  datatype State = State(cells: seq<Cell>, enqueue: nat, dequeue: nat, threads: map<nat, Pc>,
                         pushed: seq<Value>, published: set<nat>, released: set<nat>, log: seq<Result>, time: nat)

  datatype Call = Push(item: Value) | Pop

  // One step of a thread. call: what it starts when idle. spurious: a weak
  // compare-and-exchange fails though the counter is as expected.
  datatype Step = Step(thread: nat, call: Call, spurious: bool)

  // The cell of a ticket: the ticket modulo the capacity.
  function Slot(ticket: nat, capacity: nat): (r: nat)
    requires capacity > 0
    ensures r < capacity
  {
    if ticket < capacity then ticket else Slot(ticket - capacity, capacity)
  }

  function Start(capacity: nat): State {
    State(seq(capacity, i requires 0 <= i < capacity => Cell(i, None)), 0, 0, map[], [], {}, {}, [], 0)
  }

  function PcOf(s: State, thread: nat): Pc {
    if thread in s.threads then s.threads[thread] else Idle
  }

  function Goes(s: State, thread: nat, pc: Pc): State {
    s.(threads := s.threads[thread := pc])
  }

  function CellOf(s: State, ticket: nat): Cell
    requires s.cells != []
  {
    s.cells[Slot(ticket, |s.cells|)]
  }

  function SetCell(s: State, ticket: nat, c: Cell): State
    requires s.cells != []
  {
    s.(cells := s.cells[Slot(ticket, |s.cells|) := c])
  }

  function Log(s: State, r: Result): State {
    s.(log := s.log + [r])
  }

  function PushStep(s: State, thread: nat, pc: Pc, spurious: bool): State
    requires s.cells != []
  {
    match pc
    case PushLoaded(item, p) => Goes(s, thread, PushRead(item, p, CellOf(s, p).sequence, s.time))
    case PushRead(item, p, sequence, time) =>
      if sequence == p && s.enqueue == p && !spurious then
        Goes(s.(enqueue := p + 1, pushed := s.pushed + [item]), thread, PushClaimed(item, p))
      else if sequence < p then Goes(Log(s, Full(p, time)), thread, Idle)
      else Goes(s, thread, PushLoaded(item, s.enqueue))
    case PushClaimed(item, p) => Goes(SetCell(s, p, CellOf(s, p).(value := Some(item))), thread, PushWritten(item, p))
    case PushWritten(item, p) =>
      Goes(Log(SetCell(s, p, CellOf(s, p).(sequence := p + 1)), Pushed(p, item)).(published := s.published + {p}), thread, Idle)
    case _ => s
  }

  // Taking from a cell without a value, which never happens, is no step.
  function PopStep(s: State, thread: nat, pc: Pc, spurious: bool): State
    requires s.cells != []
  {
    match pc
    case PopLoaded(p) => Goes(s, thread, PopRead(p, CellOf(s, p).sequence, s.time))
    case PopRead(p, sequence, time) =>
      if sequence == p + 1 && s.dequeue == p && !spurious then Goes(s.(dequeue := p + 1), thread, PopClaimed(p))
      else if sequence < p + 1 then Goes(Log(s, Empty(p, time)), thread, Idle)
      else Goes(s, thread, PopLoaded(s.dequeue))
    case PopClaimed(p) => if CellOf(s, p).value.Some? then Goes(s, thread, PopTaken(p, CellOf(s, p).value.value)) else s
    case PopTaken(p, item) => Goes(SetCell(s, p, CellOf(s, p).(value := None)), thread, PopCleared(p, item))
    case PopCleared(p, item) =>
      Goes(Log(SetCell(s, p, CellOf(s, p).(sequence := p + |s.cells|)), Popped(p, item)).(released := s.released + {p}), thread, Idle)
    case _ => s
  }

  function Next(s: State, step: Step): State
    requires s.cells != []
  {
    Takes(s, step).(time := s.time + 1)
  }

  function Takes(s: State, step: Step): State
    requires s.cells != []
  {
    var pc := PcOf(s, step.thread);
    match pc
    case Idle =>
      if step.call.Push? then Goes(s, step.thread, PushLoaded(step.call.item, s.enqueue))
      else Goes(s, step.thread, PopLoaded(s.dequeue))
    case PushLoaded(_, _) => PushStep(s, step.thread, pc, step.spurious)
    case PushRead(_, _, _, _) => PushStep(s, step.thread, pc, step.spurious)
    case PushClaimed(_, _) => PushStep(s, step.thread, pc, step.spurious)
    case PushWritten(_, _) => PushStep(s, step.thread, pc, step.spurious)
    case _ => PopStep(s, step.thread, pc, step.spurious)
  }

  function Run(capacity: nat, steps: seq<Step>): (s: State)
    requires capacity > 0
    ensures |s.cells| == capacity
  {
    if steps == [] then Start(capacity) else Next(Run(capacity, steps[..|steps| - 1]), steps[|steps| - 1])
  }
}
