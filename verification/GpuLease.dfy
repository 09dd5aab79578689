/**
 The GPU boost: the lease that holds it while keys are typed, the process that
 drives the clock for it, and the driver's clock.

 What the driver and the backend answer, and what time it is, are inputs.
 Scheduling a timer does not fail.
 */
module GpuLease {
  // Threw: the backend threw instead of answering.
  datatype Answer = Success | RetryLater | Unavailable | Threw

  // ---- the driver's clock -------------------------------------------------------------

  datatype Status = Fine | InvalidOperation | InvalidDevice | OtherError

  class AmdDriverClock {
    var restorePending: bool
    // The driver may be in another mode than its normal one.
    ghost var changed: bool

    ghost predicate Valid()
      reads this
    {
      changed ==> restorePending
    }

    constructor ()
      ensures Valid() && !restorePending
    {
      restorePending, changed := false, false;
    }

    // status: the driver's answer, if it is asked.
    method Set(enabled: bool, status: Status) returns (answer: Answer)
      requires Valid()
      modifies this
      ensures Valid() && (!enabled && answer == Success ==> !changed)
      ensures restorePending == (if enabled then true else old(restorePending) && status != Fine)
      ensures answer ==
        if (!enabled && !old(restorePending)) || status == Fine then Success
        else if enabled && (status == InvalidOperation || status == InvalidDevice) then Unavailable
        else RetryLater
    {
      if !enabled && !restorePending {
        return Success;
      }
      if enabled {
        restorePending := true;
      }
      // Even a request that fails may have changed something; a restoration that fails restores nothing.
      changed := enabled || (status != Fine && changed);
      if status != Fine {
        return if enabled && (status == InvalidOperation || status == InvalidDevice) then Unavailable else RetryLater;
      }
      if !enabled {
        restorePending := false;
      }
      return Success;
    }
  }

  // ---- the process that drives it -------------------------------------------------------

  const RETRIES := 30

  // A request, the driver's answers to it and to the restoration it may need,
  // and whether the reply could be sent.
  datatype Request = Request(enabled: bool, status: Status, restored: Status, sent: bool)

  // requests: what comes until the parent ends or a stop is asked for.
  // statuses: what the driver answers to the retries at the end.
  method WorkerMain(clock: AmdDriverClock, started: bool, requests: seq<Request>, statuses: nat -> Status)
    returns (exit: nat)
    requires clock.Valid() && !clock.restorePending
    modifies clock
    ensures clock.Valid() && (exit == 0 || exit == 4)
    ensures exit == 0 <==> !clock.restorePending
    ensures exit == 0 ==> !clock.changed
    ensures exit == 4 ==> forall k :: 0 <= k < RETRIES ==> statuses(k) != Fine
  {
    var pending, running := false, started;
    var i: nat := 0;
    while running && i < |requests|
      invariant clock.Valid() && pending == clock.restorePending
      decreases |requests| - i
    {
      var request := requests[i];
      i := i + 1;
      if request.enabled {
        pending := true;
      }
      var result := clock.Set(request.enabled, request.status);
      if !request.enabled && result == Success {
        pending := false;
      }
      if request.enabled && result != Success {
        var undone := clock.Set(false, request.restored);
        if undone == Success {
          pending := false;
        } else {
          result := Unavailable;
          running := false;
        }
      }
      if !request.sent {
        break;
      }
    }
    var attempt: nat := 0;
    while pending && attempt < RETRIES
      invariant clock.Valid() && pending == clock.restorePending && attempt <= RETRIES
      invariant pending ==> forall k :: 0 <= k < attempt ==> statuses(k) != Fine
    {
      var result := clock.Set(false, statuses(attempt));
      if result == Success {
        pending := false;
      }
      attempt := attempt + 1;
    }
    exit := if pending then 4 else 0;
  }

  // ---- the lease ----------------------------------------------------------------------------

  // A wait of the timer, armed in a generation, that ends at a time.
  datatype Wait = Wait(generation: nat, at: nat)

  // What happened: an activation was accepted, the backend was asked, or it was
  // replaced, and the boost given back to it first.
  datatype Event =
    | Accepted(time: nat)
    | Asked(enabled: bool, time: nat, answer: Answer)
    | Replaced(gaveBack: bool)

  // The boost was taken from the present backend and not given back.
  function Owes(history: seq<Event>): bool {
    if history == [] then false
    else
      match history[|history| - 1]
      case Replaced(_) => false
      case Asked(enabled, _, answer) => if answer == Success then enabled else Owes(history[..|history| - 1])
      case Accepted(_) => Owes(history[..|history| - 1])
  }

  function LastAccepted(history: seq<Event>): nat {
    if history == [] then 0
    else if history[|history| - 1].Accepted? then history[|history| - 1].time
    else LastAccepted(history[..|history| - 1])
  }

  // The boost is taken only when it is not owed, given back only when it is and
  // not before the lease has been idle long enough, and not kept from a backend
  // that is replaced.
  predicate Fits(history: seq<Event>, e: Event, idleTimeout: nat) {
    match e
    case Accepted(_) => true
    case Asked(enabled, time, _) =>
      if enabled then !Owes(history) else Owes(history) && LastAccepted(history) + idleTimeout <= time
    case Replaced(gaveBack) => gaveBack == Owes(history)
  }

  predicate Proper(history: seq<Event>, idleTimeout: nat) {
    history != [] ==>
      var before := history[..|history| - 1];
      Proper(before, idleTimeout) && Fits(before, history[|history| - 1], idleTimeout)
  }

  lemma Logged(history: seq<Event>, e: Event, idleTimeout: nat)
    ensures Owes(history + [e]) ==
      if e.Replaced? then false else if e.Asked? && e.answer == Success then e.enabled else Owes(history)
    ensures LastAccepted(history + [e]) == if e.Accepted? then e.time else LastAccepted(history)
    ensures Proper(history + [e], idleTimeout) <==> Proper(history, idleTimeout) && Fits(history, e, idleTimeout)
  {
    assert (history + [e])[..|history|] == history;
  }

  predicate GivesUp(e: Event) {
    e.Replaced? || (e.Asked? && !e.enabled && e.answer == Success)
  }

  lemma {:induction false} OwesUntil(history: seq<Event>, i: nat, j: nat)
    requires i < j <= |history| && history[i].Asked? && history[i].enabled && history[i].answer == Success
    requires forall k :: i < k < j ==> !GivesUp(history[k])
    ensures Owes(history[..j])
  {
    assert history[..j] == history[..j - 1] + [history[j - 1]];
    assert history[..j][..j - 1] == history[..j - 1];
    if i + 1 < j {
      OwesUntil(history, i, j - 1);
    }
  }

  lemma {:induction false} ProperPrefix(history: seq<Event>, j: nat, idleTimeout: nat)
    requires Proper(history, idleTimeout) && j < |history|
    ensures Fits(history[..j], history[j], idleTimeout)
  {
    var before := history[..|history| - 1];
    if j < |before| {
      ProperPrefix(before, j, idleTimeout);
      assert before[..j] == history[..j];
    }
  }

  // A boost that was taken is given back, or its backend replaced, before the next is asked for.
  lemma NeverTakenTwice(history: seq<Event>, idleTimeout: nat, i: nat, j: nat)
    requires Proper(history, idleTimeout) && i < j < |history|
    requires history[i].Asked? && history[i].enabled && history[i].answer == Success
    requires history[j].Asked? && history[j].enabled
    ensures exists k :: i < k < j && GivesUp(history[k])
  {
    ProperPrefix(history, j, idleTimeout);
    if forall k :: i < k < j ==> !GivesUp(history[k]) {
      OwesUntil(history, i, j);
    }
  }

  // The waits that had ended before they were cancelled: their handlers still run.
  function Surviving(waits: seq<Wait>, now: nat): (r: seq<Wait>)
    ensures forall w <- r :: w in waits
  {
    if waits == [] then []
    else (if waits[0].at <= now then [waits[0]] else []) + Surviving(waits[1..], now)
  }

  // How many waits are of the generation.
  function Current(waits: seq<Wait>, generation: nat): nat {
    if waits == [] then 0
    else (if waits[0].generation == generation then 1 else 0) + Current(waits[1..], generation)
  }

  lemma {:induction false} CurrentJoins(a: seq<Wait>, b: seq<Wait>, generation: nat)
    ensures Current(a + b, generation) == Current(a, generation) + Current(b, generation)
  {
    if a == [] {
      assert a + b == b;
    } else {
      assert (a + b)[1..] == a[1..] + b;
      CurrentJoins(a[1..], b, generation);
    }
  }

  lemma {:induction false} NothingCurrent(waits: seq<Wait>, generation: nat)
    requires forall w <- waits :: w.generation < generation
    ensures Current(waits, generation) == 0
  {
    if waits != [] {
      NothingCurrent(waits[1..], generation);
    }
  }

  // A wait taken out.
  lemma OneLess(waits: seq<Wait>, i: nat, generation: nat)
    requires i < |waits|
    ensures Current(waits, generation) ==
      Current(waits[..i] + waits[i + 1..], generation) + (if waits[i].generation == generation then 1 else 0)
  {
    assert waits == waits[..i] + waits[i..];
    CurrentJoins(waits[..i], waits[i..], generation);
    CurrentJoins(waits[..i], waits[i + 1..], generation);
  }

  class GpuActivityLease {
    const idleTimeout: nat
    const retryDelay: nat
    var deadline: nat
    var retryAfter: nat
    var backend: bool
    var generation: nat
    var active: bool
    var enabled: bool
    var releasing: bool
    var releaseFailures: nat
    // The waits whose handlers will still be called without an error.
    var waits: seq<Wait>
    ghost var history: seq<Event>
    ghost var clock: nat

    // An active lease has one timer of its own, or has used up its attempts.
    ghost predicate Valid()
      reads this
    {
      && Proper(history, idleTimeout) && active == Owes(history) && (active ==> backend)
      && releaseFailures <= 4 && (releasing <==> releaseFailures > 0) && (releasing ==> active)
      && (forall w <- waits :: w.generation <= generation)
      && Current(waits, generation) == (if active && releaseFailures < 4 then 1 else 0)
      && LastAccepted(history) <= clock
      && (active ==> LastAccepted(history) + idleTimeout <= deadline && (!releasing ==> deadline == LastAccepted(history) + idleTimeout))
    }

    constructor (idleTimeout: nat, retryDelay: nat)
      ensures Valid() && enabled && !active && !backend && history == [] && waits == []
    {
      this.idleTimeout, this.retryDelay := idleTimeout, retryDelay;
      deadline, retryAfter, generation, releaseFailures := 0, 0, 0, 0;
      backend, active, enabled, releasing := false, false, true, false;
      waits, history, clock := [], [], 0;
    }

    method SetEnabled(value: bool)
      requires Valid()
      modifies this`enabled
      ensures Valid() && enabled == value
    {
      enabled := value;
    }

    // Gives the boost back at once, and forgets the backend.
    method Reset(now: nat)
      requires Valid() && clock <= now
      modifies this
      ensures Valid() && !active && !backend && enabled == old(enabled) && clock == now
      ensures history == old(history) + [Replaced(old(active))]
    {
      hide Owes, Proper, LastAccepted;
      Logged(history, Replaced(active), idleTimeout);
      clock := now;
      generation := generation + 1;
      NothingCurrent(Surviving(waits, now), generation);
      waits := Surviving(waits, now);
      var wasActive := active;
      active, releasing, releaseFailures, retryAfter := false, false, 0, 0;
      backend := false;
      history := history + [Replaced(wasActive)];
    }

    method SetBackend(present: bool, now: nat)
      requires Valid() && clock <= now
      modifies this
      ensures Valid() && !active && backend == present && history == old(history) + [Replaced(old(active))]
    {
      Reset(now);
      backend := present;
    }

    // answer: what the backend says, if it is asked to boost.
    method Activate(now: nat, answer: Answer)
      requires Valid() && clock <= now
      modifies this
      ensures Valid()
      ensures if !enabled || !old(backend) || old(releasing) || now < old(retryAfter) then
                history == old(history) && active == old(active) && deadline == old(deadline) && waits == old(waits)
              else if old(active) then
                history == old(history) + [Accepted(now)] && active && waits == old(waits)
              else
                history == old(history) + [Accepted(now), Asked(true, now, answer)] + Dropped(answer)
                && active == (answer == Success) && backend == (Dropped(answer) == [])
    {
      hide Owes, Proper, LastAccepted;
      Logged(history, Accepted(now), idleTimeout);
      clock := now;
      if !enabled || !backend || releasing || now < retryAfter {
        return;
      }
      deadline := now + idleTimeout;
      ghost var before := history;
      history := history + [Accepted(now)];
      if active {
        return;
      }
      Take(now, answer);
      assert before + [Accepted(now)] + [Asked(true, now, answer)] == before + [Accepted(now), Asked(true, now, answer)];
    }

    // A backend that cannot boost, or threw, is dropped.
    ghost function Dropped(answer: Answer): seq<Event> {
      if answer == Unavailable || answer == Threw then [Replaced(false)] else []
    }

    method Take(now: nat, answer: Answer)
      requires Valid() && clock == now && backend && !active && LastAccepted(history) == now && deadline == now + idleTimeout
      modifies this
      ensures Valid() && enabled == old(enabled)
      ensures history == old(history) + [Asked(true, now, answer)] + Dropped(answer)
      ensures active == (answer == Success) && backend == (Dropped(answer) == [])
      ensures answer == RetryLater ==> retryAfter == now + retryDelay
    {
      hide Owes, Proper, LastAccepted;
      Logged(history, Asked(true, now, answer), idleTimeout);
      history := history + [Asked(true, now, answer)];
      if answer == RetryLater {
        retryAfter := now + retryDelay;
      } else if answer == Success {
        active := true;
        Arm(now);
      } else {
        Reset(now);
      }
    }

    // A timer of the present generation, for the deadline; other waits are cancelled.
    method Arm(now: nat)
      requires Current(waits, generation) == 0
      requires forall w <- waits :: w.generation <= generation
      modifies this`waits
      ensures Current(waits, generation) == 1 && forall w <- waits :: w.generation <= generation
      ensures waits == Surviving(old(waits), now) + [Wait(generation, deadline)]
    {
      NoneSurvives(waits, now, generation);
      CurrentJoins(Surviving(waits, now), [Wait(generation, deadline)], generation);
      waits := Surviving(waits, now) + [Wait(generation, deadline)];
    }

    // The handler of a wait that has ended. answer: what the backend says, if it is asked to stop.
    method Fire(i: nat, now: nat, answer: Answer)
      requires Valid() && clock <= now && i < |waits| && waits[i].at <= now
      modifies this
      ensures Valid() && backend == old(backend)
      ensures var mine := old(waits[i].generation == generation);
        && (!mine || now < old(deadline) ==> history == old(history) && active == old(active))
        && (mine && old(deadline) <= now ==>
             history == old(history) + [Asked(false, now, answer)] && active == (answer != Success)
             && releaseFailures == if answer == Success then 0 else old(releaseFailures) + 1)
    {
      hide Owes, Proper, LastAccepted;
      clock := now;
      var fired := waits[i];
      OneLess(waits, i, generation);
      waits := waits[..i] + waits[i + 1..];
      if fired.generation != generation {
        return;
      }
      assert Current(waits, generation) == 0;
      if now < deadline {
        Arm(now);
        return;
      }
      Release(now, answer);
    }

    method Release(now: nat, answer: Answer)
      requires clock == now && Proper(history, idleTimeout) && active && Owes(history) && backend
      requires releaseFailures < 4 && (releasing <==> releaseFailures > 0)
      requires Current(waits, generation) == 0 && forall w <- waits :: w.generation <= generation
      requires LastAccepted(history) + idleTimeout <= deadline <= now
      modifies this
      ensures Valid() && backend == old(backend) && history == old(history) + [Asked(false, now, answer)]
      ensures active == (answer != Success)
      ensures releaseFailures == if answer == Success then 0 else old(releaseFailures) + 1
    {
      hide Owes, Proper, LastAccepted;
      Logged(history, Asked(false, now, answer), idleTimeout);
      releasing := true;
      history := history + [Asked(false, now, answer)];
      if answer == Success {
        active, releasing, releaseFailures := false, false, 0;
        return;
      }
      releaseFailures := releaseFailures + 1;
      if releaseFailures >= 4 {
        return;
      }
      deadline := now + retryDelay;
      Arm(now);
    }
  }

  lemma {:induction false} NoneSurvives(waits: seq<Wait>, now: nat, generation: nat)
    requires Current(waits, generation) == 0
    ensures Current(Surviving(waits, now), generation) == 0
  {
    if waits != [] {
      NoneSurvives(waits[1..], now, generation);
      CurrentJoins(if waits[0].at <= now then [waits[0]] else [], Surviving(waits[1..], now), generation);
    }
  }
}
