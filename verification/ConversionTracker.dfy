/** The worker's job queue and the conversion tracker as they run. */
module ConversionTrackers {
  import opened Wrappers
  import opened Bopomofo
  import opened Buffers
  import opened Conversions

  class EngineWorker {
    var jobs: seq<Job>
    var running: Option<Job>
    var answers: map<nat, Answer>

    function Value(): Worker
      reads this
    {
      Worker(jobs, running, answers)
    }

    constructor ()
      ensures Value() == IDLE_WORKER
    {
      jobs, running, answers := [], None, map[];
    }

    // Queues a job in place of the queued one of its kind and group; a
    // conversion that is replaced is answered as superseded.
    method SubmitJob(kind: Kind, sequence: nat, group: nat)
      modifies this
      ensures Value() == Submit(old(Value()), Job(kind, sequence, group))
    {
      ghost var before := jobs;
      var job := Job(kind, sequence, group);
      var superseded: seq<nat> := [];
      if !kind.Other? {
        var kept: seq<Job> := [];
        for i := 0 to |jobs|
          invariant jobs == before && kept == Remaining(before[..i], job)
          invariant forall s :: s in superseded <==> s in Dropped(before[..i], job)
        {
          assert before[..i + 1][..i] == before[..i] && before[..i + 1][i] == before[i];
          assert forall j :: j in before[..i + 1] <==> j in before[..i] || j == before[i];
          if Replaces(job, jobs[i]) {
            if kind.Predict? {
              superseded := superseded + [jobs[i].sequence];
            }
          } else {
            kept := kept + [jobs[i]];
          }
        }
        assert before[..|before|] == before;
        jobs := kept;
      } else {
        NothingReplaced(jobs, job);
      }
      jobs := jobs + [job];
      Publish(superseded);
      assert answers == old(answers) + (map s <- Dropped(before, job) :: Superseded);
    }

    // Answers each dropped conversion.
    method Publish(superseded: seq<nat>)
      modifies this`answers
      ensures answers == old(answers) + (map s | s in superseded :: Superseded)
    {
      for i := 0 to |superseded|
        invariant answers == old(answers) + (map s | s in superseded[..i] :: Superseded)
      {
        assert superseded[..i + 1] == superseded[..i] + [superseded[i]];
        answers := answers[superseded[i] := Superseded];
      }
      assert superseded[..|superseded|] == superseded;
    }

    // Takes the next job, as the pump does when the last one is done.
    method StartNext(ghost t: Tracker)
      requires t.worker == Value()
      modifies this
      ensures Value() == StartJob(t).worker
    {
      if running.None? && jobs != [] {
        running, jobs := Some(jobs[0]), jobs[1..];
      }
    }

    // The backend answered the running job, or is gone.
    method Finish(answer: Answer, ghost t: Tracker)
      requires t.worker == Value() && !answer.Superseded?
      modifies this
      ensures Value() == FinishJob(t, answer).worker
    {
      if running.Some? {
        if running.value.kind.Predict? {
          answers := answers[running.value.sequence := answer];
        }
        running := None;
      }
    }
  }

  lemma {:induction false} NothingReplaced(jobs: seq<Job>, job: Job)
    requires job.kind.Other?
    ensures Remaining(jobs, job) == jobs && Dropped(jobs, job) == {}
  {
    if jobs != [] {
      NothingReplaced(jobs[..|jobs| - 1], job);
    }
  }

  class ConversionTracker {
    const worker: EngineWorker
    var backend: EngineWorker?
    var sequence: nat
    var pending: map<nat, Request>
    ghost var newest: map<nat, nat>
    ghost var dropped: bool
    ghost var asked: map<nat, Request>
    ghost var answered: map<nat, seq<Output>>
    ghost var present: bool

    ghost predicate Valid()
      reads this
    {
      backend == null || backend == worker
    }

    ghost function Value(): Tracker
      reads this, worker
    {
      Tracker(backend != null, sequence, pending, worker.Value(), newest, dropped, asked, answered, present)
    }

    constructor (worker: EngineWorker)
      ensures Valid() && this.worker == worker && Value() == Tracker(false, 0, map[], worker.Value(), map[], false, map[], map[], false)
    {
      this.worker, backend, sequence, pending := worker, null, 0, map[];
      newest, dropped := map[], false;
      asked, answered, present := map[], map[], false;
    }

    method SetBackend(present: bool)
      requires Valid()
      modifies this`backend
      ensures Valid() && Value() == old(Value()).(backend := present)
    {
      backend := if present then worker else null;
    }

    // None, and no request recorded, while there is no worker.
    method SendRequest(request: Request) returns (sent: Option<nat>)
      requires Valid()
      modifies this, worker
      ensures Valid() && Value() == Send(old(Value()), request)
      ensures sent == if old(backend) != null then Some(sequence) else None
      ensures sent.Some? ==> sequence == old(sequence) + 1 && sequence in pending && pending[sequence] == request
    {
      hide Submit;
      if backend == null {
        return None;
      }
      sequence := sequence + 1;
      pending := pending[sequence := request];
      newest := newest[request.epoch := sequence];
      asked := asked[sequence := request];
      backend.SubmitJob(Predict, sequence, request.epoch);
      return Some(sequence);
    }

    method TakeRequest(number: nat) returns (taken: Option<Request>)
      requires Valid()
      modifies this`pending
      ensures Valid() && Value() == Take(old(Value()), number)
      ensures taken == if number in old(pending) then Some(old(pending)[number]) else None
    {
      if number !in pending {
        assert pending - {number} == pending;
        return None;
      }
      taken := Some(pending[number]);
      pending := pending - {number};
    }

    method Clear()
      requires Valid()
      modifies this`pending, this`dropped, this`present
      ensures Valid() && Value() == Cleared(old(Value()))
    {
      pending := map[];
      dropped := true;
      present := false;
    }
  }
}
