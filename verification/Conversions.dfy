/**
 The requests a controller waits for (ConversionTracker) and the worker that
 answers them (EngineWorker). A job of the same kind and group takes the place
 of those queued, never of the one being run.
 */
module Conversions {
  import opened Wrappers
  import opened Bopomofo
  import opened Buffers

  type DocId = nat

  datatype Request = Request(epoch: nat, revision: nat, document: DocId, snapshot: seq<Entry>)

  datatype Answer = Converted(padding: seq<Output>) | Superseded | BackendLost

  datatype Kind = Other | Ready | Query | Prefill | Predict

  // sequence: of a Predict job.
  datatype Job = Job(kind: Kind, sequence: nat, group: nat)

  // answers: published for the UI thread, not delivered yet.
  datatype Worker = Worker(jobs: seq<Job>, running: Option<Job>, answers: map<nat, Answer>)

  // newest: the last sequence sent for each epoch. dropped: pending conversions
  // were dropped, and the segments waiting for them are finished next. asked and
  // answered: every request sent, and every conversion that came back for one.
  // present: the backend was there from the start and was never lost.
  datatype Tracker = Tracker(backend: bool, sequence: nat, pending: map<nat, Request>, worker: Worker,
                             newest: map<nat, nat>, dropped: bool,
                             asked: map<nat, Request>, answered: map<nat, seq<Output>>, present: bool)

  const IDLE_WORKER := Worker([], None, map[])

  // The new job takes the place of the queued one.
  predicate Replaces(job: Job, queued: Job) {
    !job.kind.Other? && queued.kind == job.kind && queued.group == job.group
  }

  function Remaining(jobs: seq<Job>, job: Job): (r: seq<Job>)
    ensures forall j <- r :: j in jobs && !Replaces(job, j)
    ensures forall j <- jobs :: !Replaces(job, j) ==> j in r
  {
    if jobs == [] then []
    else
      var front, last := Remaining(jobs[..|jobs| - 1], job), jobs[|jobs| - 1];
      if Replaces(job, last) then front else front + [last]
  }

  // Conversions dropped unsent.
  function Dropped(jobs: seq<Job>, job: Job): set<nat> {
    set j <- jobs | job.kind.Predict? && Replaces(job, j) :: j.sequence
  }

  function Submit(w: Worker, job: Job): Worker {
    w.(jobs := Remaining(w.jobs, job) + [job],
       answers := w.answers + (map s <- Dropped(w.jobs, job) :: Superseded))
  }

  // The new tracker; the sequence is its counter when a backend is set.
  function Send(t: Tracker, request: Request): Tracker {
    if !t.backend then t
    else
      var sequence := t.sequence + 1;
      t.(sequence := sequence,
         pending := t.pending[sequence := request],
         newest := t.newest[request.epoch := sequence], asked := t.asked[sequence := request],
         worker := Submit(t.worker, Job(Predict, sequence, request.epoch)))
  }

  function Take(t: Tracker, sequence: nat): Tracker {
    t.(pending := t.pending - {sequence})
  }

  function Cleared(t: Tracker): Tracker {
    t.(pending := map[], dropped := true, present := false)
  }

  function StartJob(t: Tracker): Tracker {
    if t.worker.running.Some? || t.worker.jobs == [] then t
    else t.(worker := t.worker.(running := Some(t.worker.jobs[0]), jobs := t.worker.jobs[1..]))
  }

  function Finished(w: Worker, answer: Answer): Worker {
    if w.running.None? || answer.Superseded? then w
    else if !w.running.value.kind.Predict? then w.(running := None)
    else w.(running := None, answers := w.answers[w.running.value.sequence := answer])
  }

  function FinishJob(t: Tracker, answer: Answer): Tracker {
    t.(worker := Finished(t.worker, answer))
  }

  function Publish(t: Tracker, sequence: nat): Tracker {
    t.(worker := t.worker.(answers := t.worker.answers - {sequence}))
  }

  // The answer published for a pending request is taken.
  function Receive(t: Tracker, sequence: nat): Tracker {
    var r := Take(Publish(t, sequence), sequence);
    if sequence in t.pending && sequence in t.worker.answers && t.worker.answers[sequence].Converted?
    then r.(answered := t.answered[sequence := t.worker.answers[sequence].padding]) else r
  }

  // ---- what every step keeps ---------------------------------------------------

  // An answer is published, or the job is still with the worker.
  predicate Underway(w: Worker, sequence: nat) {
    || sequence in w.answers
    || (w.running.Some? && w.running.value.kind.Predict? && w.running.value.sequence == sequence)
    || exists j <- w.jobs :: j.kind.Predict? && j.sequence == sequence
  }

  predicate JobFits(t: Tracker, j: Job) {
    j.kind.Predict? ==>
      && j.sequence <= t.sequence
      && j.group in t.newest && j.sequence <= t.newest[j.group]
      && (j.sequence in t.pending ==> t.pending[j.sequence].epoch == j.group)
  }

  ghost predicate PendingFit(t: Tracker) {
    forall s <- t.pending ::
      s <= t.sequence && t.pending[s].epoch in t.newest && s <= t.newest[t.pending[s].epoch]
  }

  // Every unanswered conversion will be answered.
  ghost predicate PendingUnderway(t: Tracker) {
    forall s <- t.pending :: Underway(t.worker, s)
  }

  ghost predicate JobsFit(t: Tracker) {
    && (forall j <- t.worker.jobs :: JobFits(t, j) && (j.kind.Predict? ==> t.newest[j.group] == j.sequence))
    && (t.worker.running.Some? ==> JobFits(t, t.worker.running.value))
  }

  // Only a conversion that is not the newest of its composition is superseded.
  ghost predicate SupersededByNewer(t: Tracker) {
    && (forall s <- t.worker.answers :: s <= t.sequence)
    && (forall s <- t.worker.answers :: t.worker.answers[s].Superseded? && s in t.pending ==>
          t.pending[s].epoch in t.newest && s < t.newest[t.pending[s].epoch])
  }

  ghost predicate TrackerInv(t: Tracker) {
    && (forall e <- t.newest :: t.newest[e] <= t.sequence)
    && PendingFit(t) && PendingUnderway(t) && JobsFit(t) && SupersededByNewer(t)
  }

  lemma SendKeepsUnderway(t: Tracker, request: Request)
    requires PendingUnderway(t) && t.backend
    ensures PendingUnderway(Send(t, request))
  {
    var r := Send(t, request);
    var job := Job(Predict, r.sequence, request.epoch);
    forall s <- r.pending ensures Underway(r.worker, s) {
      if s == r.sequence {
        assert r.worker.jobs[|r.worker.jobs| - 1] == job;
      } else if j: Job :| j in t.worker.jobs && j.kind.Predict? && j.sequence == s {
        if j.group == request.epoch {
          assert s in Dropped(t.worker.jobs, job);
        } else {
          assert j in Remaining(t.worker.jobs, job);
          assert j in r.worker.jobs;
        }
      }
    }
  }

  lemma SendKeepsJobs(t: Tracker, request: Request)
    requires TrackerInv(t) && t.backend
    ensures JobsFit(Send(t, request))
  {
    var r := Send(t, request);
    var job := Job(Predict, r.sequence, request.epoch);
    forall j <- r.worker.jobs ensures JobFits(r, j) && (j.kind.Predict? ==> r.newest[j.group] == j.sequence) {
      if j != job {
        assert j in Remaining(t.worker.jobs, job);
        assert JobFits(t, j);
      }
    }
  }

  lemma SendKeepsSuperseded(t: Tracker, request: Request)
    requires TrackerInv(t) && t.backend
    ensures SupersededByNewer(Send(t, request))
  {
    var r := Send(t, request);
    var dropped := Dropped(t.worker.jobs, Job(Predict, r.sequence, request.epoch));
    forall s <- r.worker.answers
      ensures s <= r.sequence
      ensures r.worker.answers[s].Superseded? && s in r.pending ==>
                r.pending[s].epoch in r.newest && s < r.newest[r.pending[s].epoch]
    {
      if s in dropped {
        var j :| j in t.worker.jobs && j.kind.Predict? && j.group == request.epoch && j.sequence == s;
        assert JobFits(t, j);
      } else {
        assert s in t.worker.answers && s <= t.sequence;
      }
    }
  }

  lemma SendKeeps(t: Tracker, request: Request)
    requires TrackerInv(t)
    ensures TrackerInv(Send(t, request))
  {
    if t.backend {
      SendKeepsUnderway(t, request);
      SendKeepsJobs(t, request);
      SendKeepsSuperseded(t, request);
    }
  }

  lemma TakeKeeps(t: Tracker, sequence: nat)
    requires TrackerInv(t)
    ensures TrackerInv(Take(t, sequence)) && TrackerInv(Cleared(t))
  {
  }

  lemma StartJobKeeps(t: Tracker)
    requires TrackerInv(t)
    ensures TrackerInv(StartJob(t))
  {
    var r := StartJob(t);
    if r != t {
      assert t.worker.jobs[0] in t.worker.jobs;
      forall s <- r.pending ensures Underway(r.worker, s) {
        if j: Job :| j in t.worker.jobs && j.kind.Predict? && j.sequence == s {
          assert j == t.worker.jobs[0] || j in r.worker.jobs;
        }
      }
    }
  }

  // Other work for the backend supersedes no conversion.
  function SubmitOther(t: Tracker, kind: Kind, group: nat): Tracker {
    if kind.Predict? then t else t.(worker := Submit(t.worker, Job(kind, 0, group)))
  }

  lemma SubmitOtherKeeps(t: Tracker, kind: Kind, group: nat)
    requires TrackerInv(t)
    ensures TrackerInv(SubmitOther(t, kind, group))
  {
    var r, job := SubmitOther(t, kind, group), Job(kind, 0, group);
    if !kind.Predict? {
      assert Dropped(t.worker.jobs, job) == {};
      assert r.worker.answers == t.worker.answers;
      forall j <- t.worker.jobs ensures j in r.worker.jobs || !j.kind.Predict? {
        assert Replaces(job, j) || j in Remaining(t.worker.jobs, job);
      }
      forall j <- r.worker.jobs ensures j == job || j in t.worker.jobs {
      }
    }
  }

  // As much is under way for what is still pending, with the same jobs.
  predicate StillUnderway(t: Tracker, r: Tracker) {
    && r == t.(worker := r.worker, pending := r.pending, answered := r.answered)
    && (forall q <- r.pending :: q in t.pending && r.pending[q] == t.pending[q] && Underway(r.worker, q))
    && r.worker.jobs == t.worker.jobs && (r.worker.running.None? || r.worker.running == t.worker.running)
  }

  // Nothing new is superseded.
  predicate NoneSuperseded(t: Tracker, r: Tracker) {
    forall q <- r.worker.answers :: q <= t.sequence &&
      (r.worker.answers[q].Superseded? ==> q in t.worker.answers && t.worker.answers[q].Superseded?)
  }

  lemma WorkerChanges(t: Tracker, r: Tracker)
    requires TrackerInv(t) && StillUnderway(t, r) && NoneSuperseded(t, r)
    ensures TrackerInv(r)
  {
    hide Underway;
    forall j <- r.worker.jobs ensures JobFits(r, j) && (j.kind.Predict? ==> r.newest[j.group] == j.sequence) {
      assert JobFits(t, j);
    }
    if r.worker.running.Some? {
      assert JobFits(t, r.worker.running.value);
    }
  }

  lemma FinishedStays(w: Worker, answer: Answer, q: nat)
    requires Underway(w, q)
    ensures Underway(Finished(w, answer), q)
  {
    if j: Job :| j in w.jobs && j.kind.Predict? && j.sequence == q {
      assert j in Finished(w, answer).jobs;
    }
  }

  lemma FinishedUnderway(t: Tracker, answer: Answer)
    requires PendingUnderway(t)
    ensures StillUnderway(t, FinishJob(t, answer))
  {
    hide Underway;
    forall q <- t.pending ensures Underway(Finished(t.worker, answer), q) {
      FinishedStays(t.worker, answer, q);
    }
  }

  lemma FinishedAnswers(t: Tracker, answer: Answer)
    requires JobsFit(t) && SupersededByNewer(t)
    ensures NoneSuperseded(t, FinishJob(t, answer))
  {
  }

  lemma FinishJobKeeps(t: Tracker, answer: Answer)
    requires TrackerInv(t)
    ensures TrackerInv(FinishJob(t, answer))
  {
    hide FinishJob, PendingUnderway, JobsFit, SupersededByNewer, StillUnderway, NoneSuperseded;
    FinishedUnderway(t, answer);
    FinishedAnswers(t, answer);
    WorkerChanges(t, FinishJob(t, answer));
  }

  lemma PublishedStays(w: Worker, answers: map<nat, Answer>, q: nat)
    requires Underway(w, q) && (q in w.answers ==> q in answers)
    ensures Underway(w.(answers := answers), q)
  {
  }

  lemma ReceivedUnderway(t: Tracker, sequence: nat)
    requires PendingUnderway(t)
    ensures StillUnderway(t, Receive(t, sequence))
  {
    hide Underway;
    forall q <- Receive(t, sequence).pending ensures Underway(Receive(t, sequence).worker, q) {
      PublishedStays(t.worker, t.worker.answers - {sequence}, q);
    }
  }

  // Delivering an answer: what remains pending stays underway.
  lemma DeliverKeeps(t: Tracker, sequence: nat)
    requires TrackerInv(t)
    ensures TrackerInv(Receive(t, sequence))
  {
    hide Receive, PendingUnderway, JobsFit, StillUnderway;
    ReceivedUnderway(t, sequence);
    ReceivedAnswers(t, sequence);
    WorkerChanges(t, Receive(t, sequence));
  }

  lemma ReceivedAnswers(t: Tracker, sequence: nat)
    requires SupersededByNewer(t)
    ensures NoneSuperseded(t, Receive(t, sequence))
  {
  }
}
