/** The durable job table, the in-memory dispatch queue and the single worker
    (pulsepay/jobs/queue.py, pulsepay/jobs/worker.py). */
module Jobs {
  import opened Common

  datatype Task =
    | ProcessPayment(payment: nat)
    | RetryPayment(payment: nat)
    | ProcessRefund(refund: nat)
    | DeliverWebhook(event: nat)

  datatype JobStatus = Queued | Running | Completed | Failed | Dead

  /** Why a handler raised: it was cut short from outside, or found what it could not work on. */
  datatype Cause = Aborted | AlreadyTerminal | RowMissing | InvalidTransition

  datatype Job = Job(task: Task, status: JobStatus, attempts: nat, maxAttempts: nat, runAt: real,
      lastError: Option<Cause>)

  /** How far the handler in flight has got. `Soft(n)` is the payment handlers' state between
      the soft failure of attempt `n` and the enqueueing of the next attempt. */
  datatype Phase = Started | Soft(count: nat) | Returned | Raised(error: Cause)

  datatype Worker = Idle | Busy(job: nat, phase: Phase)

  /** A coroutine that is suspended just before it puts a job's id on the dispatch queue. It puts
      the id unconditionally, or only if the time it remembers has come. */
  datatype Tail = Tail(job: nat, ifDue: Option<real>)

  /** `starts` counts the handler starts of each job since it was inserted or reset. */
  datatype Queue = Queue(jobs: map<nat, Job>, dispatch: seq<nat>, tails: seq<Tail>, worker: Worker,
      starts: map<nat, nat>)

  const DEFAULT_MAX_ATTEMPTS: nat := 3

  function NewJob(task: Task, runAt: real): Job {
    Job(task, Queued, 0, DEFAULT_MAX_ATTEMPTS, runAt, None)
  }

  // ---------------------------------------------------------------- steps

  /** Rows inserted and committed; each inserting coroutine still has its conditional put ahead of it. */
  function Insert(q: Queue, rows: map<nat, Job>, tails: seq<Tail>): Queue {
    q.(jobs := q.jobs + rows, tails := q.tails + tails, starts := q.starts + (map j | j in rows :: 0))
  }

  /** `StormQueue.enqueue` of one job. */
  function Enqueue(q: Queue, id: nat, task: Task, runAt: real): Queue {
    Insert(q, map[id := NewJob(task, runAt)], [Tail(id, Some(runAt))])
  }

  /** A suspended coroutine resumes: it puts its id, or finds that the job lies in the future. */
  function Resume(q: Queue, now: real, i: nat): Queue
    requires i < |q.tails|
  {
    var t := q.tails[i];
    var put := if t.ifDue.None? || t.ifDue.value <= now then [t.job] else [];
    q.(tails := q.tails[..i] + q.tails[i + 1..], dispatch := q.dispatch + put)
  }

  predicate Due(q: Queue, now: real, id: nat) {
    id in q.jobs && q.jobs[id].status == Queued && q.jobs[id].runAt <= now
  }

  /** The poller's SELECT: the due ids, each once, in whatever order the database returns them. */
  predicate Selection(q: Queue, now: real, ids: seq<nat>) {
    && (forall i :: 0 <= i < |ids| ==> Due(q, now, ids[i]))
    && (forall j :: j in q.jobs && Due(q, now, j) ==> j in ids)
    && (forall i, k :: 0 <= i < k < |ids| ==> ids[i] != ids[k])
  }

  function Puts(ids: seq<nat>): seq<Tail> {
    seq(|ids|, i requires 0 <= i < |ids| => Tail(ids[i], None))
  }

  /** One poll: the selected ids are still to be put, one by one. */
  function Poll(q: Queue, ids: seq<nat>): Queue {
    q.(tails := q.tails + Puts(ids))
  }

  /** `retry_dead_job`: it never looks at the status. */
  function Reset(q: Queue, now: real, id: nat): Queue {
    if id !in q.jobs then q
    else q.(jobs := q.jobs[id := q.jobs[id].(status := Queued, lastError := None, attempts := 0, runAt := now)],
            starts := q.starts[id := 0], tails := q.tails + [Tail(id, None)])
  }

  /** The consumer takes the next id; a job that is missing, completed or dead is skipped, and
      any other is marked running and its handler starts. */
  function Take(q: Queue): Queue {
    if q.worker != Idle || q.dispatch == [] then q
    else
      var id, rest := q.dispatch[0], q.dispatch[1..];
      if id !in q.jobs || q.jobs[id].status == Completed || q.jobs[id].status == Dead then q.(dispatch := rest)
      else q.(dispatch := rest, jobs := q.jobs[id := q.jobs[id].(status := Running)], worker := Busy(id, Started),
              starts := if id in q.starts then q.starts[id := q.starts[id] + 1] else q.starts)
  }

  function Enter(q: Queue, phase: Phase): Queue {
    if q.worker == Idle then q else q.(worker := Busy(q.worker.job, phase))
  }

  /** The worker's bookkeeping after the handler returned or raised. */
  function Finish(q: Queue, now: real): Queue {
    if q.worker == Idle || q.worker.job !in q.jobs then q
    else
      var id, job := q.worker.job, q.jobs[q.worker.job];
      match q.worker.phase
      case Returned =>
        q.(worker := Idle, jobs := q.jobs[id := job.(status := Completed, lastError := None)])
      case Raised(error) =>
        var failed := job.(attempts := job.attempts + 1, lastError := Some(error));
        if failed.attempts < failed.maxAttempts
        then q.(worker := Idle, jobs := q.jobs[id := failed.(status := Queued, runAt := now)],
            tails := q.tails + [Tail(id, None)])
        else q.(worker := Idle, jobs := q.jobs[id := failed.(status := Dead)])
      case _ => q
  }

  /** The process restarts between jobs: memory is lost, the table is not. */
  function Restart(q: Queue): Queue {
    if q.worker == Idle then q.(dispatch := [], tails := []) else q
  }

  // ---------------------------------------------------------------- invariant

  /** The accounting and timing rules of one row. */
  ghost predicate JobOk(q: Queue, now: real, j: nat)
    requires j in q.jobs && j in q.starts
  {
    var job := q.jobs[j];
    && job.status != Failed
    && job.maxAttempts >= 1
    && job.attempts <= job.maxAttempts
    && (job.attempts == job.maxAttempts <==> job.status == Dead)
    && q.starts[j] == job.attempts + (if job.status == Running || job.status == Completed then 1 else 0)
    && (job.status == Queued || job.runAt <= now)
    && (job.status == Running <==> q.worker.Busy? && q.worker.job == j)
    && (job.lastError.Some? <==> job.attempts > 0 && job.status != Completed)
  }

  /** The id names a job that may start at once. */
  ghost predicate Ripe(q: Queue, now: real, j: nat) {
    j in q.jobs && q.jobs[j].runAt <= now
  }

  ghost predicate TailOk(q: Queue, now: real, t: Tail) {
    && t.job in q.jobs
    && (Ripe(q, now, t.job) || (t.ifDue.Some? && t.ifDue.value == q.jobs[t.job].runAt))
  }

  ghost predicate QueueInv(q: Queue, now: real) {
    && q.starts.Keys == q.jobs.Keys
    && (forall j :: j in q.jobs ==> JobOk(q, now, j))
    && (q.worker.Busy? ==> q.worker.job in q.jobs)
    && (forall i :: 0 <= i < |q.dispatch| ==> Ripe(q, now, q.dispatch[i]))
    && (forall i :: 0 <= i < |q.tails| ==> TailOk(q, now, q.tails[i]))
  }

  lemma ClockKeepsQueue(q: Queue, now: real, later: real)
    requires QueueInv(q, now) && now <= later
    ensures QueueInv(q, later)
  {
    forall j | j in q.jobs ensures JobOk(q, later, j) { assert JobOk(q, now, j); }
    forall i | 0 <= i < |q.dispatch| ensures Ripe(q, later, q.dispatch[i]) { assert Ripe(q, now, q.dispatch[i]); }
    forall i | 0 <= i < |q.tails| ensures TailOk(q, later, q.tails[i]) { assert TailOk(q, now, q.tails[i]); }
  }

  /** Fresh rows with their conditional puts. */
  ghost predicate FreshRows(q: Queue, rows: map<nat, Job>, tails: seq<Tail>) {
    && rows.Keys !! q.jobs.Keys
    && (forall j :: j in rows ==>
          rows[j].status == Queued && rows[j].attempts == 0 && rows[j].maxAttempts >= 1 && rows[j].lastError.None?)
    && (forall i :: 0 <= i < |tails| ==> tails[i].job in rows && tails[i].ifDue == Some(rows[tails[i].job].runAt))
  }

  lemma InsertKeepsQueue(q: Queue, now: real, rows: map<nat, Job>, tails: seq<Tail>)
    requires QueueInv(q, now) && FreshRows(q, rows, tails)
    ensures QueueInv(Insert(q, rows, tails), now)
  {
    var r := Insert(q, rows, tails);
    forall j | j in r.jobs ensures JobOk(r, now, j) { if j in q.jobs { assert JobOk(q, now, j); } }
    forall i | 0 <= i < |r.dispatch| ensures Ripe(r, now, r.dispatch[i]) { assert Ripe(q, now, q.dispatch[i]); }
    forall i | 0 <= i < |r.tails| ensures TailOk(r, now, r.tails[i]) {
      if i < |q.tails| { assert TailOk(q, now, q.tails[i]); } else { assert r.tails[i] == tails[i - |q.tails|]; }
    }
  }

  lemma ResumeKeepsQueue(q: Queue, now: real, i: nat)
    requires QueueInv(q, now) && i < |q.tails|
    ensures QueueInv(Resume(q, now, i), now)
  {
    var r := Resume(q, now, i);
    assert TailOk(q, now, q.tails[i]);
    forall j | j in r.jobs ensures JobOk(r, now, j) { assert JobOk(q, now, j); }
    forall k | 0 <= k < |r.dispatch| ensures Ripe(r, now, r.dispatch[k]) {
      if k < |q.dispatch| { assert Ripe(q, now, q.dispatch[k]); }
    }
    forall k | 0 <= k < |r.tails| ensures TailOk(r, now, r.tails[k]) {
      assert TailOk(q, now, q.tails[if k < i then k else k + 1]);
    }
  }

  lemma PollKeepsQueue(q: Queue, now: real, ids: seq<nat>)
    requires QueueInv(q, now) && Selection(q, now, ids)
    ensures QueueInv(Poll(q, ids), now)
  {
    var r := Poll(q, ids);
    forall j | j in r.jobs ensures JobOk(r, now, j) { assert JobOk(q, now, j); }
    forall i | 0 <= i < |r.dispatch| ensures Ripe(r, now, r.dispatch[i]) { assert Ripe(q, now, q.dispatch[i]); }
    forall i | 0 <= i < |r.tails| ensures TailOk(r, now, r.tails[i]) {
      if i < |q.tails| { assert TailOk(q, now, q.tails[i]); } else { assert Due(q, now, ids[i - |q.tails|]); }
    }
  }

  lemma RestartKeepsQueue(q: Queue, now: real)
    requires QueueInv(q, now)
    ensures QueueInv(Restart(q), now)
  {
    var r := Restart(q);
    forall j | j in r.jobs ensures JobOk(r, now, j) { assert JobOk(q, now, j); }
  }

  lemma EnterKeepsQueue(q: Queue, now: real, phase: Phase)
    requires QueueInv(q, now)
    ensures QueueInv(Enter(q, phase), now)
  {
    var r := Enter(q, phase);
    forall j | j in r.jobs ensures JobOk(r, now, j) { assert JobOk(q, now, j); }
    forall i | 0 <= i < |r.dispatch| ensures Ripe(r, now, r.dispatch[i]) { assert Ripe(q, now, q.dispatch[i]); }
    forall i | 0 <= i < |r.tails| ensures TailOk(r, now, r.tails[i]) { assert TailOk(q, now, q.tails[i]); }
  }

  /** Rewriting one row keeps every id that names a job ripe or on time, provided the row's start
      time stays put or moves to now. */
  lemma RewriteKeepsIds(q: Queue, now: real, r: Queue, id: nat)
    requires QueueInv(q, now) && id in q.jobs
    requires r.jobs.Keys == q.jobs.Keys && forall j :: j in q.jobs && j != id ==> r.jobs[j] == q.jobs[j]
    requires r.jobs[id].runAt == q.jobs[id].runAt || r.jobs[id].runAt <= now
    ensures forall j :: Ripe(q, now, j) ==> Ripe(r, now, j)
    ensures forall t :: TailOk(q, now, t) ==> TailOk(r, now, t)
  {}

  lemma TakeKeepsQueue(q: Queue, now: real)
    requires QueueInv(q, now)
    ensures QueueInv(Take(q), now)
  {
    var r := Take(q);
    if q.worker == Idle && q.dispatch != [] {
      var id := q.dispatch[0];
      assert Ripe(q, now, id) && JobOk(q, now, id);
      RewriteKeepsIds(q, now, r, id);
      forall j | j in r.jobs ensures JobOk(r, now, j) { assert JobOk(q, now, j); }
      forall i | 0 <= i < |r.dispatch| ensures Ripe(r, now, r.dispatch[i]) { assert Ripe(q, now, q.dispatch[i + 1]); }
      forall i | 0 <= i < |r.tails| ensures TailOk(r, now, r.tails[i]) { assert TailOk(q, now, q.tails[i]); }
    }
  }

  lemma FinishKeepsQueue(q: Queue, now: real)
    requires QueueInv(q, now)
    ensures QueueInv(Finish(q, now), now)
  {
    var r := Finish(q, now);
    if q.worker != Idle && (q.worker.phase.Returned? || q.worker.phase.Raised?) {
      var id := q.worker.job;
      assert JobOk(q, now, id);
      RewriteKeepsIds(q, now, r, id);
      forall j | j in r.jobs ensures JobOk(r, now, j) { assert JobOk(q, now, j); }
      forall i | 0 <= i < |r.dispatch| ensures Ripe(r, now, r.dispatch[i]) { assert Ripe(q, now, q.dispatch[i]); }
      forall i | 0 <= i < |r.tails| ensures TailOk(r, now, r.tails[i]) {
        if i < |q.tails| { assert TailOk(q, now, q.tails[i]); }
      }
    }
  }

  /** An operator's reset keeps the queue's rules exactly when it does not hit the job in flight;
      the code leaves that to the operator. */
  lemma ResetKeepsQueueIff(q: Queue, now: real, id: nat)
    requires QueueInv(q, now)
    ensures QueueInv(Reset(q, now, id), now) <==> !(id in q.jobs && q.jobs[id].status == Running)
  {
    var r := Reset(q, now, id);
    if id in q.jobs {
      assert JobOk(q, now, id);
      if q.jobs[id].status == Running {
        assert !JobOk(r, now, id);
      } else {
        RewriteKeepsIds(q, now, r, id);
        forall j | j in r.jobs ensures JobOk(r, now, j) { assert JobOk(q, now, j); }
        forall i | 0 <= i < |r.dispatch| ensures Ripe(r, now, r.dispatch[i]) { assert Ripe(q, now, q.dispatch[i]); }
        forall i | 0 <= i < |r.tails| ensures TailOk(r, now, r.tails[i]) {
          if i < |q.tails| { assert TailOk(q, now, q.tails[i]); }
        }
      }
    }
  }
}
