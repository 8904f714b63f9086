/** The running process: its committed tables, the rows a session works on, the dispatch queue in
    memory and the worker, all updated in place. */
module Store {
  import opened Common
  import opened Payments
  import opened Jobs
  import opened Refunds
  import opened Webhooks
  import opened System

  /** The committed tables, the clock and the source of fresh ids. */
  class Database {
    const max: nat
    var clock: real
    var next: nat
    var payments: map<nat, Payment>
    var records: map<string, IdempotencyRecord>
    var refunds: map<nat, Refund>
    var endpoints: map<nat, Endpoint>
    var events: map<nat, Event>
    var jobs: map<nat, Job>
    ghost var calls: map<nat, seq<Payments.Call>>
    ghost var posts: map<nat, seq<Post>>
    ghost var starts: map<nat, nat>

    constructor (max: nat)
      ensures this.max == max && clock == 0.0 && next == 0
      ensures payments == map[] && records == map[] && refunds == map[] && endpoints == map[] && events == map[]
      ensures jobs == map[]
      ensures calls == map[] && posts == map[] && starts == map[]
    {
      this.max, clock, next := max, 0.0, 0;
      payments, records, refunds, endpoints, events, jobs := map[], map[], map[], map[], map[], map[];
      calls, posts, starts := map[], map[], map[];
    }
  }

  /** A session's working copy of a payment; nothing is committed until the row is stored. */
  class PaymentRow {
    const customer: string
    const amount: int
    const key: string
    var status: PaymentStatus
    var failureReason: Option<Reason>
    var failureClass: Option<FailureClass>
    var retryCount: nat
    var metadata: Option<string>
    var history: seq<Entry>
    var confirmedAt: Option<real>

    function Value(): Payment
      reads this
    {
      Payment(customer, amount, status, failureReason, failureClass, retryCount, key, metadata, history, confirmedAt)
    }

    constructor (p: Payment)
      ensures Value() == p
    {
      customer, amount, key := p.customer, p.amount, p.key;
      status, failureReason, failureClass := p.status, p.failureReason, p.failureClass;
      retryCount, metadata, history, confirmedAt := p.retryCount, p.metadata, p.history, p.confirmedAt;
    }
  }

  /** A session's working copy of a job. */
  class JobRow {
    const task: Task
    const maxAttempts: nat
    var status: JobStatus
    var attempts: nat
    var runAt: real
    var lastError: Option<Cause>

    function Value(): Job
      reads this
    {
      Job(task, status, attempts, maxAttempts, runAt, lastError)
    }

    constructor (j: Job)
      ensures Value() == j
    {
      task, maxAttempts, status, attempts, runAt, lastError := j.task, j.maxAttempts, j.status, j.attempts,
          j.runAt, j.lastError;
    }
  }

  /** A session's working copy of a refund. */
  class RefundRow {
    const payment: nat
    const amount: int
    const key: string
    var status: RefundStatus

    function Value(): Refund
      reads this
    {
      Refund(payment, amount, status, key)
    }

    constructor (r: Refund)
      ensures Value() == r
    {
      payment, amount, key, status := r.payment, r.amount, r.key, r.status;
    }
  }

  /** A session's working copy of a webhook event. */
  class EventRow {
    const endpoint: nat
    const refund: nat
    var status: EventStatus
    var attempts: nat
    var lastAttemptAt: Option<real>
    var nextRetryAt: Option<real>

    function Value(): Event
      reads this
    {
      Event(endpoint, refund, status, attempts, lastAttemptAt, nextRetryAt)
    }

    constructor (e: Event)
      ensures Value() == e
    {
      endpoint, refund, status, attempts := e.endpoint, e.refund, e.status, e.attempts;
      lastAttemptAt, nextRetryAt := e.lastAttemptAt, e.nextRetryAt;
    }
  }

  /** One job more, and one coroutine that is about to put it. */
  lemma EnqueueIsOneRow(q: Queue, id: nat, task: Task, runAt: real)
    ensures forall w ::
      Jobs.Enqueue(q.(worker := w), id, task, runAt)
      == Queue(q.jobs[id := NewJob(task, runAt)], q.dispatch, q.tails + [Tail(id, Some(runAt))], w, q.starts[id := 0])
  {
    var rows := map[id := NewJob(task, runAt)];
    assert q.jobs + rows == q.jobs[id := NewJob(task, runAt)];
    assert q.starts + (map j | j in rows :: 0) == q.starts[id := 0];
  }

  /** The durable insert and the dispatch queue in memory (pulsepay/jobs/queue.py). */
  class StormQueue {
    const db: Database
    var dispatch: seq<nat>
    var tails: seq<Tail>  // coroutines about to put an id

    constructor (db: Database)
      ensures this.db == db && dispatch == [] && tails == []
    {
      this.db, dispatch, tails := db, [], [];
    }

    /** The queue as the specification sees it, beside what the worker is doing. */
    ghost function View(current: Worker): Queue
      reads this, db
    {
      Queue(db.jobs, dispatch, tails, current, db.starts)
    }

    /** Inserts and commits one job; the put, if the job is due by then, is still to come. */
    method Enqueue(id: nat, task: Task, runAt: Option<real>)
      modifies this`tails, db`jobs, db`starts
      ensures forall w :: View(w) == Jobs.Enqueue(old(View(w)), id, task, if runAt.Some? then runAt.value else db.clock)
    {
      hide Jobs.Enqueue;
      var effectiveRunAt := if runAt.Some? then runAt.value else db.clock;
      EnqueueIsOneRow(View(Idle), id, task, effectiveRunAt);
      db.jobs := db.jobs[id := NewJob(task, effectiveRunAt)];
      db.starts := db.starts[id := 0];
      tails := tails + [Tail(id, Some(effectiveRunAt))];
    }

    /** A suspended coroutine goes on: it puts its id, or finds that the job lies in the future. */
    method Resume(i: nat)
      requires i < |tails|
      modifies this
      ensures forall w :: View(w) == Jobs.Resume(old(View(w)), db.clock, i)
    {
      var t := tails[i];
      tails := tails[..i] + tails[i + 1..];
      if t.ifDue.None? || t.ifDue.value <= db.clock {
        dispatch := dispatch + [t.job];
      }
    }

    /** `retry_dead_job`, which looks at nothing but the row's existence. */
    method RetryDeadJob(id: nat) returns (found: bool)
      modifies this`tails, db`jobs, db`starts
      ensures found == (id in old(db.jobs))
      ensures forall w :: View(w) == Reset(old(View(w)), db.clock, id)
    {
      if id !in db.jobs {
        return false;
      }
      var job := new JobRow(db.jobs[id]);
      job.status := JobStatus.Queued;
      job.lastError := None;
      job.attempts := 0;
      job.runAt := db.clock;
      db.jobs := db.jobs[id := job.Value()];
      db.starts := db.starts[id := 0];
      tails := tails + [Tail(id, None)];
      return true;
    }
  }

  /** The consumer and the poller (pulsepay/jobs/worker.py). */
  class JobWorker {
    const queue: StormQueue
    var current: Worker  // the handler in flight

    constructor (queue: StormQueue)
      ensures this.queue == queue && current == Idle
    {
      this.queue, current := queue, Idle;
    }

    ghost function View(): Queue
      reads this, queue, queue.db
    {
      queue.View(current)
    }

    /** The poller's SELECT, in whatever order the database lists the rows. */
    method DueJobs() returns (ids: seq<nat>)
      ensures Selection(View(), queue.db.clock, ids)
    {
      ids := [];
      var rest := queue.db.jobs.Keys;
      while rest != {}
        invariant rest <= queue.db.jobs.Keys
        invariant forall i :: 0 <= i < |ids| ==> Due(View(), queue.db.clock, ids[i]) && ids[i] !in rest
        invariant forall j :: j in queue.db.jobs && j !in rest && Due(View(), queue.db.clock, j) ==> j in ids
        invariant forall i, k :: 0 <= i < k < |ids| ==> ids[i] != ids[k]
        decreases rest
      {
        var j :| j in rest;
        rest := rest - {j};
        if queue.db.jobs[j].status == JobStatus.Queued && queue.db.jobs[j].runAt <= queue.db.clock {
          ids := ids + [j];
        }
      }
    }

    /** One poll: every due id is put once more, whether or not it is on the queue already. */
    method EnqueueDueJobs() returns (ids: seq<nat>)
      modifies queue`tails
      ensures Selection(old(View()), queue.db.clock, ids) && View() == Poll(old(View()), ids)
    {
      ids := DueJobs();
      for i := 0 to |ids|
        invariant queue.tails == old(queue.tails) + Puts(ids[..i])
      {
        queue.tails := queue.tails + [Tail(ids[i], None)];
        assert Puts(ids[..i + 1]) == Puts(ids[..i]) + [Tail(ids[i], None)];
      }
      assert ids[..|ids|] == ids;
    }

    /** The consumer takes an id: stale ones are dropped, any other job is marked running. */
    method TakeNext() returns (started: bool)
      modifies this, queue`dispatch, queue.db`jobs, queue.db`starts
      ensures View() == Take(old(View()))
      ensures started == (old(current) == Idle && current != Idle)
    {
      if current != Idle || queue.dispatch == [] {
        return false;
      }
      var id := queue.dispatch[0];
      queue.dispatch := queue.dispatch[1..];
      if id !in queue.db.jobs {
        return false;
      }
      var job := new JobRow(queue.db.jobs[id]);
      if job.status == JobStatus.Completed || job.status == JobStatus.Dead {
        return false;
      }
      job.status := Running;
      queue.db.jobs := queue.db.jobs[id := job.Value()];
      queue.db.starts := if id in queue.db.starts
        then queue.db.starts[id := queue.db.starts[id] + 1]
        else queue.db.starts;
      current := Busy(id, Started);
      return true;
    }

    /** The handler in flight moves on. */
    method Advance(phase: Phase)
      modifies this
      ensures View() == Enter(old(View()), phase)
    {
      if current != Idle {
        current := Busy(current.job, phase);
      }
    }

    /** After the handler returned or raised: completed, queued again at once, or dead. The failed
        status only ever exists in the working copy. */
    method Finish()
      modifies this, queue`tails, queue.db`jobs
      ensures View() == Jobs.Finish(old(View()), queue.db.clock)
    {
      if current == Idle || current.job !in queue.db.jobs {
        return;
      }
      var id := current.job;
      var job := new JobRow(queue.db.jobs[id]);
      match current.phase
      case Returned =>
        job.status := JobStatus.Completed;
        job.lastError := None;
        queue.db.jobs := queue.db.jobs[id := job.Value()];
        current := Idle;
      case Raised(error) =>
        job.attempts := job.attempts + 1;
        job.lastError := Some(error);
        job.status := JobStatus.Failed;
        if job.attempts < job.maxAttempts {
          job.status := JobStatus.Queued;
          job.runAt := queue.db.clock;
          queue.tails := queue.tails + [Tail(id, None)];
        } else {
          job.status := JobStatus.Dead;
        }
        queue.db.jobs := queue.db.jobs[id := job.Value()];
        current := Idle;
      case _ =>
    }

    /** The process restarts between jobs. */
    method Restart()
      modifies queue
      ensures View() == Jobs.Restart(old(View()))
    {
      if current == Idle {
        queue.dispatch, queue.tails := [], [];
      }
    }
  }

  /** The whole back end, as the specification sees it. */
  class Backend {
    const db: Database
    const queue: StormQueue
    const worker: JobWorker

    ghost predicate Wired() {
      queue.db == db && worker.queue == queue
    }

    ghost function View(): State
      reads db, queue, worker
    {
      State(db.max, db.clock, db.next, db.payments, db.records, db.calls, db.refunds, db.endpoints, db.events, db.posts,
            Queue(db.jobs, queue.dispatch, queue.tails, worker.current, db.starts))
    }

    constructor (max: nat)
      ensures Wired() && View() == Init(max)
      ensures fresh(db) && fresh(queue) && fresh(worker)
    {
      var d := new Database(max);
      var q := new StormQueue(d);
      var w := new JobWorker(q);
      db, queue, worker := d, q, w;
    }

    /** A fresh id, as `uuid4` would give. */
    method FreshIds(n: nat) returns (id: nat)
      modifies db`next
      ensures id == old(db.next) && View() == old(View()).(next := old(db.next) + n)
    {
      id := db.next;
      db.next := db.next + n;
    }
  }
}
