/** What operators may rely on about jobs, in every run. */
module WorkTheorems {
  import opened Common
  import opened Payments
  import opened Jobs
  import opened Refunds
  import opened Webhooks
  import opened System
  import opened Invariants
  import opened HandlerSteps
  import opened Runs
  import opened Frames

  // ---------------------------------------------------------------- no lost and no forked work

  /** A job that is queued, running or dead and stands for this piece of work. */
  predicate Stands(s: State, j: nat, t: Target) {
    j in s.q.jobs && TargetOf(s.q.jobs[j].task) == t && Live(s.q.jobs[j].status)
  }

  /** Between worker steps every open payment, refund and webhook event has exactly one job that
      is queued, running or dead, and no piece of work, open or not, ever has two. */
  lemma NoLostOrForkedWork(max: nat, run: seq<Action>, t: Target)
    requires max >= 1 && After(max, run).q.worker == Idle
    ensures var s := After(max, run);
      && (IsOpen(s, t) ==> exists j :: Stands(s, j, t))
      && (forall j, k :: Stands(s, j, t) && Stands(s, k, t) ==> j == k)
  {
    var s := After(max, run);
    assert LinkOk(s) by { Reached(max, run); }
    forall j | Stands(s, j, t) ensures Carries(s.q, j, t) {}
    if IsOpen(s, t) {
      var j :| Carries(s.q, j, t);
      assert Stands(s, j, t);
    }
  }

  /** Even while a handler is in flight, at most one job has not handed the work on. */
  lemma NeverTwoCarriers(max: nat, run: seq<Action>, j: nat, k: nat, t: Target)
    requires max >= 1 && Carries(After(max, run).q, j, t) && Carries(After(max, run).q, k, t)
    ensures j == k
  {
    Reached(max, run);
  }

  // ---------------------------------------------------------------- accounting and timing of single jobs

  /** Every handler start is either a counted failure or the run that is under way or succeeded,
      so no job starts more often than it may, and no committed row is ever `failed`. */
  lemma StartsAreAccounted(max: nat, run: seq<Action>, j: nat)
    requires max >= 1 && j in After(max, run).q.jobs
    ensures var q := After(max, run).q; var job := q.jobs[j];
      && j in q.starts
      && q.starts[j] == job.attempts + (if job.status == Running || job.status == JobStatus.Completed then 1 else 0)
      && q.starts[j] <= job.maxAttempts
      && job.status != JobStatus.Failed
      && (job.status == JobStatus.Dead <==> job.attempts == job.maxAttempts)
      && (job.lastError.Some? <==> job.attempts > 0 && job.status != JobStatus.Completed)
  {
    Reached(max, run);
    assert JobOk(After(max, run).q, After(max, run).clock, j);
  }

  /** Taking an id from the dispatch queue starts a handler only if the job is queued and its
      time has come, although nothing in that step looks at the time. */
  lemma NoEarlyStart(max: nat, run: seq<Action>, j: nat)
    requires max >= 1 && After(max, run).q.worker == Idle && After(max, run + [TakeJob]).q.worker == Busy(j, Started)
    ensures var s := After(max, run);
      j in s.q.jobs && s.q.jobs[j].runAt <= s.clock && s.q.jobs[j].status == JobStatus.Queued
  {
    var s := After(max, run);
    assert (run + [TakeJob])[..|run|] == run;
    assert QueueInv(s.q, s.clock) by { Reached(max, run); }
    assert Ripe(s.q, s.clock, s.q.dispatch[0]) && JobOk(s.q, s.clock, j);
  }

  // ---------------------------------------------------------------- a completed job stays completed

  /** Rows keep their tasks, and completed ones keep everything, starts included. */
  ghost predicate JobsGrow(q: Queue, r: Queue) {
    forall j :: j in q.jobs && j in q.starts ==>
      && j in r.jobs && j in r.starts && r.jobs[j].task == q.jobs[j].task
      && (q.jobs[j].status == JobStatus.Completed ==> r.jobs[j] == q.jobs[j] && r.starts[j] == q.starts[j])
  }

  /** Requests and handlers only ever add job rows. */
  ghost predicate RowsKept(q: Queue, r: Queue) {
    && (forall j :: j in q.jobs ==> j in r.jobs && r.jobs[j] == q.jobs[j])
    && (forall j :: j in q.jobs && j in q.starts ==> j in r.starts && r.starts[j] == q.starts[j])
  }

  lemma InsertKeepsRows(q: Queue, rows: map<nat, Job>, tails: seq<Tail>)
    requires rows.Keys !! q.jobs.Keys
    ensures RowsKept(q, Insert(q, rows, tails))
  {}

  lemma RowsKeptAsTheyAre(q: Queue)
    ensures RowsKept(q, q)
  {}

  lemma EnterKeepsRows(q: Queue, phase: Phase)
    ensures RowsKept(q, Enter(q, phase))
  {}

  lemma EnqueueKeepsRows(q: Queue, id: nat, task: Task, runAt: real, phase: Phase)
    requires id !in q.jobs
    ensures RowsKept(q, Enter(Enqueue(q, id, task, runAt), phase))
  {}

  lemma EntersQueue(s: State, t: State, phase: Phase)
    requires t.q == s.q
    ensures Enters(t, phase).q == Enter(s.q, phase)
  {}

  lemma ProcessStepQueue(s: State, draw: real, fault: Fault, id: nat)
    requires Current(s) == Some(ProcessPayment(id))
    ensures exists phase :: PaymentStep(s, draw, fault).q == Enter(s.q, phase)
  {
    hide Enters, Confirm, ConfirmPhase, ConfirmResultOf, Enter, Attempt;
    var outcome := Attempt(draw, fault);
    ConfirmFrame(s, id, None, outcome, Worker(s.q.worker.job));
    EntersQueue(s, s, Raised(Aborted));
    EntersQueue(s, Confirm(s, id, None, outcome, Worker(s.q.worker.job)),
                ConfirmPhase(ConfirmResultOf(s, id, outcome), fault, Returned));
  }

  lemma RetryStepQueue(s: State, draw: real, fault: Fault, id: nat)
    requires Current(s) == Some(RetryPayment(id))
    ensures exists phase :: PaymentStep(s, draw, fault).q == Enter(s.q, phase)
  {
    hide Enters, Confirm, ConfirmPhase, ConfirmResultOf, Enter, Attempt, MarkExhausted, MarkPhase;
    var outcome := Attempt(draw, fault);
    ConfirmFrame(s, id, None, outcome, Worker(s.q.worker.job));
    MarkFrame(s, id);
    EntersQueue(s, s, Raised(Aborted));
    EntersQueue(s, MarkExhausted(s, id), MarkPhase(s, id, fault));
    EntersQueue(s, Confirm(s, id, None, outcome, Worker(s.q.worker.job)),
                ConfirmPhase(ConfirmResultOf(s, id, outcome), fault, Raised(RowMissing)));
  }

  lemma PaymentKeepsRows(s: State, draw: real, fault: Fault)
    ensures RowsKept(s.q, PaymentStep(s, draw, fault).q)
  {
    hide Confirm, Enter, ConfirmPhase, ConfirmResultOf, MarkExhausted, MarkPhase;
    match Current(s)
    case Some(ProcessPayment(id)) =>
      ProcessStepQueue(s, draw, fault, id);
      EnterAnyKeepsRows(s.q, PaymentStep(s, draw, fault).q);
    case Some(RetryPayment(id)) =>
      RetryStepQueue(s, draw, fault, id);
      EnterAnyKeepsRows(s.q, PaymentStep(s, draw, fault).q);
    case _ =>
  }

  lemma EnterAnyKeepsRows(q: Queue, r: Queue)
    requires exists phase :: r == Enter(q, phase)
    ensures RowsKept(q, r)
  {}

  lemma ScheduleKeepsRows(s: State, id: nat, count: nat, jitter: real)
    requires s.next !in s.q.jobs
    ensures RowsKept(s.q, ScheduleRetry(s, id, count, jitter).q)
  {
    hide Enter, Enqueue, NextRetryAt, RowsKept;
    EnqueueKeepsRows(s.q, s.next, RetryPayment(id), NextRetryAt(s.clock, count, jitter), Returned);
  }

  lemma MarkKeepsRows(s: State, id: nat, phase: Phase)
    ensures RowsKept(s.q, Enters(MarkExhausted(s, id), phase).q)
  {
    hide Enter, Exhausted, RowsKept;
    EnterKeepsRows(s.q, phase);
  }

  lemma SoftKeepsRows(s: State, jitter: real, fault: Fault)
    requires s.next !in s.q.jobs
    ensures RowsKept(s.q, SoftStep(s, jitter, fault).q)
  {
    hide Enter, ScheduleRetry, MarkExhausted, MarkPhase;
    EnterKeepsRows(s.q, Raised(Aborted));
    match SoftTask(s)
    case Some((ProcessPayment(id), n)) => if fault == NoFault { ScheduleKeepsRows(s, id, n, jitter); }
    case Some((RetryPayment(id), n)) =>
      if fault == NoFault && n >= s.max { MarkKeepsRows(s, id, MarkPhase(s, id, fault)); }
      else if fault == NoFault { ScheduleKeepsRows(s, id, n, jitter); }
    case _ =>
  }

  lemma CompleteKeepsRows(s: State, id: nat, ids: seq<nat>, cut: Cut)
    requires IdsOk(s) && id in s.refunds
    ensures RowsKept(s.q, CompleteRun(s, id, ids, cut).q)
  {
    var n := |ids|;
    if cut.CutDuring? && cut.enqueued <= n {
      FanoutFresh(s, n, cut.enqueued);
      InsertKeepsRows(s.q, FanoutRows(s.next, n, cut.enqueued, s.clock), FanoutTails(s.next, n, cut.enqueued, s.clock));
    } else {
      FanoutFresh(s, n, n);
      InsertKeepsRows(s.q, FanoutRows(s.next, n, n, s.clock), FanoutTails(s.next, n, n, s.clock));
    }
  }

  lemma RefundRunKeepsRows(s: State, id: nat, draw: real, ids: seq<nat>, cut: Cut)
    requires IdsOk(s) && id in s.refunds
    ensures RowsKept(s.q, RefundRun(s, id, draw, ids, cut).q)
  {
    hide CompleteRun, Audience, RowsKept, Enter;
    RowsKeptAsTheyAre(s.q);
    if Refunds.Terminal(s.refunds[id].status) { EnterKeepsRows(s.q, Leave(cut)); }
    else if s.refunds[id].status == RefundStatus.Processing { EnterKeepsRows(s.q, Raised(InvalidTransition)); }
    else if draw >= 0.95 { EnterKeepsRows(s.q, if cut.CutDuring? then Raised(Aborted) else Leave(cut)); }
    else if s.refunds[id].payment !in s.payments { CompleteKeepsRows(s, id, [], cut); }
    else if Audience(s, s.payments[s.refunds[id].payment].customer, ids) { CompleteKeepsRows(s, id, ids, cut); }
  }

  lemma RefundKeepsRows(s: State, draw: real, ids: seq<nat>, cut: Cut)
    requires IdsOk(s)
    ensures RowsKept(s.q, RefundStep(s, draw, ids, cut).q)
  {
    match Current(s)
    case Some(ProcessRefund(id)) =>
      if id in s.refunds {
        RefundRunKeepsRows(s, id, draw, ids, cut);
      } else {
        EnterKeepsRows(s.q, Raised(RowMissing));
      }
    case _ =>
  }

  lemma RecordKeepsRows(s: State, id: nat, e: Event)
    requires s.next !in s.q.jobs && id in s.events
    ensures RowsKept(s.q, Record(s, id, e).q)
  {
    if e.status == EventStatus.Failed && e.nextRetryAt.Some? {
      EnqueueKeepsRows(s.q, s.next, DeliverWebhook(id), e.nextRetryAt.value, Returned);
    } else {
      EnterKeepsRows(s.q, Returned);
    }
  }

  lemma DeliverRunKeepsRows(s: State, id: nat, ok: bool, elapsed: real, jitter: real, cut: DeliveryCut)
    requires s.next !in s.q.jobs && id in s.events
    ensures RowsKept(s.q, DeliverRun(s, id, ok, elapsed, jitter, cut).q)
  {
    hide RowsKept, Record, AfterPost, Undeliverable;
    if s.events[id].endpoint !in s.endpoints || !s.endpoints[s.events[id].endpoint].active {
      RecordKeepsRows(s, id, Undeliverable(s.events[id], s.clock));
    } else if cut == CutAfterPost {
      EnterKeepsRows(s.q, Raised(Aborted));
    } else {
      RecordKeepsRows(Sent(s, id, ok, elapsed, true), id, AfterPost(s.events[id], ok, jitter, s.clock));
    }
  }

  lemma DeliverKeepsRows(s: State, ok: bool, elapsed: real, jitter: real, cut: DeliveryCut)
    requires s.next !in s.q.jobs
    ensures RowsKept(s.q, DeliverStep(s, ok, elapsed, jitter, cut).q)
  {
    hide DeliverRun, Enter, RowsKept;
    RowsKeptAsTheyAre(s.q);
    match Current(s)
    case Some(DeliverWebhook(id)) =>
      if cut == CutBeforePost { EnterKeepsRows(s.q, Raised(Aborted)); }
      else if id !in s.events { EnterKeepsRows(s.q, Returned); }
      else { DeliverRunKeepsRows(s, id, ok, elapsed, jitter, cut); }
    case _ =>
  }

  /** The steps that leave every existing row alone: all but those of the queue and the worker. */
  predicate Outer(a: Action) {
    !(a.OperatorRetry? || a.TakeJob? || a.FinishJob?)
  }

  lemma PaymentHandlerKeepsRows(s: State, a: Action)
    requires IdsOk(s) && (a.RunPayment? || a.RunSoft?)
    ensures RowsKept(s.q, Next(s, a).q)
  {
    hide PaymentStep, SoftStep;
    match a
    case RunPayment(draw, fault) => PaymentKeepsRows(s, draw, fault);
    case RunSoft(jitter, fault) => SoftKeepsRows(s, jitter, fault);
  }

  lemma EffectHandlerKeepsRows(s: State, a: Action)
    requires IdsOk(s) && (a.RunRefund? || a.RunDelivery?)
    ensures RowsKept(s.q, Next(s, a).q)
  {
    hide RefundStep, DeliverStep;
    match a
    case RunRefund(draw, ids, cut) => RefundKeepsRows(s, draw, ids, cut);
    case RunDelivery(ok, elapsed, jitter, cut) => DeliverKeepsRows(s, ok, elapsed, jitter, cut);
  }

  lemma CreateKeepsRows(s: State, customer: string, cents: real, metadata: Option<string>, key: string)
    requires s.next + 1 !in s.q.jobs
    ensures RowsKept(s.q, Create(s, customer, cents, metadata, key).q)
  {
    hide Stored, NewPayment;
  }

  lemma InitiateKeepsRows(s: State, payment: nat, cents: Option<real>, key: string)
    requires s.next + 1 !in s.q.jobs
    ensures RowsKept(s.q, Initiate(s, payment, cents, key).q)
  {
    hide InitiateResultOf, Stored, Requested;
    if InitiateResultOf(s, payment, cents, key).Initiated? {}
  }

  lemma RequestKeepsRows(s: State, a: Action)
    requires s.next + 1 !in s.q.jobs && (a.CreateRequest? || a.ConfirmRequest? || a.RefundRequest?)
    ensures RowsKept(s.q, Next(s, a).q)
  {
    hide Create, Initiate;
    match a
    case CreateRequest(customer, cents, metadata, key) => CreateKeepsRows(s, customer, cents, metadata, key);
    case ConfirmRequest(_, _, _, _) =>
    case RefundRequest(payment, cents, key) => InitiateKeepsRows(s, payment, cents, key);
  }

  lemma PlainKeepsRows(s: State, a: Action)
    requires a.Tick? || a.RegisterEndpoint? || a.DeactivateEndpoint?
          || a.PollJobs? || a.ResumeTail? || a.RestartProcess?
    ensures RowsKept(s.q, Next(s, a).q)
  {
    hide Create, Confirm, Initiate, PaymentStep, SoftStep, RefundStep, DeliverStep, Take, Finish, Reset,
         Selection, Puts;
    assert Next(s, a).q.jobs == s.q.jobs && Next(s, a).q.starts == s.q.starts;
  }

  lemma OuterKeepsRows(s: State, a: Action)
    requires IdsOk(s) && Outer(a)
    ensures RowsKept(s.q, Next(s, a).q)
  {
    hide Next, RowsKept;
    if a.RunPayment? || a.RunSoft? { PaymentHandlerKeepsRows(s, a); }
    else if a.RunRefund? || a.RunDelivery? { EffectHandlerKeepsRows(s, a); }
    else if a.CreateRequest? || a.ConfirmRequest? || a.RefundRequest? { RequestKeepsRows(s, a); }
    else { PlainKeepsRows(s, a); }
  }

  lemma TakeJobsGrow(q: Queue)
    ensures JobsGrow(q, Take(q))
  {}

  lemma FinishJobsGrow(q: Queue, now: real)
    requires QueueInv(q, now)
    ensures JobsGrow(q, Finish(q, now))
  {
    if q.worker.Busy? { assert JobOk(q, now, q.worker.job); }
  }

  lemma ResetJobsGrow(q: Queue, now: real, j: nat)
    requires j in q.jobs && q.jobs[j].status == JobStatus.Dead
    ensures JobsGrow(q, Reset(q, now, j))
  {}

  lemma InnerJobsGrow(s: State, a: Action)
    requires QueueInv(s.q, s.clock) && !Outer(a)
    ensures JobsGrow(s.q, Next(s, a).q)
  {
    hide QueueInv;
    match a
    case OperatorRetry(j) =>
      if j in s.q.jobs && s.q.jobs[j].status == JobStatus.Dead { ResetJobsGrow(s.q, s.clock, j); }
    case TakeJob => TakeJobsGrow(s.q);
    case FinishJob => FinishJobsGrow(s.q, s.clock);
  }

  lemma NextJobsGrow(s: State, a: Action)
    requires Flow(s)
    ensures JobsGrow(s.q, Next(s, a).q)
  {
    if Outer(a) { OuterKeepsRows(s, a); } else { InnerJobsGrow(s, a); }
  }

  /** At most one run of a job succeeds: once completed, the row never changes and its handler never starts again. */
  lemma {:induction false} CompletedIsFinal(max: nat, run: seq<Action>, more: seq<Action>, j: nat)
    requires max >= 1 && j in After(max, run).q.jobs && After(max, run).q.jobs[j].status == JobStatus.Completed
    ensures var q, r := After(max, run).q, After(max, run + more).q;
      && j in q.starts && j in r.jobs && j in r.starts
      && r.jobs[j] == q.jobs[j] && r.starts[j] == q.starts[j]
    decreases |more|
  {
    hide JobsGrow, Next;
    if more == [] {
      assert run + more == run;
      StartsAreAccounted(max, run, j);
    } else {
      var n := |more| - 1;
      CompletedIsFinal(max, run, more[..n], j);
      var t := After(max, run + more[..n]);
      assert Flow(t) by { Reached(max, run + more[..n]); }
      NextJobsGrow(t, more[n]);
      assert (run + more)[..|run + more| - 1] == run + more[..n];
    }
  }

  // ---------------------------------------------------------------- the dispatch queue is a cache

  /** All suspended puts resumed, first come first served. */
  function Drained(q: Queue, now: real): Queue
    decreases |q.tails|
  {
    if q.tails == [] then q else Drained(Resume(q, now, 0), now)
  }

  lemma {:induction false} DrainedDispatches(q: Queue, now: real)
    ensures var r := Drained(q, now);
      && r == q.(dispatch := r.dispatch, tails := [])
      && q.dispatch <= r.dispatch
      && forall i :: 0 <= i < |q.tails| && (q.tails[i].ifDue.None? || q.tails[i].ifDue.value <= now) ==>
          q.tails[i].job in r.dispatch
    decreases |q.tails|
  {
    if q.tails != [] {
      var t := Resume(q, now, 0);
      DrainedDispatches(t, now);
      var r := Drained(q, now);
      forall i | 0 <= i < |q.tails| && (q.tails[i].ifDue.None? || q.tails[i].ifDue.value <= now)
        ensures q.tails[i].job in r.dispatch
      {
        if i == 0 {
          assert q.tails[0].job in t.dispatch;
        } else {
          assert t.tails[i - 1] == q.tails[i];
        }
      }
    }
  }

  lemma {:induction false} DrainIsARun(s: State, n: nat)
    requires n == |s.q.tails|
    ensures Exec(s, seq(n, i => ResumeTail(0))) == s.(q := Drained(s.q, s.clock))
    decreases n
  {
    var run := seq(n, i => ResumeTail(0));
    if n > 0 {
      var first, rest := [ResumeTail(0)], seq(n - 1, i => ResumeTail(0));
      assert run == first + rest;
      ExecSplit(s, first, rest);
      assert first[..0] == [];
      DrainIsARun(Next(s, ResumeTail(0)), n - 1);
    }
  }

  /** Memory may be lost at any moment between jobs: the durable rows are untouched, and one poll
      afterwards puts every due job back on the dispatch queue, whatever else is on it. */
  lemma PollRestoresDispatch(s: State, ids: seq<nat>)
    requires s.q.worker == Idle
    requires Selection(s.q, s.clock, ids)
    ensures var lost := Next(s, RestartProcess);
      && lost == s.(q := lost.q) && lost.q.jobs == s.q.jobs && lost.q.dispatch == [] && lost.q.tails == []
      && var polled := Next(lost, PollJobs(ids));
        var run := seq(|polled.q.tails|, i => ResumeTail(0));
        var t := Exec(polled, run);
        && t.q.jobs == s.q.jobs
        && forall j :: j in s.q.jobs && s.q.jobs[j].status == JobStatus.Queued && s.q.jobs[j].runAt <= s.clock ==>
            j in t.q.dispatch
  {
    hide Create, Confirm, Initiate, PaymentStep, SoftStep, RefundStep, DeliverStep, Take, Finish, Reset;
    var lost := Next(s, RestartProcess);
    assert Selection(lost.q, s.clock, ids);
    var polled := Next(lost, PollJobs(ids));
    DrainIsARun(polled, |polled.q.tails|);
    DrainedDispatches(polled.q, s.clock);
    forall j | j in s.q.jobs && Due(s.q, s.clock, j) ensures j in Drained(polled.q, s.clock).dispatch {
      var i :| 0 <= i < |ids| && ids[i] == j;
      assert polled.q.tails[i] == Tail(j, None);
    }
  }
}
