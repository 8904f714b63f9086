/** Concrete runs, step by step, in which a promise that one might expect fails. */
module Scenarios {
  import opened Common
  import opened Payments
  import opened Jobs
  import opened Refunds
  import opened Webhooks
  import opened System
  import opened Invariants
  import opened HandlerSteps
  import opened Runs

  // ---------------------------------------------------------------- steps the scenarios share

  /** One coroutine is about to put a job that is due, and nothing else goes on. */
  predicate Lined(s: State, j: nat, task: Task) {
    && s.q.worker == Idle && s.q.dispatch == [] && |s.q.tails| == 1 && s.q.tails[0].job == j
    && (s.q.tails[0].ifDue.None? || s.q.tails[0].ifDue.value <= s.clock)
    && j in s.q.jobs && s.q.jobs[j].task == task && s.q.jobs[j].status == JobStatus.Queued
  }

  /** The job's handler has just started. */
  predicate Running(q: Queue, j: nat, task: Task) {
    q.worker == Busy(j, Started) && q.dispatch == [] && q.tails == [] && j in q.jobs && q.jobs[j].task == task
  }

  const PICK := [ResumeTail(0), TakeJob]

  lemma PickedUp(max: nat, run: seq<Action>, j: nat, task: Task)
    requires Lined(After(max, run), j, task)
    ensures var s, t := After(max, run), After(max, run + PICK);
      && t == s.(q := t.q) && Running(t.q, j, task)
      && t.q.jobs == s.q.jobs[j := s.q.jobs[j].(status := JobStatus.Running)]
  {
    OneMore(max, run, ResumeTail(0));
    OneMore(max, run + [ResumeTail(0)], TakeJob);
    assert run + PICK == run + [ResumeTail(0)] + [TakeJob];
    hide Exec;
  }

  /** The first payment, of one euro. */
  lemma FirstCreation(max: nat, customer: string, key: string)
    ensures var s := After(max, [CreateRequest(customer, 100.0, None, key)]);
      && s == Init(max).(next := 2, payments := s.payments, calls := map[0 := []], records := s.records, q := s.q)
      && s.payments == map[0 := NewPayment(customer, 100, key, None, 0.0)]
      && Lined(s, 1, ProcessPayment(0)) && s.q.jobs == map[1 := NewJob(ProcessPayment(0), 0.0)]
  {
    OneStep(Init(max), CreateRequest(customer, 100.0, None, key));
    assert !KeyTaken(Init(max), key);
    assert Refunds.Stored(100.0) == 100 by { Refunds.StoredWhole(100); }
  }

  /** Calls `k` and `k + 1` are closer than the backoff between them. */
  predicate TooClose(calls: seq<Payments.Call>, k: nat) {
    k + 1 < |calls| && calls[k + 1].at < calls[k].at + Pow2(k + 1)
  }

  // ---------------------------------------------------------------- backoff, when it is disturbed

  /** Two confirms over HTTP call the processor at the same moment. */
  lemma HttpDoesNotWait(customer: string, key: string)
    ensures var confirm := ConfirmRequest(0, None, 0.9, false);
      var s := After(3, [CreateRequest(customer, 100.0, None, key)] + [confirm] + [confirm]);
      TooClose(CallsOf(s, 0), 0)
  {
    var create, confirm := [CreateRequest(customer, 100.0, None, key)], ConfirmRequest(0, None, 0.9, false);
    FirstCreation(3, customer, key);
    OneMore(3, create, confirm);
    OneMore(3, create + [confirm], confirm);
    hide Exec, Create;
  }

  const SOFT := RunPayment(0.9, NoFault)

  /** The processor answers softly. */
  lemma SoftAnswer(s: State, j: nat, id: nat)
    requires Running(s.q, j, ProcessPayment(id)) && id in s.payments && !Payments.Terminal(s.payments[id].status)
    requires s.payments[id].retryCount + 1 < s.max
    ensures var t := Next(s, SOFT);
      && t == s.(payments := t.payments, calls := t.calls,
          q := s.q.(worker := Busy(j, Phase.Soft(s.payments[id].retryCount + 1))))
      && CallsOf(t, id) == CallsOf(s, id) + [Payments.Call(SoftFailure(false), s.clock, Worker(j))]
      && id in t.payments && !Payments.Terminal(t.payments[id].status)
      && t.payments[id].retryCount == s.payments[id].retryCount + 1
  {}

  /** The handler of the first payment has seen a soft failure. */
  lemma FirstSoftFailure(customer: string, key: string)
    ensures var s := After(3, [CreateRequest(customer, 100.0, None, key)] + PICK + [SOFT]);
      && s.max == 3 && s.clock == 0.0 && s.next == 2 && s.events == map[]
      && s.q == s.q.(dispatch := [], tails := [], worker := Busy(1, Phase.Soft(1)))
      && s.q.jobs == map[1 := NewJob(ProcessPayment(0), 0.0).(status := JobStatus.Running)]
      && CallsOf(s, 0) == [Payments.Call(SoftFailure(false), 0.0, Worker(1))]
      && 0 in s.payments && !Payments.Terminal(s.payments[0].status) && s.payments[0].retryCount == 1
  {
    var create := [CreateRequest(customer, 100.0, None, key)];
    FirstCreation(3, customer, key);
    PickedUp(3, create, 1, ProcessPayment(0));
    OneMore(3, create + PICK, SOFT);
    hide Exec, Next;
    SoftAnswer(After(3, create + PICK), 1, 0);
  }

  /** A handler dies instead of scheduling a retry; its job is queued again at once. */
  lemma DiesAndRequeues(s: State, j: nat)
    requires s.q.worker.Busy? && s.q.worker.job == j && s.q.worker.phase.Soft? && s.q.dispatch == [] && s.q.tails == []
    requires j in s.q.jobs && s.q.jobs[j].task.ProcessPayment? && s.q.jobs[j].attempts + 1 < s.q.jobs[j].maxAttempts
    ensures var t := Next(Next(s, RunSoft(0.0, FaultBefore)), FinishJob);
      t == s.(q := t.q) && Lined(t, j, s.q.jobs[j].task)
  {
    hide ScheduleRetry;
  }

  /** A payment's job that dies after a soft failure calls again at the same moment. */
  lemma RerunDoesNotWait(customer: string, key: string)
    ensures var s := After(3, [CreateRequest(customer, 100.0, None, key)] + PICK + [SOFT]
                              + [RunSoft(0.0, FaultBefore)] + [FinishJob] + PICK + [SOFT]);
      TooClose(CallsOf(s, 0), 0)
  {
    var first := [CreateRequest(customer, 100.0, None, key)] + PICK + [SOFT];
    var dies := RunSoft(0.0, FaultBefore);
    FirstSoftFailure(customer, key);
    var s := After(3, first);
    OneMore(3, first, dies);
    OneMore(3, first + [dies], FinishJob);
    var second := first + [dies] + [FinishJob];
    OneMore(3, second + PICK, SOFT);
    assert DEFAULT_MAX_ATTEMPTS == 3;
    hide Exec, Next;
    DiesAndRequeues(s, 1);
    PickedUp(3, second, 1, ProcessPayment(0));
    SoftAnswer(After(3, second + PICK), 1, 0);
  }

  /** A handler schedules the next attempt and is done. */
  lemma SchedulesAndEnds(s: State, j: nat, id: nat, n: nat)
    requires s.q.worker == Busy(j, Phase.Soft(n)) && j in s.q.jobs && s.q.jobs[j].task == ProcessPayment(id)
    requires s.next !in s.q.jobs
    ensures var t := Next(Next(s, RunSoft(0.0, NoFault)), FinishJob);
      && t == s.(next := s.next + 1, q := t.q) && t.q.worker == Idle
      && s.next in t.q.jobs && t.q.jobs[s.next] == NewJob(RetryPayment(id), NextRetryAt(s.clock, n, 0.0))
  {
    hide NextRetryAt, Create, Confirm, Initiate, PaymentStep, RefundStep, DeliverStep;
  }

  /** The retry of the first payment waits in the job table; the processor was called just now. */
  lemma RetryWaits(customer: string, key: string)
    ensures var s := After(3, [CreateRequest(customer, 100.0, None, key)] + PICK + [SOFT]
                              + [RunSoft(0.0, NoFault)] + [FinishJob]);
      && s.clock == 0.0 && s.q.worker == Idle && CallsOf(s, 0) == [Payments.Call(SoftFailure(false), 0.0, Worker(1))]
      && 2 in s.q.jobs && s.q.jobs[2].task == RetryPayment(0) && s.q.jobs[2].status == JobStatus.Queued
  {
    var first := [CreateRequest(customer, 100.0, None, key)] + PICK + [SOFT];
    FirstSoftFailure(customer, key);
    OneMore(3, first, RunSoft(0.0, NoFault));
    OneMore(3, first + [RunSoft(0.0, NoFault)], FinishJob);
    hide Exec, Next, NextRetryAt;
    SchedulesAndEnds(After(3, first), 1, 0, 1);
  }

  // ---------------------------------------------------------------- a POST that no row counts

  const PAID := ConfirmRequest(0, None, 0.0, false)

  /** Confirmed over HTTP. */
  lemma FirstPaid(customer: string, key: string)
    ensures var s := After(3, [CreateRequest(customer, 100.0, None, key)] + [PAID]);
      && s == Init(3).(next := 2, payments := s.payments, calls := s.calls, records := s.records, q := s.q)
      && s.payments.Keys == {0} && s.payments[0].customer == customer
      && s.payments[0].amount == 100 && s.payments[0].status == Success
      && s.q.jobs == map[1 := NewJob(ProcessPayment(0), 0.0)] && s.q.worker == Idle
  {
    FirstCreation(3, customer, key);
    OneMore(3, [CreateRequest(customer, 100.0, None, key)], PAID);
    hide Exec, Create, PaymentStep, SoftStep, RefundStep, DeliverStep, Initiate;
  }

  /** An endpoint registers, and the process loses its memory. */
  lemma ListensAndForgets(s: State, customer: string)
    requires s.q.worker == Idle
    ensures Next(Next(s, RegisterEndpoint(customer)), RestartProcess) ==
      s.(next := s.next + 1, endpoints := s.endpoints[s.next := Endpoint(customer, true)],
         q := s.q.(dispatch := [], tails := []))
  {
    hide Create, Confirm, Initiate, PaymentStep, SoftStep, RefundStep, DeliverStep;
  }

  /** A paid payment whose job was forgotten with the process's memory, and an endpoint that listens. */
  lemma PaidAndListening(customer: string, key: string)
    ensures var s := After(3, [CreateRequest(customer, 100.0, None, key)] + [PAID]
                              + [RegisterEndpoint(customer)] + [RestartProcess]);
      && s.clock == 0.0 && s.next == 3 && s.refunds == map[] && s.events == map[] && s.posts == map[]
      && s.payments.Keys == {0} && s.payments[0].customer == customer
      && s.payments[0].amount == 100 && s.payments[0].status == Success
      && s.endpoints == map[2 := Endpoint(customer, true)]
      && s.q.jobs == map[1 := NewJob(ProcessPayment(0), 0.0)]
      && s.q == s.q.(dispatch := [], tails := [], worker := Idle)
  {
    var paid := [CreateRequest(customer, 100.0, None, key)] + [PAID];
    OneMore(3, paid, RegisterEndpoint(customer));
    OneMore(3, paid + [RegisterEndpoint(customer)], RestartProcess);
    hide Exec, Next;
    FirstPaid(customer, key);
    ListensAndForgets(After(3, paid), customer);
  }

  /** A full refund of it. */
  lemma RefundRequested(s: State, key: string)
    requires s.next == 3 && s.refunds == map[] && s.q.jobs == map[1 := NewJob(ProcessPayment(0), 0.0)]
    requires 0 in s.payments && s.payments[0].amount == 100 && s.payments[0].status == Success
    requires s.q == s.q.(dispatch := [], tails := [], worker := Idle)
    ensures var t := Next(s, RefundRequest(0, None, key));
      && t == s.(next := 5, refunds := map[3 := Refund(0, 100, RefundStatus.Pending, key)], q := t.q)
      && Lined(t, 4, ProcessRefund(3)) && (forall j :: j in t.q.jobs ==> j <= 4)
  {
    SumExtend(HeldPart(s.refunds, 0), 0, 3);
    assert Remaining(s, 0) == 100;
    assert Refunds.Stored(100 as real) == 100 by { Refunds.StoredWhole(100); }
    assert forall id :: !RefundKey(s, key, id);
  }

  const TELL := RunRefund(0.0, [2], NoCut)

  lemma OneListens(s: State, customer: string)
    requires s.endpoints == map[2 := Endpoint(customer, true)]
    ensures Audience(s, customer, [2])
  {}

  lemma PaysOut(s: State, id: nat, ids: seq<nat>)
    requires id in s.refunds && s.refunds[id].status == RefundStatus.Pending && s.refunds[id].payment in s.payments
    requires Audience(s, s.payments[s.refunds[id].payment].customer, ids)
    ensures RefundRun(s, id, 0.0, ids, NoCut) == Enters(Complete(s, id, ids), Returned)
  {
    hide Audience, Complete, Enters;
  }

  /** Its handler completes it and tells the one endpoint. */
  lemma RunsRefund(s: State, id: nat, ids: seq<nat>)
    requires Current(s) == Some(ProcessRefund(id)) && id in s.refunds
    ensures Next(s, RunRefund(0.0, ids, NoCut)) == RefundRun(s, id, 0.0, ids, NoCut)
  {
    hide RefundRun, PaymentStep, SoftStep, DeliverStep, Create, Confirm, Initiate;
  }

  lemma RefundTold(s: State, customer: string, key: string)
    requires s.refunds == map[3 := Refund(0, 100, RefundStatus.Pending, key)] && Running(s.q, 4, ProcessRefund(3))
    requires 0 in s.payments && s.payments[0].customer == customer && s.endpoints == map[2 := Endpoint(customer, true)]
    ensures Next(s, TELL) == Enters(Complete(s, 3, [2]), Returned)
  {
    hide Audience, Complete, Enters, RefundRun, Next;
    OneListens(s, customer);
    PaysOut(s, 3, [2]);
    RunsRefund(s, 3, [2]);
  }

  lemma OneInserted(q: Queue, now: real)
    requires q.tails == []
    ensures var r := Insert(q, FanoutRows(5, 1, 1, now), FanoutTails(5, 1, 1, now));
      && r.jobs == q.jobs[6 := NewJob(DeliverWebhook(5), now)] && r.tails == [Tail(6, Some(now))]
      && r.dispatch == q.dispatch && r.worker == q.worker
  {
    FanoutShape(5, 1, 1, now);
    hide FanoutRows, FanoutTails;
  }

  lemma OneCommitted(s: State)
    requires 3 in s.refunds && s.events == map[] && s.posts == map[]
    ensures var t := Commit(s, 5, 3, [2]);
      && t == s.(refunds := t.refunds, events := t.events, posts := t.posts)
      && t.events == map[5 := NewEvent(2, 3)] && t.posts == map[5 := []]
  {
    EventsShape(5, 3, [2]);
    hide FanoutEvents;
    assert FanoutEvents(5, 3, [2]) == map[5 := NewEvent(2, 3)];
    assert Commit(s, 5, 3, [2]).posts.Keys == {5};
  }

  lemma OneTold(s: State)
    requires s.next == 5 && 3 in s.refunds && s.events == map[] && s.posts == map[]
    requires s.q.dispatch == [] && s.q.tails == []
    ensures var t := Complete(s, 3, [2]);
      && t.events == map[5 := NewEvent(2, 3)] && t.posts == map[5 := []]
      && t.endpoints == s.endpoints && t.clock == s.clock
      && t.q.jobs == s.q.jobs[6 := NewJob(DeliverWebhook(5), s.clock)]
      && t.q.dispatch == [] && t.q.tails == [Tail(6, Some(s.clock))] && t.q.worker == s.q.worker
  {
    OneInserted(s.q, s.clock);
    hide FanoutRows, FanoutTails, Insert, Commit;
    OneCommitted(FanoutJobs(s, 1, 1));
  }

  lemma EndsQuietly(s: State, j: nat)
    requires s.q.worker == Busy(j, Started) && j in s.q.jobs
    ensures var t := Next(Enters(s, Returned), FinishJob);
      && t == s.(q := t.q) && t.q.worker == Idle && t.q.dispatch == s.q.dispatch && t.q.tails == s.q.tails
      && t.q.jobs == s.q.jobs[j := s.q.jobs[j].(status := JobStatus.Completed, lastError := None)]
  {}

  /** ... and the worker is free for the delivery. */
  lemma RefundAnnounced(s: State, customer: string, key: string)
    requires s.next == 5 && s.refunds == map[3 := Refund(0, 100, RefundStatus.Pending, key)]
    requires Running(s.q, 4, ProcessRefund(3))
    requires 0 in s.payments && s.payments[0].customer == customer && s.endpoints == map[2 := Endpoint(customer, true)]
    requires s.events == map[] && s.posts == map[] && (forall j :: j in s.q.jobs ==> j <= 4)
    ensures var t := Next(Next(s, TELL), FinishJob);
      && t.events == map[5 := NewEvent(2, 3)] && t.posts == map[5 := []] && t.endpoints == s.endpoints
      && Lined(t, 6, DeliverWebhook(5))
  {
    hide Next, Complete, Enters;
    RefundTold(s, customer, key);
    OneTold(s);
    EndsQuietly(Complete(s, 3, [2]), 4);
  }

  const LOST := RunDelivery(true, 0.0, 0.0, CutAfterPost)

  lemma PostLost(s: State, customer: string)
    requires s.events == map[5 := NewEvent(2, 3)] && s.posts == map[5 := []]
    requires s.endpoints == map[2 := Endpoint(customer, true)]
    requires Running(s.q, 6, DeliverWebhook(5))
    ensures var t := Next(s, LOST); t.events == s.events && PostsOf(t, 5) == [Post(true, false, s.clock)]
  {
    hide Record;
  }

  /** The refund has been announced, and its delivery is next. */
  lemma Announced(customer: string, key: string, asked: seq<Action>)
    requires asked == [CreateRequest(customer, 100.0, None, key)] + [PAID]
                      + [RegisterEndpoint(customer)] + [RestartProcess] + [RefundRequest(0, None, key)]
    ensures var s := After(3, asked + PICK + [TELL] + [FinishJob]);
      && s.events == map[5 := NewEvent(2, 3)] && s.posts == map[5 := []]
      && s.endpoints == map[2 := Endpoint(customer, true)]
      && Lined(s, 6, DeliverWebhook(5))
  {
    var paid := asked[..4];
    assert asked == paid + [RefundRequest(0, None, key)];
    assert paid == [CreateRequest(customer, 100.0, None, key)] + [PAID]
                   + [RegisterEndpoint(customer)] + [RestartProcess];
    PaidAndListening(customer, key);
    OneMore(3, paid, RefundRequest(0, None, key));
    OneMore(3, asked + PICK, TELL);
    OneMore(3, asked + PICK + [TELL], FinishJob);
    hide Exec, Next, Lined;
    RefundRequested(After(3, paid), key);
    PickedUp(3, asked, 4, ProcessRefund(3));
    RefundAnnounced(After(3, asked + PICK), customer, key);
  }

  /** The handler dies between a successful POST and its commit: the row counts no attempt, and the
      wire has seen one. */
  lemma LostPostIsUncounted(customer: string, key: string)
    ensures var s := After(3, [CreateRequest(customer, 100.0, None, key)] + [PAID]
                              + [RegisterEndpoint(customer)] + [RestartProcess] + [RefundRequest(0, None, key)]
                              + PICK + [TELL] + [FinishJob] + PICK + [LOST]);
      5 in s.events && s.events[5].attempts == 0 && PostsOf(s, 5) == [Post(true, false, s.clock)]
  {
    var asked := [CreateRequest(customer, 100.0, None, key)] + [PAID]
                 + [RegisterEndpoint(customer)] + [RestartProcess] + [RefundRequest(0, None, key)];
    var told := asked + PICK + [TELL] + [FinishJob];
    Announced(customer, key, asked);
    OneMore(3, told + PICK, LOST);
    hide Exec, Next;
    PickedUp(3, told, 6, DeliverWebhook(5));
    PostLost(After(3, told + PICK), customer);
  }
}
