/** From every reachable state the clock, the poller, the consumer and handlers that are never cut
    short bring the system to rest: no state is stuck. */
module Rest {
  import opened Common
  import opened Payments
  import opened Jobs
  import opened Refunds
  import opened Webhooks
  import opened System
  import opened Invariants
  import opened Runs
  import opened Frames
  import opened WorkTheorems
  import opened Termination

  /** The machinery at work by itself: no request, no operator, no restart, and no fault in a handler. */
  predicate Smooth(a: Action) {
    match a
    case Tick(_) => true
    case PollJobs(_) => true
    case ResumeTail(_) => true
    case TakeJob => true
    case FinishJob => true
    case RunPayment(_, fault) => fault == NoFault
    case RunSoft(_, fault) => fault == NoFault
    case RunRefund(_, _, cut) => cut == NoCut
    case RunDelivery(_, _, _, cut) => cut == NoDeliveryCut
    case _ => false
  }

  ghost predicate Unattended(run: seq<Action>) {
    forall i :: 0 <= i < |run| ==> Smooth(run[i])
  }

  lemma SmoothIsBackground(run: seq<Action>)
    requires Unattended(run)
    ensures forall i :: 0 <= i < |run| ==> Background(run[i])
  {}

  // ---------------------------------------------------------------- the handler in flight ends

  ghost predicate Ended(q: Queue) {
    q.worker.Busy? && q.worker.job in q.jobs && (q.worker.phase == Returned || q.worker.phase.Raised?)
  }

  ghost predicate HasStarted(s: State) {
    s.q.worker.Busy? && s.q.worker.phase == Started && s.q.worker.job in s.q.jobs
  }

  lemma EntersEnds(s: State, phase: Phase)
    requires s.q.worker.Busy? && s.q.worker.job in s.q.jobs && (phase == Returned || phase.Raised?)
    ensures Ended(Enters(s, phase).q)
  {}

  lemma AnswerEnds(s: State, id: nat, missing: Phase)
    requires HasStarted(s) && (missing == Returned || missing.Raised?)
    ensures Ended(Enters(Confirm(s, id, None, Authorized, Worker(s.q.worker.job)),
                         ConfirmPhase(ConfirmResultOf(s, id, Authorized), NoFault, missing)).q)
  {
    hide Confirm, Enters, Ended;
    ConfirmFrame(s, id, None, Authorized, Worker(s.q.worker.job));
    EntersEnds(Confirm(s, id, None, Authorized, Worker(s.q.worker.job)),
        ConfirmPhase(ConfirmResultOf(s, id, Authorized), NoFault, missing));
  }

  lemma MarkEnds(s: State, id: nat, fault: Fault)
    requires s.q.worker.Busy? && s.q.worker.job in s.q.jobs
    ensures Ended(Enters(MarkExhausted(s, id), MarkPhase(s, id, fault)).q)
  {
    hide MarkExhausted, Enters, Ended;
    MarkFrame(s, id);
    EntersEnds(MarkExhausted(s, id), MarkPhase(s, id, fault));
  }

  lemma PaymentEnds(s: State)
    requires HasStarted(s) && (Current(s).value.ProcessPayment? || Current(s).value.RetryPayment?)
    ensures Ended(PaymentStep(s, 0.0, NoFault).q)
  {
    hide Confirm, MarkExhausted, MarkPhase, Enters, ConfirmPhase, ConfirmResultOf, Ended;
    var id := Current(s).value.payment;
    AnswerEnds(s, id, Returned);
    AnswerEnds(s, id, Raised(RowMissing));
    MarkEnds(s, id, NoFault);
  }

  lemma CompleteEnds(s: State, id: nat, ids: seq<nat>)
    requires HasStarted(s) && id in s.refunds
    ensures Ended(CompleteRun(s, id, ids, NoCut).q)
  {
    hide Enters, FanoutRows, FanoutTails, FanoutEvents, Ended;
    EntersEnds(Complete(s, id, ids), Returned);
  }

  lemma RefundRunEnds(s: State, id: nat, ids: seq<nat>)
    requires HasStarted(s) && id in s.refunds
    requires s.refunds[id].payment in s.payments ==> Audience(s, s.payments[s.refunds[id].payment].customer, ids)
    ensures Ended(RefundRun(s, id, 0.0, ids, NoCut).q)
  {
    hide Enters, CompleteRun, Audience, Ended;
    EntersEnds(s, Returned);
    EntersEnds(s, Raised(InvalidTransition));
    CompleteEnds(s, id, []);
    CompleteEnds(s, id, ids);
  }

  /** The refund is paid out, and whoever listens is told. */
  lemma RefundEnds(s: State) returns (ids: seq<nat>)
    requires HasStarted(s) && Current(s).value.ProcessRefund?
    ensures Ended(RefundStep(s, 0.0, ids, NoCut).q)
  {
    hide RefundRun, Enters, Ended, Audience;
    var id := Current(s).value.refund;
    ids := [];
    EntersEnds(s, Raised(RowMissing));
    if id in s.refunds {
      if s.refunds[id].payment in s.payments { ids := Listeners(s, s.payments[s.refunds[id].payment].customer); }
      RefundRunEnds(s, id, ids);
    }
  }

  lemma RecordEnds(s: State, id: nat, e: Event)
    requires HasStarted(s) && id in s.events && e.status != EventStatus.Failed
    ensures Ended(Record(s, id, e).q)
  {}

  lemma DeliveryEnds(s: State)
    requires HasStarted(s) && Current(s).value.DeliverWebhook?
    ensures Ended(DeliverStep(s, true, 0.0, 0.0, NoDeliveryCut).q)
  {
    hide Enters, Record, Ended;
    var id := Current(s).value.event;
    EntersEnds(s, Returned);
    if id in s.events {
      RecordEnds(s, id, Undeliverable(s.events[id], s.clock));
      RecordEnds(Sent(s, id, true, 0.0, true), id, AfterPost(s.events[id], true, 0.0, s.clock));
    }
  }

  lemma ScheduleEnds(s: State, id: nat, n: nat)
    requires s.q.worker.Busy? && s.q.worker.job in s.q.jobs
    ensures Ended(ScheduleRetry(s, id, n, 0.0).q)
  {
    hide NextRetryAt;
  }

  lemma SoftEnds(s: State)
    requires s.q.worker.Busy? && s.q.worker.phase.Soft? && s.q.worker.job in s.q.jobs
    requires s.q.jobs[s.q.worker.job].task.ProcessPayment? || s.q.jobs[s.q.worker.job].task.RetryPayment?
    ensures Ended(SoftStep(s, 0.0, NoFault).q)
  {
    hide ScheduleRetry, Enters, Ended, MarkExhausted, MarkPhase;
    var (task, n) := SoftTask(s).value;
    ScheduleEnds(s, task.payment, n);
    MarkEnds(s, task.payment, NoFault);
  }

  /** What the invariant says about a handler in flight. */
  lemma InFlightFacts(s: State)
    requires Inv(s) && s.q.worker.Busy?
    ensures s.q.worker.job in s.q.jobs
    ensures s.q.worker.phase.Soft? ==>
        s.q.jobs[s.q.worker.job].task.ProcessPayment? || s.q.jobs[s.q.worker.job].task.RetryPayment?
  {
    hide Rows, LinkOk, IdsOk;
  }

  /** Its next stretch, undisturbed and with good answers, is its last. */
  lemma HandlerEnds(s: State) returns (a: Action)
    requires Inv(s) && s.q.worker.Busy? && !Ended(s.q)
    ensures Smooth(a) && Ended(Next(s, a).q)
  {
    hide Inv, PaymentStep, RefundStep, DeliverStep, SoftStep;
    InFlightFacts(s);
    if s.q.worker.phase.Soft? {
      SoftEnds(s);
      a := RunSoft(0.0, NoFault);
    } else if Current(s).value.ProcessRefund? {
      var ids := RefundEnds(s);
      a := RunRefund(0.0, ids, NoCut);
    } else if Current(s).value.DeliverWebhook? {
      DeliveryEnds(s);
      a := RunDelivery(true, 0.0, 0.0, NoDeliveryCut);
    } else {
      PaymentEnds(s);
      a := RunPayment(0.0, NoFault);
    }
  }

  lemma EndedFinishes(q: Queue, now: real)
    requires Ended(q)
    ensures Finish(q, now).worker == Idle
  {}

  lemma EndUp(s: State) returns (run: seq<Action>)
    requires s.q.worker == Idle || Ended(s.q)
    ensures Unattended(run) && Exec(s, run).q.worker == Idle
  {
    hide Ended, Finish;
    if s.q.worker == Idle {
      run := [];
    } else {
      EndedFinishes(s.q, s.clock);
      OneStep(s, FinishJob);
      run := [FinishJob];
    }
  }

  lemma FinishUp(s: State) returns (run: seq<Action>)
    requires Inv(s)
    ensures Unattended(run) && Exec(s, run).q.worker == Idle
  {
    hide Inv, Ended, Next, Exec;
    if s.q.worker == Idle || Ended(s.q) {
      run := EndUp(s);
    } else {
      var a := HandlerEnds(s);
      OneStep(s, a);
      var more := EndUp(Next(s, a));
      run := [a] + more;
      ExecSplit(s, [a], more);
    }
  }

  // ---------------------------------------------------------------- a queued job is started

  lemma {:induction false} Listed(ids: set<nat>) returns (list: seq<nat>)
    ensures forall i :: i in ids <==> i in list
    ensures forall i, k :: 0 <= i < k < |list| ==> list[i] != list[k]
  {
    if ids == {} {
      list := [];
    } else {
      var i :| i in ids;
      var rest := Listed(ids - {i});
      list := rest + [i];
    }
  }

  /** The customer's active endpoints always make a list. */
  lemma Listeners(s: State, customer: string) returns (ids: seq<nat>)
    ensures Audience(s, customer, ids)
  {
    var all := set e | e in s.endpoints && Listening(s, customer, e);
    ids := Listed(all);
    forall i | 0 <= i < |ids| ensures Listening(s, customer, ids[i]) { assert ids[i] in all; }
  }

  /** A poll always has an answer. */
  lemma Selected(q: Queue, now: real) returns (ids: seq<nat>)
    ensures Selection(q, now, ids)
  {
    var due := set j | j in q.jobs && Due(q, now, j);
    ids := Listed(due);
    forall i | 0 <= i < |ids| ensures Due(q, now, ids[i]) { assert ids[i] in due; }
  }

  /** Taking ids off the dispatch queue reaches the handler of a queued job that is on it, or
      starts another one first. */
  lemma {:induction false} TakesStart(s: State, i: nat) returns (run: seq<Action>)
    requires s.q.worker == Idle && i < |s.q.dispatch|
    requires s.q.dispatch[i] in s.q.jobs && s.q.jobs[s.q.dispatch[i]].status == JobStatus.Queued
    ensures Unattended(run) && StartsIn(s, run) >= 1
    decreases i
  {
    OneStep(s, TakeJob);
    assert [TakeJob][..0] == [];
    if Take(s.q).worker != Idle {
      run := [TakeJob];
      assert StartsIn(s, []) == 0 && Exec(s, []) == s;
    } else {
      var more := TakesStart(Next(s, TakeJob), i - 1);
      run := [TakeJob] + more;
      StartsSplit(s, [TakeJob], more);
    }
  }

  lemma {:induction false} StartsSplit(s: State, first: seq<Action>, more: seq<Action>)
    ensures StartsIn(s, first + more) >= StartsIn(Exec(s, first), more)
    decreases |more|
  {
    hide Next, Starts;
    if more != [] {
      var n := |more| - 1;
      assert (first + more)[..|first + more| - 1] == first + more[..n];
      StartsSplit(s, first, more[..n]);
      ExecSplit(s, first, more[..n]);
    }
  }

  /** Time passes, the poller finds the job, its put goes through, and the consumer gets to it. */
  lemma StartOne(s: State, j: nat) returns (run: seq<Action>)
    requires s.q.worker == Idle && j in s.q.jobs && s.q.jobs[j].status == JobStatus.Queued
    ensures Unattended(run) && StartsIn(s, run) >= 1
  {
    hide Starts, Create, Confirm, Initiate, PaymentStep, SoftStep, RefundStep, DeliverStep, Exec;
    var to := if s.q.jobs[j].runAt > s.clock then s.q.jobs[j].runAt else s.clock;
    var t := s.(clock := to);
    var ids := Selected(t.q, to);
    var u := t.(q := Poll(t.q, ids));
    var lead := [Tick(to)] + [PollJobs(ids)];
    assert Exec(s, lead) == u by {
      OneStep(s, Tick(to));
      OneStep(t, PollJobs(ids));
      ExecSplit(s, [Tick(to)], [PollJobs(ids)]);
    }
    assert Due(t.q, to, j);
    var i :| 0 <= i < |ids| && ids[i] == j;
    assert u.q.tails[|t.q.tails| + i] == Tail(j, None);
    var more := DrainedStart(u, j);
    run := lead + more;
    StartsSplit(s, lead, more);
  }

  lemma DrainedStart(s: State, j: nat) returns (run: seq<Action>)
    requires s.q.worker == Idle && j in s.q.jobs && s.q.jobs[j].status == JobStatus.Queued
    requires exists i :: 0 <= i < |s.q.tails| && s.q.tails[i] == Tail(j, None)
    ensures Unattended(run) && StartsIn(s, run) >= 1
  {
    hide Starts, Next;
    var n := |s.q.tails|;
    var drain := seq(n, i => ResumeTail(0));
    DrainIsARun(s, n);
    DrainedDispatches(s.q, s.clock);
    var t := s.(q := Drained(s.q, s.clock));
    var i :| 0 <= i < |t.q.dispatch| && t.q.dispatch[i] == j;
    var more := TakesStart(t, i);
    run := drain + more;
    StartsSplit(s, drain, more);
  }

  // ---------------------------------------------------------------- stale ids are cleared away

  ghost predicate AllDone(q: Queue) {
    q.worker == Idle && forall j :: j in q.jobs ==>
        q.jobs[j].status == JobStatus.Completed || q.jobs[j].status == JobStatus.Dead
  }

  lemma NoneQueued(s: State)
    requires Inv(s) && s.q.worker == Idle && forall j :: j in s.q.jobs ==> s.q.jobs[j].status != JobStatus.Queued
    ensures AllDone(s.q)
  {
    hide Rows, IdsOk, LinkOk, BackoffOk;
    forall j | j in s.q.jobs ensures s.q.jobs[j].status == JobStatus.Completed || s.q.jobs[j].status == JobStatus.Dead {
      RunningIsInFlight(s.q, s.clock, j);
    }
  }

  lemma {:induction false} TakesClear(s: State) returns (run: seq<Action>)
    requires AllDone(s.q) && s.q.tails == []
    ensures Unattended(run) && Exec(s, run) == s.(q := s.q.(dispatch := []))
    decreases |s.q.dispatch|
  {
    if s.q.dispatch == [] {
      run := [];
    } else {
      var t := Next(s, TakeJob);
      assert t == s.(q := s.q.(dispatch := s.q.dispatch[1..]));
      var more := TakesClear(t);
      run := [TakeJob] + more;
      OneStep(s, TakeJob);
      ExecSplit(s, [TakeJob], more);
    }
  }

  lemma ClearUp(s: State) returns (run: seq<Action>)
    requires AllDone(s.q)
    ensures Unattended(run) && AtRest(Exec(s, run))
  {
    hide Next;
    var n := |s.q.tails|;
    var drain := seq(n, i => ResumeTail(0));
    DrainIsARun(s, n);
    DrainedDispatches(s.q, s.clock);
    var t := s.(q := Drained(s.q, s.clock));
    hide Drained, Exec;
    var more := TakesClear(t);
    ExecSplit(s, drain, more);
    run := drain + more;
    NothingIsDue(t.q);
  }

  lemma NothingIsDue(q: Queue)
    requires AllDone(q)
    ensures forall now :: Selection(q.(dispatch := []), now, [])
  {}

  // ---------------------------------------------------------------- rest is always within reach

  lemma {:induction false} WayToRest(s: State) returns (run: seq<Action>)
    requires Inv(s)
    ensures Unattended(run) && AtRest(Exec(s, run))
    decreases Measure(s)
  {
    hide Inv, Measure, Next, AtRest, Exec, Smooth;
    run := FinishUp(s);
    var t := Exec(s, run);
    SmoothIsBackground(run);
    StartsArePaid(s, run);
    ExecKeeps(s, run);
    var more: seq<Action>;
    if j :| j in t.q.jobs && t.q.jobs[j].status == JobStatus.Queued {
      var first := StartOne(t, j);
      SmoothIsBackground(first);
      StartsArePaid(t, first);
      ExecKeeps(t, first);
      MeasureIsNatural(Exec(t, first));
      var rest := WayToRest(Exec(t, first));
      ExecSplit(t, first, rest);
      more := first + rest;
    } else {
      NoneQueued(t);
      more := ClearUp(t);
    }
    ExecSplit(s, run, more);
    run := run + more;
  }

  /** However a run has gone, there is a way on that ends at rest, on which nobody asks for
      anything, nothing restarts, and every handler runs to its end. */
  lemma RestIsReachable(max: nat, run: seq<Action>)
    requires max >= 1
    ensures exists more :: Unattended(more) && AtRest(After(max, run + more))
  {
    hide Inv, AtRest, Exec, Smooth;
    Reached(max, run);
    var more := WayToRest(After(max, run));
    ExecSplit(Init(max), run, more);
    assert Unattended(more) && AtRest(After(max, run + more));
  }
}
