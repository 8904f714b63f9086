/** What each step leaves alone: the tables it does not write, and the handler of any other job. */
module Frames {
  import opened Common
  import opened Payments
  import opened Jobs
  import opened Refunds
  import opened Webhooks
  import opened System

  /** A handler is under way. */
  predicate UnderWay(w: Worker) {
    w.Busy? && (w.phase == Started || w.phase.Soft?)
  }

  /** The worker stays where it is, or its handler gets on with the same job. */
  predicate Moves(w: Worker, w': Worker) {
    w' == w || (UnderWay(w) && w'.Busy? && w'.job == w.job && w'.phase != Started)
  }

  /** ... and comes to its end. */
  predicate Ends(w: Worker, w': Worker) {
    w' == w || (UnderWay(w) && w'.Busy? && w'.job == w.job && w'.phase != Started && !w'.phase.Soft?)
  }

  lemma EntersMoves(s: State, t: State, phase: Phase)
    requires UnderWay(s.q.worker) && t.q.worker == s.q.worker && phase != Started
    ensures Moves(s.q.worker, Enters(t, phase).q.worker)
    ensures !phase.Soft? ==> Ends(s.q.worker, Enters(t, phase).q.worker)
    ensures Enters(t, phase) == t.(q := Enters(t, phase).q)
  {}

  // ---------------------------------------------------------------- payment handlers

  /** Only payments and their calls are written. */
  predicate PaymentsOnly(s: State, t: State) {
    t == s.(payments := t.payments, calls := t.calls, next := t.next, q := t.q) && Moves(s.q.worker, t.q.worker)
  }

  lemma StaysPut(w: Worker)
    ensures Moves(w, w) && Ends(w, w)
  {}

  lemma PhaseIsLater(s: State, id: nat, outcome: Outcome, fault: Fault, missing: Phase)
    requires missing != Started
    ensures ConfirmPhase(ConfirmResultOf(s, id, outcome), fault, missing) != Started
  {}

  lemma MarkIsLater(s: State, id: nat, fault: Fault)
    ensures MarkPhase(s, id, fault) != Started
  {}

  lemma ScheduleFrame(s: State, id: nat, count: nat, jitter: real)
    requires UnderWay(s.q.worker)
    ensures var t := ScheduleRetry(s, id, count, jitter);
      t == s.(next := t.next, q := t.q) && Moves(s.q.worker, t.q.worker)
  {
    hide NextRetryAt;
  }

  lemma ConfirmFrame(s: State, id: nat, metadata: Option<string>, outcome: Outcome, source: Caller)
    ensures var t := Confirm(s, id, metadata, outcome, source); t == s.(payments := t.payments, calls := t.calls)
  {
    hide Settled, CallsOf;
  }

  lemma MarkFrame(s: State, id: nat)
    ensures var t := MarkExhausted(s, id); t == s.(payments := t.payments)
  {
    hide Exhausted;
  }

  lemma EntersPayments(s: State, t: State, phase: Phase)
    requires t == s.(payments := t.payments, calls := t.calls) && UnderWay(s.q.worker) && phase != Started
    ensures PaymentsOnly(s, Enters(t, phase)) && Enters(t, phase).calls == t.calls
  {}

  lemma PaymentFrame(s: State, draw: real, fault: Fault)
    ensures PaymentsOnly(s, PaymentStep(s, draw, fault))
  {
    hide PaymentsOnly, Enters, Confirm, MarkExhausted, ConfirmPhase, ConfirmResultOf, MarkPhase, Attempt;
    match Current(s)
    case Some(ProcessPayment(id)) =>
      PhaseIsLater(s, id, Attempt(draw, fault), fault, Returned);
      var t := Confirm(s, id, None, Attempt(draw, fault), Worker(s.q.worker.job));
      ConfirmFrame(s, id, None, Attempt(draw, fault), Worker(s.q.worker.job));
      EntersPayments(s, t, ConfirmPhase(ConfirmResultOf(s, id, Attempt(draw, fault)), fault, Returned));
      EntersPayments(s, s, Raised(Aborted));
    case Some(RetryPayment(id)) =>
      PhaseIsLater(s, id, Attempt(draw, fault), fault, Raised(RowMissing));
      MarkIsLater(s, id, fault);
      var t := Confirm(s, id, None, Attempt(draw, fault), Worker(s.q.worker.job));
      ConfirmFrame(s, id, None, Attempt(draw, fault), Worker(s.q.worker.job));
      MarkFrame(s, id);
      EntersPayments(s, t, ConfirmPhase(ConfirmResultOf(s, id, Attempt(draw, fault)), fault, Raised(RowMissing)));
      EntersPayments(s, MarkExhausted(s, id), MarkPhase(s, id, fault));
      EntersPayments(s, s, Raised(Aborted));
    case _ => NothingMoves(s);
  }

  lemma NothingMoves(s: State)
    ensures PaymentsOnly(s, s)
  {}

  lemma SchedulePayments(s: State, id: nat, count: nat, jitter: real)
    requires UnderWay(s.q.worker)
    ensures var t := ScheduleRetry(s, id, count, jitter); PaymentsOnly(s, t) && t.calls == s.calls
  {
    hide ScheduleRetry, Moves;
    ScheduleFrame(s, id, count, jitter);
  }

  /** ... and of these only the payments, after a soft failure. */
  lemma SoftFrame(s: State, jitter: real, fault: Fault)
    ensures var t := SoftStep(s, jitter, fault); PaymentsOnly(s, t) && t.calls == s.calls
  {
    hide PaymentsOnly, Enters, ScheduleRetry, MarkPhase, MarkExhausted;
    NothingMoves(s);
    match SoftTask(s)
    case Some((ProcessPayment(id), n)) =>
      EntersPayments(s, s, Raised(Aborted));
      SchedulePayments(s, id, n, jitter);
    case Some((RetryPayment(id), n)) =>
      EntersPayments(s, s, Raised(Aborted));
      SchedulePayments(s, id, n, jitter);
      MarkIsLater(s, id, fault);
      MarkFrame(s, id);
      EntersPayments(s, MarkExhausted(s, id), MarkPhase(s, id, fault));
    case _ =>
  }

  // ---------------------------------------------------------------- refund and delivery handlers

  predicate RefundsOnly(s: State, t: State) {
    && t == s.(refunds := t.refunds, events := t.events, posts := t.posts, next := t.next, q := t.q)
    && Moves(s.q.worker, t.q.worker) && Ends(s.q.worker, t.q.worker)
  }

  lemma CompleteFrame(s: State, id: nat, ids: seq<nat>, cut: Cut)
    requires UnderWay(s.q.worker) && id in s.refunds
    ensures RefundsOnly(s, CompleteRun(s, id, ids, cut))
  {
    hide Enters, FanoutRows, FanoutTails, FanoutEvents, Moves, Ends;
    StaysPut(s.q.worker);
    if !cut.CutDuring? {
      EntersMoves(s, Complete(s, id, ids), Leave(cut));
    } else if cut.enqueued <= |ids| {
      EntersMoves(s, FanoutJobs(s, |ids|, cut.enqueued), Raised(Aborted));
    }
  }

  lemma RefundRunFrame(s: State, id: nat, draw: real, ids: seq<nat>, cut: Cut)
    requires UnderWay(s.q.worker) && id in s.refunds
    ensures RefundsOnly(s, RefundRun(s, id, draw, ids, cut))
  {
    hide Enters, CompleteRun, Audience, Moves, Ends;
    StaysPut(s.q.worker);
    EntersMoves(s, s, Leave(cut));
    EntersMoves(s, s, Raised(InvalidTransition));
    EntersMoves(s, s, Raised(Aborted));
    EntersMoves(s, Fail(s, id), Leave(cut));
    CompleteFrame(s, id, [], cut);
    CompleteFrame(s, id, ids, cut);
  }

  lemma RefundFrame(s: State, draw: real, ids: seq<nat>, cut: Cut)
    ensures RefundsOnly(s, RefundStep(s, draw, ids, cut))
  {
    hide Enters, RefundRun, Moves, Ends;
    StaysPut(s.q.worker);
    match Current(s)
    case Some(ProcessRefund(id)) =>
      EntersMoves(s, s, Raised(RowMissing));
      if id in s.refunds { RefundRunFrame(s, id, draw, ids, cut); }
    case _ =>
  }

  predicate EventsOnly(s: State, t: State) {
    && t == s.(clock := t.clock, events := t.events, posts := t.posts, next := t.next, q := t.q)
    && Moves(s.q.worker, t.q.worker) && Ends(s.q.worker, t.q.worker)
  }

  lemma EnqueueKeepsWorker(q: Queue, id: nat, task: Task, runAt: real)
    ensures Enqueue(q, id, task, runAt).worker == q.worker
  {}

  lemma RecordFrame(s: State, id: nat, e: Event)
    requires UnderWay(s.q.worker) && id in s.events
    ensures var t := Record(s, id, e);
      && t == s.(events := s.events[id := e], next := t.next, q := t.q)
      && Moves(s.q.worker, t.q.worker) && Ends(s.q.worker, t.q.worker)
  {
    hide Enter, Enqueue, Moves, Ends;
    var s1 := s.(events := s.events[id := e]);
    if e.status == EventStatus.Failed && e.nextRetryAt.Some? {
      var q := Enqueue(s.q, s.next, DeliverWebhook(id), e.nextRetryAt.value);
      EnqueueKeepsWorker(s.q, s.next, DeliverWebhook(id), e.nextRetryAt.value);
      EntersMoves(s, s1.(next := s.next + 1, q := q), Returned);
    } else {
      EntersMoves(s, s1, Returned);
    }
  }

  lemma DeliverRunFrame(s: State, id: nat, ok: bool, elapsed: real, jitter: real, cut: DeliveryCut)
    requires UnderWay(s.q.worker) && id in s.events
    ensures EventsOnly(s, DeliverRun(s, id, ok, elapsed, jitter, cut))
  {
    hide Enters, Record, PostsOf, Moves, Ends, AfterPost, Undeliverable;
    if s.events[id].endpoint !in s.endpoints || !s.endpoints[s.events[id].endpoint].active {
      RecordFrame(s, id, Undeliverable(s.events[id], s.clock));
    } else if cut == CutAfterPost {
      EntersMoves(s, Sent(s, id, ok, elapsed, false), Raised(Aborted));
    } else {
      RecordFrame(Sent(s, id, ok, elapsed, true), id, AfterPost(s.events[id], ok, jitter, s.clock));
    }
  }

  lemma DeliverFrame(s: State, ok: bool, elapsed: real, jitter: real, cut: DeliveryCut)
    ensures EventsOnly(s, DeliverStep(s, ok, elapsed, jitter, cut))
  {
    hide Enters, DeliverRun, Moves, Ends;
    StaysPut(s.q.worker);
    match Current(s)
    case Some(DeliverWebhook(id)) =>
      EntersMoves(s, s, Raised(Aborted));
      EntersMoves(s, s, Returned);
      if id in s.events { DeliverRunFrame(s, id, ok, elapsed, jitter, cut); }
    case _ =>
  }

  // ---------------------------------------------------------------- everything else

  predicate QueueAction(a: Action) {
    a.OperatorRetry? || a.PollJobs? || a.ResumeTail? || a.RestartProcess? || a.TakeJob? || a.FinishJob?
  }

  predicate OuterAction(a: Action) {
    a.Tick? || a.RegisterEndpoint? || a.DeactivateEndpoint?
  }

  lemma RetryFrame(s: State, a: Action)
    requires a.OperatorRetry?
    ensures var t := Next(s, a); t == s.(q := t.q)
  {
    hide Poll, Resume, Reset, Take, Finish, Restart, Selection,
         Create, Confirm, Initiate, PaymentStep, SoftStep, RefundStep, DeliverStep;
  }

  lemma PutFrame(s: State, a: Action)
    requires a.PollJobs? || a.ResumeTail?
    ensures var t := Next(s, a); t == s.(q := t.q)
  {
    hide Poll, Resume, Reset, Take, Finish, Restart, Selection,
         Create, Confirm, Initiate, PaymentStep, SoftStep, RefundStep, DeliverStep;
  }

  lemma RestartFrame(s: State, a: Action)
    requires a.RestartProcess?
    ensures var t := Next(s, a); t == s.(q := t.q)
  {
    hide Poll, Resume, Reset, Take, Finish, Restart, Selection,
         Create, Confirm, Initiate, PaymentStep, SoftStep, RefundStep, DeliverStep;
  }

  lemma WorkerFrame(s: State, a: Action)
    requires a.TakeJob? || a.FinishJob?
    ensures var t := Next(s, a); t == s.(q := t.q)
  {
    hide Poll, Resume, Reset, Take, Finish, Restart, Selection,
         Create, Confirm, Initiate, PaymentStep, SoftStep, RefundStep, DeliverStep;
  }

  /** Steps of the queue and the worker write no table but that of the jobs. */
  lemma QueueFrame(s: State, a: Action)
    requires QueueAction(a)
    ensures var t := Next(s, a); t == s.(q := t.q)
  {
    hide Next;
    if a.OperatorRetry? { RetryFrame(s, a); }
    else if a.RestartProcess? { RestartFrame(s, a); }
    else if a.PollJobs? || a.ResumeTail? { PutFrame(s, a); }
    else { WorkerFrame(s, a); }
  }

  lemma OuterFrame(s: State, a: Action)
    requires OuterAction(a)
    ensures var t := Next(s, a); t == s.(clock := t.clock, next := t.next, endpoints := t.endpoints)
  {
    match a
    case Tick(_) =>
    case RegisterEndpoint(_) =>
    case DeactivateEndpoint(_) =>
  }

  lemma CreateFrame(s: State, customer: string, cents: real, metadata: Option<string>, key: string)
    ensures var t := Create(s, customer, cents, metadata, key);
      && t == s.(next := t.next, payments := t.payments, calls := t.calls, records := t.records, q := t.q)
      && t.q.worker == s.q.worker
  {
    hide CreateResultOf, NewPayment, Refunds.Stored;
  }

  lemma InitiateFrame(s: State, payment: nat, cents: Option<real>, key: string)
    ensures var t := Initiate(s, payment, cents, key);
      t == s.(next := t.next, refunds := t.refunds, q := t.q) && t.q.worker == s.q.worker
  {
    hide InitiateResultOf, Refunds.Stored, Requested;
  }

  // ---------------------------------------------------------------- the worker

  lemma HandlerMoves(s: State, a: Action)
    requires a.RunPayment? || a.RunSoft? || a.RunRefund? || a.RunDelivery?
    ensures Moves(s.q.worker, Next(s, a).q.worker)
  {
    hide PaymentStep, SoftStep, RefundStep, DeliverStep, Moves;
    StaysPut(s.q.worker);
    match a
    case RunPayment(draw, fault) => PaymentFrame(s, draw, fault);
    case RunSoft(jitter, fault) => SoftFrame(s, jitter, fault);
    case RunRefund(draw, ids, cut) => RefundFrame(s, draw, ids, cut);
    case RunDelivery(ok, elapsed, jitter, cut) => DeliverFrame(s, ok, elapsed, jitter, cut);
  }

  lemma RequestMoves(s: State, a: Action)
    requires a.CreateRequest? || a.ConfirmRequest? || a.RefundRequest?
    ensures Next(s, a).q.worker == s.q.worker
  {
    hide Create, Confirm, Initiate;
    match a
    case CreateRequest(customer, cents, metadata, key) => CreateFrame(s, customer, cents, metadata, key);
    case ConfirmRequest(id, metadata, draw, cut) => ConfirmFrame(s, id, metadata, Classify(draw, cut), Http);
    case RefundRequest(id, cents, key) => InitiateFrame(s, id, cents, key);
  }

  lemma PutMoves(s: State, a: Action)
    requires OuterAction(a) || a.OperatorRetry? || a.PollJobs? || a.ResumeTail? || a.RestartProcess?
    ensures Next(s, a).q.worker == s.q.worker
  {
    hide Create, Confirm, Initiate, PaymentStep, SoftStep, RefundStep, DeliverStep, Take, Finish, Selection, Puts;
  }

  /** Only the consumer gives the worker another job, and only the end of a handler frees it. */
  lemma NextMoves(s: State, a: Action)
    requires !a.TakeJob? && !a.FinishJob?
    ensures Moves(s.q.worker, Next(s, a).q.worker)
  {
    hide Next;
    if a.RunPayment? || a.RunSoft? || a.RunRefund? || a.RunDelivery? { HandlerMoves(s, a); }
    else if a.CreateRequest? || a.ConfirmRequest? || a.RefundRequest? { RequestMoves(s, a); }
    else { PutMoves(s, a); }
  }
}
