/** How many POSTs of one event can go out on the wire, recorded or not. */
module PostBounds {
  import opened Common
  import opened Payments
  import opened Jobs
  import opened Refunds
  import opened Webhooks
  import opened System
  import opened Invariants
  import opened HandlerSteps
  import opened Runs
  import opened Frames
  import opened WorkTheorems
  import opened Termination

  // ---------------------------------------------------------------- what each step does to an event's POSTs

  /** Its row's count and its POSTs stay as they are, or it is new and has neither. */
  ghost predicate Untold(s: State, t: State, e: nat) {
    && PostsOf(t, e) == PostsOf(s, e)
    && (e in t.events && e in s.events ==> t.events[e].attempts == s.events[e].attempts)
    && (e in t.events && e !in s.events ==> PostsOf(s, e) == [] && t.events[e].attempts == 0)
    && (e in s.events ==> e in t.events)
  }

  lemma SameIsUntold(s: State, t: State, e: nat)
    requires t.events == s.events && t.posts == s.posts
    ensures Untold(s, t, e)
  {}

  ghost predicate Tidy(s: State) {
    && s.posts.Keys == s.events.Keys
    && (forall e :: e in s.events ==> e < s.next)
    && (forall j :: j in s.q.jobs ==> j < s.next)
  }

  lemma CompleteUntold(s: State, t: State, id: nat, ids: seq<nat>, e: nat)
    requires Tidy(s) && id in s.refunds && t.events == Complete(s, id, ids).events
    requires t.posts == Complete(s, id, ids).posts
    ensures Untold(s, t, e)
  {
    EventsShape(s.next, id, ids);
    hide FanoutEvents, FanoutRows, FanoutTails, Insert;
  }

  lemma EntersKeepsPosts(s: State, phase: Phase)
    ensures Enters(s, phase).events == s.events && Enters(s, phase).posts == s.posts
  {}

  lemma CompleteRunUntold(s: State, id: nat, ids: seq<nat>, cut: Cut, e: nat)
    requires Tidy(s) && id in s.refunds
    ensures Untold(s, CompleteRun(s, id, ids, cut), e)
  {
    hide Tidy, Untold, Enters, Complete;
    var t := CompleteRun(s, id, ids, cut);
    if !cut.CutDuring? {
      EntersKeepsPosts(Complete(s, id, ids), Leave(cut));
      CompleteUntold(s, t, id, ids, e);
    } else {
      if cut.enqueued <= |ids| { EntersKeepsPosts(FanoutJobs(s, |ids|, cut.enqueued), Raised(Aborted)); }
      SameIsUntold(s, t, e);
    }
  }

  lemma RefundRunUntold(s: State, id: nat, draw: real, ids: seq<nat>, cut: Cut, e: nat)
    requires Tidy(s) && id in s.refunds
    ensures Untold(s, RefundRun(s, id, draw, ids, cut), e)
  {
    hide Tidy, Untold, Enters, CompleteRun, Audience;
    SameIsUntold(s, s, e);
    EntersKeepsPosts(s, Leave(cut));
    SameIsUntold(s, Enters(s, Leave(cut)), e);
    EntersKeepsPosts(s, Raised(InvalidTransition));
    SameIsUntold(s, Enters(s, Raised(InvalidTransition)), e);
    EntersKeepsPosts(s, Raised(Aborted));
    SameIsUntold(s, Enters(s, Raised(Aborted)), e);
    EntersKeepsPosts(Fail(s, id), Leave(cut));
    SameIsUntold(s, Enters(Fail(s, id), Leave(cut)), e);
    CompleteRunUntold(s, id, [], cut, e);
    CompleteRunUntold(s, id, ids, cut, e);
  }

  lemma RefundUntold(s: State, draw: real, ids: seq<nat>, cut: Cut, e: nat)
    requires Tidy(s)
    ensures Untold(s, RefundStep(s, draw, ids, cut), e)
  {
    hide Tidy, Untold, Enters, RefundRun;
    SameIsUntold(s, s, e);
    match Current(s)
    case Some(ProcessRefund(id)) =>
      if id in s.refunds {
        RefundRunUntold(s, id, draw, ids, cut, e);
      } else {
        EntersKeepsPosts(s, Raised(RowMissing));
        SameIsUntold(s, Enters(s, Raised(RowMissing)), e);
      }
    case _ =>
  }

  lemma HandlerUntold(s: State, a: Action, e: nat)
    requires Tidy(s) && (a.RunPayment? || a.RunSoft? || a.RunRefund?)
    ensures Untold(s, Next(s, a), e) && Moves(s.q.worker, Next(s, a).q.worker)
  {
    hide Untold, Tidy, PaymentStep, SoftStep, RefundStep, Moves;
    SameIsUntold(s, s, e);
    StaysPut(s.q.worker);
    match a
    case RunPayment(draw, fault) => PaymentFrame(s, draw, fault); SameIsUntold(s, PaymentStep(s, draw, fault), e);
    case RunSoft(jitter, fault) => SoftFrame(s, jitter, fault); SameIsUntold(s, SoftStep(s, jitter, fault), e);
    case RunRefund(draw, ids, cut) => RefundFrame(s, draw, ids, cut); RefundUntold(s, draw, ids, cut, e);
  }

  lemma RequestUntold(s: State, a: Action, e: nat)
    requires a.CreateRequest? || a.ConfirmRequest? || a.RefundRequest?
    ensures Untold(s, Next(s, a), e) && Next(s, a).q.worker == s.q.worker
  {
    hide Untold, Create, Confirm, Initiate;
    SameIsUntold(s, s, e);
    match a
    case CreateRequest(customer, cents, metadata, key) =>
      CreateFrame(s, customer, cents, metadata, key);
      SameIsUntold(s, Create(s, customer, cents, metadata, key), e);
    case ConfirmRequest(id, metadata, draw, cut) =>
      ConfirmFrame(s, id, metadata, Classify(draw, cut), Http);
      SameIsUntold(s, Next(s, a), e);
    case RefundRequest(id, cents, key) =>
      InitiateFrame(s, id, cents, key);
      SameIsUntold(s, Initiate(s, id, cents, key), e);
  }

  lemma OuterUntold(s: State, a: Action, e: nat)
    requires OuterAction(a) || a.PollJobs? || a.ResumeTail? || a.RestartProcess?
    ensures Untold(s, Next(s, a), e) && Next(s, a).q.worker == s.q.worker
  {
    hide Untold;
    if OuterAction(a) { OuterFrame(s, a); } else { QueueFrame(s, a); }
    SameIsUntold(s, Next(s, a), e);
    hide Create, Confirm, Initiate, PaymentStep, SoftStep, RefundStep, DeliverStep, Take, Finish, Reset,
         Selection, Puts;
  }

  /** Steps that neither deliver nor take, finish or reset a job. */
  predicate Bystander(a: Action) {
    Outer(a) && !a.RunDelivery?
  }

  lemma BystanderUntold(s: State, a: Action, e: nat)
    requires Tidy(s) && Bystander(a)
    ensures Untold(s, Next(s, a), e) && Moves(s.q.worker, Next(s, a).q.worker)
  {
    hide Untold, Tidy, Next;
    if a.RunPayment? || a.RunSoft? || a.RunRefund? { HandlerUntold(s, a, e); }
    else if a.CreateRequest? || a.ConfirmRequest? || a.RefundRequest? { RequestUntold(s, a, e); }
    else { OuterUntold(s, a, e); }
  }

  // ---------------------------------------------------------------- never more POSTs than handler starts

  /** A POST that the handler in flight may be about to send. */
  function InHand(s: State, e: nat): nat {
    if Current(s) == Some(DeliverWebhook(e)) then 1 else 0
  }

  function Sendable(s: State, e: nat): nat { |PostsOf(s, e)| + InHand(s, e) }

  /** The step starts a handler for the event. */
  predicate StartsFor(s: State, a: Action, e: nat) {
    && Starts(s, a) && s.q.dispatch != [] && s.q.dispatch[0] in s.q.jobs
    && s.q.jobs[s.q.dispatch[0]].task == DeliverWebhook(e)
  }

  lemma BystanderSends(s: State, a: Action, e: nat)
    requires IdsOk(s) && Tidy(s) && Bystander(a) && (s.q.worker.Busy? ==> s.q.worker.job in s.q.jobs)
    ensures Sendable(Next(s, a), e) <= Sendable(s, e)
  {
    BystanderUntold(s, a, e);
    OuterKeepsRows(s, a);
    hide Next, IdsOk, Tidy;
  }

  lemma RecordSends(s: State, id: nat, row: Event, e: nat)
    requires UnderWay(s.q.worker) && id in s.events
    ensures PostsOf(Record(s, id, row), e) == PostsOf(s, e) && InHand(Record(s, id, row), e) == 0
  {
    hide Insert;
    InsertedWorker(s.q, s.next, DeliverWebhook(id), if row.nextRetryAt.Some? then row.nextRetryAt.value else 0.0);
  }

  lemma InsertedWorker(q: Queue, id: nat, task: Task, runAt: real)
    ensures Enqueue(q, id, task, runAt).worker == q.worker
  {}

  lemma DeliverRunSends(s: State, id: nat, ok: bool, elapsed: real, jitter: real, cut: DeliveryCut, e: nat)
    requires Current(s) == Some(DeliverWebhook(id)) && id in s.events
    ensures Sendable(DeliverRun(s, id, ok, elapsed, jitter, cut), e) <= Sendable(s, e)
  {
    hide Record, Enters, AfterPost, Undeliverable;
    if s.events[id].endpoint !in s.endpoints || !s.endpoints[s.events[id].endpoint].active {
      RecordSends(s, id, Undeliverable(s.events[id], s.clock), e);
    } else if cut == CutAfterPost {
      EntersSends(Sent(s, id, ok, elapsed, false), Raised(Aborted), e);
    } else {
      RecordSends(Sent(s, id, ok, elapsed, true), id, AfterPost(s.events[id], ok, jitter, s.clock), e);
    }
  }

  lemma EntersSends(s: State, phase: Phase, e: nat)
    requires s.q.worker.Busy? && phase != Started
    ensures PostsOf(Enters(s, phase), e) == PostsOf(s, e) && InHand(Enters(s, phase), e) == 0
  {}

  lemma DeliverSends(s: State, ok: bool, elapsed: real, jitter: real, cut: DeliveryCut, e: nat)
    ensures Sendable(DeliverStep(s, ok, elapsed, jitter, cut), e) <= Sendable(s, e)
  {
    hide DeliverRun, Enters, PostsOf, InHand;
    match Current(s)
    case Some(DeliverWebhook(id)) =>
      EntersSends(s, Raised(Aborted), e);
      EntersSends(s, Returned, e);
      if id in s.events { DeliverRunSends(s, id, ok, elapsed, jitter, cut, e); }
    case _ =>
  }

  lemma InnerSends(s: State, a: Action, e: nat)
    requires !Outer(a)
    ensures Sendable(Next(s, a), e) <= Sendable(s, e) + (if StartsFor(s, a, e) then 1 else 0)
  {
    match a
    case OperatorRetry(_) =>
    case TakeJob =>
    case FinishJob =>
  }

  lemma DeliveryActionSends(s: State, a: Action, e: nat)
    requires a.RunDelivery?
    ensures Sendable(Next(s, a), e) <= Sendable(s, e)
  {
    hide DeliverStep, Sendable;
    DeliverSends(s, a.ok, a.elapsed, a.jitter, a.deliveryCut, e);
  }

  lemma NextSends(s: State, a: Action, e: nat)
    requires Inv(s)
    ensures Sendable(Next(s, a), e) <= Sendable(s, e) + (if StartsFor(s, a, e) then 1 else 0)
  {
    TidyState(s);
    hide Rows, Flow, Next, Sendable, StartsFor;
    if a.RunDelivery? { DeliveryActionSends(s, a, e); }
    else if Outer(a) { BystanderSends(s, a, e); }
    else { InnerSends(s, a, e); }
  }

  lemma TidyState(s: State)
    requires Inv(s)
    ensures Tidy(s) && IdsOk(s) && (s.q.worker.Busy? ==> s.q.worker.job in s.q.jobs)
  {
    hide PaymentsOk, RecordsOk, RefundsOk, LinkOk, BackoffOk;
  }

  /** How often the run starts a handler for the event. */
  ghost function StartsOf(max: nat, run: seq<Action>, e: nat): nat {
    if run == [] then 0
    else
      StartsOf(max, run[..|run| - 1], e)
      + (if StartsFor(After(max, run[..|run| - 1]), run[|run| - 1], e) then 1 else 0)
  }

  lemma {:induction false} SendsAreStarts(max: nat, run: seq<Action>, e: nat)
    requires max >= 1
    ensures Sendable(After(max, run), e) <= StartsOf(max, run, e)
    decreases |run|
  {
    hide Next, StartsFor;
    if run != [] {
      hide Sendable;
      SendsAreStarts(max, run[..|run| - 1], e);
      Reached(max, run[..|run| - 1]);
      NextSends(After(max, run[..|run| - 1]), run[|run| - 1], e);
    }
  }

  /** In every run, with every fault and every operator retry, an event is POSTed at most once per
      handler start of its delivery jobs. */
  lemma PostsAreStarts(max: nat, run: seq<Action>, e: nat)
    requires max >= 1
    ensures |PostsOf(After(max, run), e)| <= StartsOf(max, run, e)
  {
    SendsAreStarts(max, run, e);
  }

  // ---------------------------------------------------------------- fifteen POSTs without operator retries

  const ALL_POSTS := MAX_DELIVERIES * DEFAULT_MAX_ATTEMPTS

  /** Handler starts, and so POSTs, that a job may still make, not counting one that is over but not booked. */
  function Left(q: Queue, j: nat): int
    requires j in q.jobs
  {
    q.jobs[j].maxAttempts - q.jobs[j].attempts
    - (if q.worker.Busy? && q.worker.job == j && q.worker.phase != Started then 1 else 0)
  }

  /** What was POSTed, what the event's one carrier may still POST, and what the jobs after it may. */
  ghost predicate Capped(s: State, e: nat) {
    e in s.events ==>
      && |PostsOf(s, e)| <= ALL_POSTS
      && forall j :: Carries(s.q, j, EventTarget(e)) ==> Room(s, j, e)
  }

  predicate Room(s: State, j: nat, e: nat)
    requires j in s.q.jobs && e in s.events
  {
    |PostsOf(s, e)| + Left(s.q, j) + DEFAULT_MAX_ATTEMPTS * (MAX_DELIVERIES - 1 - s.events[e].attempts) <= ALL_POSTS
  }

  /** Whoever carries the event carried it before, and may not start more often than before. */
  ghost predicate NoMore(q: Queue, r: Queue, e: nat) {
    forall j :: Carries(r, j, EventTarget(e)) ==> Carries(q, j, EventTarget(e)) && Left(r, j) <= Left(q, j)
  }

  lemma CappedStays(s: State, t: State, e: nat)
    requires Capped(s, e) && Untold(s, t, e) && e in s.events && NoMore(s.q, t.q, e)
    ensures Capped(t, e)
  {
    hide Carries, Left;
    forall j | Carries(t.q, j, EventTarget(e)) ensures j in t.q.jobs && Room(t, j, e) {
      assert j in t.q.jobs by { CarriesRow(t.q, j, EventTarget(e)); }
      CarriesRow(s.q, j, EventTarget(e));
      assert Room(s, j, e);
    }
  }

  lemma CarriesRow(q: Queue, j: nat, t: Target)
    requires Carries(q, j, t)
    ensures j in q.jobs
  {}

  /** A new event has its first job ahead of it. */
  lemma CappedNew(s: State, t: State, e: nat)
    requires Untold(s, t, e) && e !in s.events && IdsOk(t)
    ensures Capped(t, e)
  {
    hide Known;
  }

  // -------- steps that do not deliver

  /** Rows added by a step that does not deliver work for no event that exists. */
  ghost predicate NewWork(q: Queue, r: Queue, n: nat) {
    forall j :: j in r.jobs && j !in q.jobs && r.jobs[j].task.DeliverWebhook? ==> r.jobs[j].task.event >= n
  }

  lemma NoNewWork(q: Queue, r: Queue, n: nat)
    requires r.jobs == q.jobs
    ensures NewWork(q, r, n)
  {}

  lemma EnqueueNewWork(q: Queue, id: nat, task: Task, runAt: real, n: nat)
    requires !task.DeliverWebhook?
    ensures NewWork(q, Enqueue(q, id, task, runAt), n)
  {}

  lemma EntersKeepsJobs(s: State, phase: Phase)
    ensures Enters(s, phase).q.jobs == s.q.jobs
  {}

  lemma EntersNewWork(q: Queue, s: State, phase: Phase, n: nat)
    requires NewWork(q, s.q, n)
    ensures NewWork(q, Enters(s, phase).q, n)
  {
    hide Enters;
    EntersKeepsJobs(s, phase);
  }

  lemma RequestNewWork(s: State, a: Action)
    requires a.CreateRequest? || a.ConfirmRequest? || a.RefundRequest?
    ensures NewWork(s.q, Next(s, a).q, s.next)
  {
    hide NewWork, Enqueue, CreateResultOf, InitiateResultOf, NewPayment, Settled, Refunds.Stored, Requested;
    NoNewWork(s.q, s.q, s.next);
    EnqueueNewWork(s.q, s.next + 1, ProcessPayment(s.next), s.clock, s.next);
    EnqueueNewWork(s.q, s.next + 1, ProcessRefund(s.next), s.clock, s.next);
    match a
    case CreateRequest(_, _, _, _) =>
    case ConfirmRequest(_, _, _, _) =>
    case RefundRequest(_, _, _) =>
  }

  lemma PaymentNewWork(s: State, draw: real, fault: Fault)
    ensures PaymentStep(s, draw, fault).q.jobs == s.q.jobs
  {
    hide Confirm, MarkExhausted, Enters, ConfirmPhase, ConfirmResultOf, MarkPhase, Attempt;
    match Current(s)
    case Some(ProcessPayment(id)) => ProcessStepQueue(s, draw, fault, id);
    case Some(RetryPayment(id)) => RetryStepQueue(s, draw, fault, id);
    case _ =>
  }

  lemma ScheduleNewWork(s: State, id: nat, count: nat, jitter: real, n: nat)
    ensures NewWork(s.q, ScheduleRetry(s, id, count, jitter).q, n)
  {
    hide Enqueue, NewWork, Enter, NextRetryAt;
    var q := Enqueue(s.q, s.next, RetryPayment(id), NextRetryAt(s.clock, count, jitter));
    EnqueueNewWork(s.q, s.next, RetryPayment(id), NextRetryAt(s.clock, count, jitter), n);
    EntersNewWork(s.q, s.(next := s.next + 1, q := q), Returned, n);
  }

  lemma SoftNewWork(s: State, jitter: real, fault: Fault)
    ensures NewWork(s.q, SoftStep(s, jitter, fault).q, s.next)
  {
    hide NewWork, Enters, ScheduleRetry, MarkExhausted, MarkPhase;
    NoNewWork(s.q, s.q, s.next);
    match SoftTask(s)
    case Some((ProcessPayment(id), n)) =>
      EntersNewWork(s.q, s, Raised(Aborted), s.next);
      ScheduleNewWork(s, id, n, jitter, s.next);
    case Some((RetryPayment(id), n)) =>
      EntersNewWork(s.q, s, Raised(Aborted), s.next);
      ScheduleNewWork(s, id, n, jitter, s.next);
      MarkFrame(s, id);
      EntersNewWork(s.q, MarkExhausted(s, id), MarkPhase(s, id, fault), s.next);
    case _ =>
  }

  lemma FanoutNewWork(s: State, n: nat, k: nat)
    requires k <= n
    ensures NewWork(s.q, FanoutJobs(s, n, k).q, s.next)
  {
    FanoutShape(s.next, n, k, s.clock);
    hide FanoutRows, FanoutTails;
  }

  lemma CompleteNewWork(s: State, id: nat, ids: seq<nat>, cut: Cut)
    requires id in s.refunds
    ensures NewWork(s.q, CompleteRun(s, id, ids, cut).q, s.next)
  {
    hide NewWork, Enters, FanoutJobs, FanoutEvents;
    NoNewWork(s.q, s.q, s.next);
    FanoutNewWork(s, |ids|, |ids|);
    EntersNewWork(s.q, Complete(s, id, ids), Leave(cut), s.next);
    if cut.CutDuring? && cut.enqueued <= |ids| {
      FanoutNewWork(s, |ids|, cut.enqueued);
      EntersNewWork(s.q, FanoutJobs(s, |ids|, cut.enqueued), Raised(Aborted), s.next);
    }
  }

  lemma RefundRunNewWork(s: State, id: nat, draw: real, ids: seq<nat>, cut: Cut)
    requires id in s.refunds
    ensures NewWork(s.q, RefundRun(s, id, draw, ids, cut).q, s.next)
  {
    hide NewWork, Enters, CompleteRun, Audience;
    NoNewWork(s.q, s.q, s.next);
    EntersNewWork(s.q, s, Leave(cut), s.next);
    EntersNewWork(s.q, s, Raised(InvalidTransition), s.next);
    EntersNewWork(s.q, s, Raised(Aborted), s.next);
    EntersNewWork(s.q, Fail(s, id), Leave(cut), s.next);
    CompleteNewWork(s, id, [], cut);
    CompleteNewWork(s, id, ids, cut);
  }

  lemma RefundNewWork(s: State, draw: real, ids: seq<nat>, cut: Cut)
    ensures NewWork(s.q, RefundStep(s, draw, ids, cut).q, s.next)
  {
    hide NewWork, Enters, RefundRun;
    NoNewWork(s.q, s.q, s.next);
    match Current(s)
    case Some(ProcessRefund(id)) =>
      EntersNewWork(s.q, s, Raised(RowMissing), s.next);
      if id in s.refunds { RefundRunNewWork(s, id, draw, ids, cut); }
    case _ =>
  }

  lemma HandlerNewWork(s: State, a: Action)
    requires a.RunPayment? || a.RunSoft? || a.RunRefund?
    ensures NewWork(s.q, Next(s, a).q, s.next)
  {
    hide NewWork, PaymentStep, SoftStep, RefundStep;
    NoNewWork(s.q, s.q, s.next);
    match a
    case RunPayment(draw, fault) =>
      PaymentNewWork(s, draw, fault);
      NoNewWork(s.q, PaymentStep(s, draw, fault).q, s.next);
    case RunSoft(jitter, fault) => SoftNewWork(s, jitter, fault);
    case RunRefund(draw, ids, cut) => RefundNewWork(s, draw, ids, cut);
  }

  lemma OuterNewWork(s: State, a: Action)
    requires OuterAction(a) || a.PollJobs? || a.ResumeTail? || a.RestartProcess?
    ensures NewWork(s.q, Next(s, a).q, s.next)
  {
    hide NewWork, Create, Confirm, Initiate, PaymentStep, SoftStep, RefundStep, DeliverStep, Take, Finish,
         Reset, Selection, Puts;
    NoNewWork(s.q, Next(s, a).q, s.next);
  }

  lemma BystanderNewWork(s: State, a: Action)
    requires Bystander(a)
    ensures NewWork(s.q, Next(s, a).q, s.next)
  {
    hide NewWork, Next;
    if a.RunPayment? || a.RunSoft? || a.RunRefund? { HandlerNewWork(s, a); }
    else if a.CreateRequest? || a.ConfirmRequest? || a.RefundRequest? { RequestNewWork(s, a); }
    else { OuterNewWork(s, a); }
  }

  ghost predicate NotFor(q: Queue, r: Queue, e: nat) {
    forall j :: j in r.jobs && j !in q.jobs ==> TargetOf(r.jobs[j].task) != EventTarget(e)
  }

  lemma KeptRowsNoMore(q: Queue, r: Queue, e: nat)
    requires RowsKept(q, r) && Moves(q.worker, r.worker) && NotFor(q, r, e)
    ensures NoMore(q, r, e)
  {}

  lemma NewIsNotFor(q: Queue, r: Queue, n: nat, e: nat)
    requires NewWork(q, r, n) && e < n
    ensures NotFor(q, r, e)
  {}

  lemma BystanderCapped(s: State, a: Action, e: nat)
    requires Inv(s) && Bystander(a) && Capped(s, e)
    ensures Capped(Next(s, a), e)
  {
    TidyState(s);
    assert IdsOk(Next(s, a)) by { NextKeeps(s, a); hide Rows, QueueInv, LinkOk, BackoffOk; }
    hide Rows, Flow, Next, Capped, Untold, NoMore, NewWork, NotFor, RowsKept, Moves;
    BystanderUntold(s, a, e);
    if e in s.events {
      assert e < s.next;
      OuterKeepsRows(s, a);
      BystanderNewWork(s, a);
      NewIsNotFor(s.q, Next(s, a).q, s.next, e);
      KeptRowsNoMore(s.q, Next(s, a).q, e);
      CappedStays(s, Next(s, a), e);
    } else {
      CappedNew(s, Next(s, a), e);
    }
  }

  // -------- the consumer

  lemma TakeCapped(s: State, e: nat)
    requires QueueInv(s.q, s.clock) && Capped(s, e)
    ensures Capped(Next(s, TakeJob), e)
  {
    hide QueueInv, Capped, Untold, NoMore, Take, Quiet;
    TakeIsQuiet(s.q, s.clock);
    TakeNoMore(s.q, e);
    SameIsUntold(s, s.(q := Take(s.q)), e);
    if e in s.events { CappedStays(s, s.(q := Take(s.q)), e); } else { UncappedElsewhere(s.(q := Take(s.q)), e); }
  }

  lemma UncappedElsewhere(s: State, e: nat)
    requires e !in s.events
    ensures Capped(s, e)
  {}

  lemma TakeNoMore(q: Queue, e: nat)
    requires Quiet(q, Take(q))
    ensures NoMore(q, Take(q), e)
  {}

  lemma FinishNoMore(q: Queue, now: real, e: nat)
    requires QueueInv(q, now) && Quiet(q, Finish(q, now))
    ensures NoMore(q, Finish(q, now), e)
  {
    var r := Finish(q, now);
    forall j | Carries(r, j, EventTarget(e)) ensures Carries(q, j, EventTarget(e)) && Left(r, j) <= Left(q, j) {
      FinishLeft(q, now, j);
    }
  }

  lemma FinishLeft(q: Queue, now: real, j: nat)
    requires j in q.jobs
    ensures var r := Finish(q, now);
      j in r.jobs && (r.jobs[j].status != JobStatus.Completed ==> Left(r, j) <= Left(q, j))
  {
    if q.worker.Busy? && q.worker.job == j {
      match q.worker.phase
      case Returned =>
      case Raised(_) =>
      case _ =>
    }
  }

  lemma FinishCapped(s: State, e: nat)
    requires QueueInv(s.q, s.clock) && Capped(s, e)
    ensures Capped(Next(s, FinishJob), e)
  {
    hide QueueInv, Capped, Untold, NoMore, Finish, Quiet;
    FinishIsQuiet(s.q, s.clock);
    FinishNoMore(s.q, s.clock, e);
    SameIsUntold(s, s.(q := Finish(s.q, s.clock)), e);
    if e in s.events { CappedStays(s, s.(q := Finish(s.q, s.clock)), e); }
    else { UncappedElsewhere(s.(q := Finish(s.q, s.clock)), e); }
  }

  // -------- the delivery handler

  lemma ClosedUncarried(s: State, e: nat)
    requires LinkOk(s) && e in s.events && !Webhooks.Open(s.events[e])
    ensures forall j :: !Carries(s.q, j, EventTarget(e))
  {
    forall j ensures !Carries(s.q, j, EventTarget(e)) {
      assert Carries(s.q, j, EventTarget(e)) ==> DeliveryOk(s, j, e);
    }
  }

  /** The job in flight has a start in hand, and its event has POSTs left. */
  ghost predicate Sending(s: State, id: nat) {
    && Current(s) == Some(DeliverWebhook(id)) && id in s.events && s.events[id].attempts < MAX_DELIVERIES
    && Room(s, s.q.worker.job, id) && Left(s.q, s.q.worker.job) >= 1
  }

  lemma OneCarrier(s: State, j: nat, t: Target)
    requires LinkOk(s) && Carries(s.q, j, t)
    ensures forall k :: Carries(s.q, k, t) ==> k == j
  {}

  lemma FlightSends(s: State, id: nat)
    requires Inv(s) && Capped(s, id) && Current(s) == Some(DeliverWebhook(id)) && id in s.events
    ensures Sending(s, id) && Webhooks.Open(s.events[id])
    ensures forall j :: Carries(s.q, j, EventTarget(id)) ==> j == s.q.worker.job
  {
    hide Rows, IdsOk, QueueInv, BackoffOk, LinkOk;
    PostsLeft(s, id);
    var w := s.q.worker.job;
    RunningIsInFlight(s.q, s.clock, w);
    assert Carries(s.q, w, EventTarget(id));
    OneCarrier(s, w, EventTarget(id));
  }

  lemma InvParts(s: State)
    requires Inv(s)
    ensures LinkOk(s) && IdsOk(s) && QueueInv(s.q, s.clock)
  {
    hide Rows, LinkOk, IdsOk, QueueInv, BackoffOk;
  }

  /** Nothing was sent. */
  lemma UnsentCapped(s: State, t: State, e: nat)
    requires Capped(s, e) && t.events == s.events && t.posts == s.posts && RowsKept(s.q, t.q) && t.q.jobs == s.q.jobs
    requires Moves(s.q.worker, t.q.worker)
    ensures Capped(t, e)
  {
    SameIsUntold(s, t, e);
    hide Capped, Untold, RowsKept;
    if e in s.events {
      SameJobsNoMore(s.q, t.q, e);
      CappedStays(s, t, e);
    } else {
      UncappedElsewhere(t, e);
    }
  }

  lemma SameJobsNoMore(q: Queue, r: Queue, e: nat)
    requires r.jobs == q.jobs && Moves(q.worker, r.worker)
    ensures NoMore(q, r, e)
  {}

  /** One more POST went out, and the event is closed. */
  lemma ClosedCapped(s: State, t: State, id: nat)
    requires Sending(s, id) && |PostsOf(t, id)| <= |PostsOf(s, id)| + 1 && LinkOk(t)
    requires id in t.events && !Webhooks.Open(t.events[id])
    ensures Capped(t, id)
  {
    ClosedUncarried(t, id);
  }

  /** ... or its start is used up. */
  lemma LostCapped(s: State, t: State, id: nat)
    requires Sending(s, id) && (forall j :: Carries(s.q, j, EventTarget(id)) ==> j == s.q.worker.job)
    requires |PostsOf(t, id)| == |PostsOf(s, id)| + 1 && id in t.events
    requires t.events[id].attempts == s.events[id].attempts
    requires t.q.jobs == s.q.jobs && t.q.worker == Busy(s.q.worker.job, Raised(Aborted))
    ensures Capped(t, id)
  {
    forall j | Carries(t.q, j, EventTarget(id)) ensures Room(t, j, id) {
      assert Carries(s.q, j, EventTarget(id));
    }
  }

  /** ... or it waits for the next of at most five jobs. */
  lemma RetriedCapped(s: State, t: State, id: nat)
    requires Sending(s, id) && IdsOk(t)
    requires |PostsOf(t, id)| == |PostsOf(s, id)| + 1 && id in t.events
    requires t.events[id].attempts == s.events[id].attempts + 1
    requires t.events[id].attempts < MAX_DELIVERIES
    ensures Capped(t, id)
  {
    hide Known;
  }

  lemma Posted(s: State, id: nat, ok: bool, elapsed: real, recorded: bool, e: nat)
    ensures var t := Sent(s, id, ok, elapsed, recorded);
      && t.events == s.events && t.q == s.q && t.next == s.next
      && |PostsOf(t, e)| == |PostsOf(s, e)| + (if e == id then 1 else 0) && (e != id ==> PostsOf(t, e) == PostsOf(s, e))
  {}

  lemma PostCapped(s: State, t: State, id: nat, ok: bool, elapsed: real, e: Event)
    requires Sending(s, id) && Inv(t) && t == Record(Sent(s, id, ok, elapsed, true), id, e) && UnderWay(s.q.worker)
    requires Webhooks.Open(e) ==> e.attempts == s.events[id].attempts + 1 && e.attempts < MAX_DELIVERIES
    ensures Capped(t, id)
  {
    hide Inv, Record, Sent, Sending, LinkOk, IdsOk, PostsOf;
    InvParts(t);
    Posted(s, id, ok, elapsed, true, id);
    assert id in s.events by { SendingRow(s, id); }
    RecordFrame(Sent(s, id, ok, elapsed, true), id, e);
    SamePosts(Sent(s, id, ok, elapsed, true), t, id);
    if Webhooks.Open(e) { RetriedCapped(s, t, id); } else { ClosedCapped(s, t, id); }
  }

  lemma SendingRow(s: State, id: nat)
    requires Sending(s, id)
    ensures id in s.events
  {}

  lemma SamePosts(s: State, t: State, e: nat)
    requires t.posts == s.posts
    ensures PostsOf(t, e) == PostsOf(s, e)
  {}

  lemma AfterPostOpen(e: Event, ok: bool, jitter: real, now: real)
    ensures var r := AfterPost(e, ok, jitter, now);
      Webhooks.Open(r) ==> r.attempts == e.attempts + 1 && r.attempts < MAX_DELIVERIES
  {}

  lemma OwnCapped(s: State, id: nat, ok: bool, elapsed: real, jitter: real, cut: DeliveryCut)
    requires Current(s) == Some(DeliverWebhook(id)) && id in s.events
    requires Inv(s) && Inv(DeliverRun(s, id, ok, elapsed, jitter, cut)) && Capped(s, id)
    ensures Capped(DeliverRun(s, id, ok, elapsed, jitter, cut), id)
  {
    hide Inv, Capped, Sending, LinkOk, IdsOk, QueueInv, Record, AfterPost, Sent, PostsOf;
    FlightSends(s, id);
    var t := DeliverRun(s, id, ok, elapsed, jitter, cut);
    InvParts(t);
    if s.events[id].endpoint !in s.endpoints || !s.endpoints[s.events[id].endpoint].active {
      RecordFrame(s, id, Undeliverable(s.events[id], s.clock));
      SamePosts(s, t, id);
      ClosedCapped(s, t, id);
    } else if cut == CutAfterPost {
      Posted(s, id, ok, elapsed, false, id);
      SamePosts(Sent(s, id, ok, elapsed, false), t, id);
      LostCapped(s, t, id);
    } else {
      AfterPostOpen(s.events[id], ok, jitter, s.clock);
      PostCapped(s, t, id, ok, elapsed, AfterPost(s.events[id], ok, jitter, s.clock));
    }
  }

  /** A delivery's new row, if any, is for its own event. */
  lemma EnqueueNotFor(q: Queue, id: nat, task: Task, runAt: real, phase: Phase, e: nat)
    requires TargetOf(task) != EventTarget(e)
    ensures NotFor(q, Enter(Enqueue(q, id, task, runAt), phase), e) && NotFor(q, Enter(q, phase), e)
  {}

  lemma RecordNotFor(s: State, id: nat, row: Event, e: nat)
    requires id in s.events && e != id
    ensures NotFor(s.q, Record(s, id, row).q, e)
  {
    hide Enter, Enqueue, NotFor;
    var runAt := if row.nextRetryAt.Some? then row.nextRetryAt.value else 0.0;
    EnqueueNotFor(s.q, s.next, DeliverWebhook(id), runAt, Returned, e);
  }

  lemma DeliverRunOther(s: State, id: nat, ok: bool, elapsed: real, jitter: real, cut: DeliveryCut, e: nat)
    requires UnderWay(s.q.worker) && id in s.events && e != id
    ensures var t := DeliverRun(s, id, ok, elapsed, jitter, cut);
      NotFor(s.q, t.q, e) && PostsOf(t, e) == PostsOf(s, e) && (e in t.events <==> e in s.events)
      && (e in s.events ==> t.events[e] == s.events[e])
  {
    hide Record, Enters, AfterPost, Undeliverable, NotFor, Sent, PostsOf, Moves;
    Posted(s, id, ok, elapsed, false, e);
    Posted(s, id, ok, elapsed, true, e);
    var t := DeliverRun(s, id, ok, elapsed, jitter, cut);
    if s.events[id].endpoint !in s.endpoints || !s.endpoints[s.events[id].endpoint].active {
      RecordNotFor(s, id, Undeliverable(s.events[id], s.clock), e);
      RecordFrame(s, id, Undeliverable(s.events[id], s.clock));
      SamePosts(s, t, e);
    } else if cut == CutAfterPost {
      EntersKeepsPosts(Sent(s, id, ok, elapsed, false), Raised(Aborted));
      EntersKeepsJobs(Sent(s, id, ok, elapsed, false), Raised(Aborted));
      SameJobsNotFor(s.q, t.q, e);
      SamePosts(Sent(s, id, ok, elapsed, false), t, e);
    } else {
      RecordNotFor(Sent(s, id, ok, elapsed, true), id, AfterPost(s.events[id], ok, jitter, s.clock), e);
      RecordFrame(Sent(s, id, ok, elapsed, true), id, AfterPost(s.events[id], ok, jitter, s.clock));
      SamePosts(Sent(s, id, ok, elapsed, true), t, e);
    }
  }

  lemma SameJobsNotFor(q: Queue, r: Queue, e: nat)
    requires r.jobs == q.jobs
    ensures NotFor(q, r, e)
  {}

  lemma OtherCapped(s: State, id: nat, ok: bool, elapsed: real, jitter: real, cut: DeliveryCut, e: nat)
    requires IdsOk(s) && Capped(s, e) && Current(s) == Some(DeliverWebhook(id)) && id in s.events && e != id
    ensures Capped(DeliverRun(s, id, ok, elapsed, jitter, cut), e)
  {
    var t := DeliverRun(s, id, ok, elapsed, jitter, cut);
    assert s.next !in s.q.jobs;
    hide DeliverRun, IdsOk, Capped, RowsKept, NotFor, NoMore, Moves;
    DeliverRunOther(s, id, ok, elapsed, jitter, cut, e);
    DeliverRunKeepsRows(s, id, ok, elapsed, jitter, cut);
    DeliverRunFrame(s, id, ok, elapsed, jitter, cut);
    if e in s.events {
      KeptRowsNoMore(s.q, t.q, e);
      CappedStays(s, t, e);
    } else {
      UncappedElsewhere(t, e);
    }
  }

  lemma PhaseCapped(s: State, phase: Phase, e: nat)
    requires Capped(s, e) && UnderWay(s.q.worker) && phase != Started
    ensures Capped(Enters(s, phase), e)
  {
    EntersKeepsPosts(s, phase);
    EntersKeepsJobs(s, phase);
    EntersMoves(s, s, phase);
    EnterKeepsRows(s.q, phase);
    hide Capped, Enter, RowsKept, Moves;
    UnsentCapped(s, Enters(s, phase), e);
  }

  lemma DeliverCapped(s: State, ok: bool, elapsed: real, jitter: real, cut: DeliveryCut, e: nat)
    requires Inv(s) && Inv(DeliverStep(s, ok, elapsed, jitter, cut)) && Capped(s, e)
    ensures Capped(DeliverStep(s, ok, elapsed, jitter, cut), e)
  {
    hide Inv, IdsOk, LinkOk, QueueInv, Capped, DeliverRun, Enters;
    InvParts(s);
    match Current(s)
    case Some(DeliverWebhook(id)) =>
      PhaseCapped(s, Raised(Aborted), e);
      PhaseCapped(s, Returned, e);
      if cut != CutBeforePost && id in s.events {
        if e == id {
          OwnCapped(s, id, ok, elapsed, jitter, cut);
        } else {
          OtherCapped(s, id, ok, elapsed, jitter, cut, e);
        }
      }
    case _ =>
  }

  lemma DeliveryActionCapped(s: State, a: Action, e: nat)
    requires Inv(s) && Inv(Next(s, a)) && a.RunDelivery? && Capped(s, e)
    ensures Capped(Next(s, a), e)
  {
    hide Inv, Capped, DeliverStep;
    if Jitter(a.jitter) && a.elapsed >= 0.0 { DeliverCapped(s, a.ok, a.elapsed, a.jitter, a.deliveryCut, e); }
  }

  lemma NextCapped(s: State, a: Action, e: nat)
    requires Inv(s) && Capped(s, e) && !a.OperatorRetry?
    ensures Capped(Next(s, a), e)
  {
    hide Inv, Capped, Next;
    NextKeeps(s, a);
    assert QueueInv(s.q, s.clock) by { InvParts(s); }
    hide QueueInv;
    if a.RunDelivery? { DeliveryActionCapped(s, a, e); }
    else if a.TakeJob? { TakeCapped(s, e); }
    else if a.FinishJob? { FinishCapped(s, e); }
    else { BystanderCapped(s, a, e); }
  }

  lemma {:induction false} RunCapped(max: nat, run: seq<Action>, e: nat)
    requires max >= 1 && forall i :: 0 <= i < |run| ==> !run[i].OperatorRetry?
    ensures Capped(After(max, run), e)
    decreases |run|
  {
    hide Next;
    if run != [] {
      hide Capped;
      RunCapped(max, run[..|run| - 1], e);
      Reached(max, run[..|run| - 1]);
      NextCapped(After(max, run[..|run| - 1]), run[|run| - 1], e);
    }
  }

  /** Without operator retries an event is POSTed at most fifteen times, recorded or not, however
      many handlers die: by each of at most five jobs, once per start. */
  lemma AtMostFifteenPosts(max: nat, run: seq<Action>, e: nat)
    requires max >= 1 && forall i :: 0 <= i < |run| ==> !run[i].OperatorRetry?
    ensures |PostsOf(After(max, run), e)| <= 15
  {
    RunCapped(max, run, e);
    assert e !in After(max, run).events ==> PostsOf(After(max, run), e) == [] by {
      hide Flow, PaymentsOk, RecordsOk, RefundsOk;
      Reached(max, run);
    }
  }
}
