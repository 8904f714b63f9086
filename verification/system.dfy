/** The whole back end as one transition system: committed tables, the job system, the clock, and
    every request, worker step, operator action and fault that can change them. */
module System {
  import opened Common
  import opened Payments
  import opened Jobs
  import opened Refunds
  import opened Webhooks

  /** An idempotency record: the response that the first request got. */
  datatype IdempotencyRecord = IdempotencyRecord(payment: nat, body: Option<Payment>, statusCode: nat, expiresAt: real)

  /** `next` is the source of never-repeated ids; `calls` and `posts` remember what was sent to the
      processor for each payment and POSTed for each event. */
  datatype State = State(
    max: nat, clock: real, next: nat,
    payments: map<nat, Payment>, records: map<string, IdempotencyRecord>, calls: map<nat, seq<Payments.Call>>,
    refunds: map<nat, Refund>,
    endpoints: map<nat, Endpoint>, events: map<nat, Event>, posts: map<nat, seq<Post>>,
    q: Queue)

  function Init(max: nat): State {
    State(max, 0.0, 0, map[], map[], map[], map[], map[], map[], map[], Queue(map[], [], [], Idle, map[]))
  }

  // ---------------------------------------------------------------- payments

  const IDEMPOTENCY_WINDOW: real := 86400.0
  const CREATED_STATUS: nat := 201

  datatype CreateResult = Replayed(body: Payment, statusCode: nat) | Conflict | Rejected | Created(id: nat)

  predicate KeyTaken(s: State, key: string) {
    exists p :: p in s.payments && s.payments[p].key == key
  }

  function CreateResultOf(s: State, cents: real, key: string): CreateResult {
    if key in s.records && s.records[key].expiresAt > s.clock then
      if s.records[key].body.None? then Conflict else Replayed(s.records[key].body.value, s.records[key].statusCode)
    else if KeyTaken(s, key) || !Fits(Refunds.Stored(cents)) then Rejected
    else Created(s.next)
  }

  /** `create_payment`. An expired record is deleted only together with the new payment, so a
      unique-key violation rolls the deletion back. */
  function Create(s: State, customer: string, cents: real, metadata: Option<string>, key: string): State {
    if !CreateResultOf(s, cents, key).Created? then s
    else
      var p := NewPayment(customer, Refunds.Stored(cents), key, metadata, s.clock);
      s.(next := s.next + 2,
         payments := s.payments[s.next := p],
         calls := s.calls[s.next := []],
         records := s.records[key := IdempotencyRecord(s.next, Some(p), CREATED_STATUS, s.clock + IDEMPOTENCY_WINDOW)],
         q := Enqueue(s.q, s.next + 1, ProcessPayment(s.next), s.clock))
  }

  datatype ConfirmResult = Confirmed | SoftRaised(count: nat) | CutShort | AlreadyProcessed | PaymentNotFound

  function ConfirmResultOf(s: State, id: nat, outcome: Outcome): ConfirmResult {
    if id !in s.payments then PaymentNotFound
    else if Payments.Terminal(s.payments[id].status) then AlreadyProcessed
    else if outcome.SoftFailure? && s.payments[id].retryCount + 1 < s.max then SoftRaised(s.payments[id].retryCount + 1)
    else if outcome == SoftFailure(true) then CutShort
    else Confirmed
  }

  function CallsOf(s: State, id: nat): seq<Payments.Call> {
    if id in s.calls then s.calls[id] else []
  }

  /** `confirm_payment`: one processor call, unless the payment is unknown or terminal. */
  function Confirm(s: State, id: nat, metadata: Option<string>, outcome: Outcome, source: Caller): State {
    if id !in s.payments || Payments.Terminal(s.payments[id].status) then s
    else s.(payments := s.payments[id := Settled(s.payments[id], outcome, s.max, metadata, s.clock)],
            calls := s.calls[id := CallsOf(s, id) + [Payments.Call(outcome, s.clock, source)]])
  }

  /** `mark_payment_failed_max_retries`. */
  function MarkExhausted(s: State, id: nat): State {
    if id !in s.payments || Payments.Terminal(s.payments[id].status) then s
    else s.(payments := s.payments[id := Exhausted(s.payments[id], s.clock)])
  }

  /** How `mark_payment_failed_max_retries` leaves its caller, who may still be cut after its commit. */
  function MarkPhase(s: State, id: nat, fault: Fault): Phase {
    if id !in s.payments then Raised(RowMissing)
    else if s.payments[id].status == Success then Raised(AlreadyTerminal)
    else if fault == FaultAfter then Raised(Aborted)
    else Returned
  }

  // ---------------------------------------------------------------- refunds

  datatype InitiateResult =
    Existing(id: nat) | UnknownPayment | NotRefundable | Insufficient | Overflow | Initiated(id: nat)

  predicate RefundKey(s: State, key: string, id: nat) {
    id in s.refunds && s.refunds[id].key == key
  }

  ghost function Remaining(s: State, payment: nat): int
    requires payment in s.payments
  {
    s.payments[payment].amount - Held(s.refunds, payment, s.next)
  }

  /** The amount a request asks for, in cents: what is left if it names none. */
  ghost function Requested(s: State, payment: nat, cents: Option<real>): real
    requires payment in s.payments
  {
    if cents.None? then Remaining(s, payment) as real else cents.value
  }

  ghost function InitiateResultOf(s: State, payment: nat, cents: Option<real>, key: string): InitiateResult {
    if exists id :: RefundKey(s, key, id) then var id :| RefundKey(s, key, id); Existing(id)
    else if payment !in s.payments then UnknownPayment
    else if s.payments[payment].status != Success then NotRefundable
    else if Remaining(s, payment) <= 0 then Insufficient
    else if Requested(s, payment, cents) + Held(s.refunds, payment, s.next) as real > s.payments[payment].amount as real
    then Insufficient
    else if !Fits(Refunds.Stored(Requested(s, payment, cents))) then Overflow
    else Initiated(s.next)
  }

  /** `initiate_refund`. */
  ghost function Initiate(s: State, payment: nat, cents: Option<real>, key: string): State {
    if !InitiateResultOf(s, payment, cents, key).Initiated? then s
    else s.(next := s.next + 2,
            refunds := s.refunds[s.next := Refund(payment, Refunds.Stored(Requested(s, payment, cents)),
                RefundStatus.Pending, key)],
            q := Enqueue(s.q, s.next + 1, ProcessRefund(s.next), s.clock))
  }

  // ---------------------------------------------------------------- handlers

  /** Where, if anywhere, a handler run is cut by an exception; `FaultBetween` is between the two
      commits of an attempt that reaches the retry ceiling. */
  datatype Fault = NoFault | FaultBefore | FaultBetween | FaultAfter

  /** The attempt of a payment handler. */
  function Attempt(draw: real, fault: Fault): Outcome {
    Classify(draw, fault == FaultBetween)
  }

  function Enters(s: State, phase: Phase): State {
    s.(q := Enter(s.q, phase))
  }

  /** The task of the handler in flight, if one has just started. */
  function Current(s: State): Option<Task> {
    if s.q.worker.Busy? && s.q.worker.phase == Started && s.q.worker.job in s.q.jobs
    then Some(s.q.jobs[s.q.worker.job].task) else None
  }

  /** How a payment handler leaves `confirm_payment`. */
  function ConfirmPhase(r: ConfirmResult, fault: Fault, missing: Phase): Phase {
    match r
    case PaymentNotFound => missing
    case AlreadyProcessed => Raised(AlreadyTerminal)
    case SoftRaised(n) => Phase.Soft(n)
    case CutShort => Raised(Aborted)
    case Confirmed => if fault == FaultAfter then Raised(Aborted) else Returned
  }

  /** `process_payment` and `retry_payment` up to the answer of the processor. */
  function PaymentStep(s: State, draw: real, fault: Fault): State {
    match Current(s)
    case Some(ProcessPayment(id)) =>
      if fault == FaultBefore then Enters(s, Raised(Aborted))
      else Enters(Confirm(s, id, None, Attempt(draw, fault), Worker(s.q.worker.job)),
                  ConfirmPhase(ConfirmResultOf(s, id, Attempt(draw, fault)), fault, Returned))
    case Some(RetryPayment(id)) =>
      if fault == FaultBefore then Enters(s, Raised(Aborted))
      else if id in s.payments && s.payments[id].retryCount >= s.max
      then Enters(MarkExhausted(s, id), MarkPhase(s, id, fault))
      else Enters(Confirm(s, id, None, Attempt(draw, fault), Worker(s.q.worker.job)),
                  ConfirmPhase(ConfirmResultOf(s, id, Attempt(draw, fault)), fault, Raised(RowMissing)))
    case _ => s
  }

  /** The task and attempt count of a payment handler that saw a soft failure. */
  function SoftTask(s: State): Option<(Task, nat)> {
    if s.q.worker.Busy? && s.q.worker.phase.Soft? && s.q.worker.job in s.q.jobs
    then Some((s.q.jobs[s.q.worker.job].task, s.q.worker.phase.count)) else None
  }

  function NextRetryAt(now: real, count: nat, jitter: real): real {
    now + (Pow2(count) + jitter)
  }

  function ScheduleRetry(s: State, id: nat, count: nat, jitter: real): State {
    s.(next := s.next + 1,
       q := Enter(Enqueue(s.q, s.next, RetryPayment(id), NextRetryAt(s.clock, count, jitter)), Returned))
  }

  /** The rest of a payment handler after a soft failure: schedule the next attempt, or give up. */
  function SoftStep(s: State, jitter: real, fault: Fault): State {
    match SoftTask(s)
    case Some((ProcessPayment(id), n)) =>
      if fault != NoFault then Enters(s, Raised(Aborted)) else ScheduleRetry(s, id, n, jitter)
    case Some((RetryPayment(id), n)) =>
      if fault != NoFault then Enters(s, Raised(Aborted))
      else if n >= s.max then Enters(MarkExhausted(s, id), MarkPhase(s, id, fault))
      else ScheduleRetry(s, id, n, jitter)
    case _ => s
  }

  predicate Listening(s: State, customer: string, endpoint: nat) {
    endpoint in s.endpoints && s.endpoints[endpoint].client == customer && s.endpoints[endpoint].active
  }

  /** The dispatcher's SELECT: the customer's active endpoints, each once, in any order. */
  predicate Audience(s: State, customer: string, ids: seq<nat>) {
    && (forall i :: 0 <= i < |ids| ==> Listening(s, customer, ids[i]))
    && (forall e :: e in s.endpoints && Listening(s, customer, e) ==> e in ids)
    && (forall i, k :: 0 <= i < k < |ids| ==> ids[i] != ids[k])
  }

  /** The delivery jobs the fan-out over `n` endpoints commits one by one, the first `k` of them:
      event ids are `base .. base + n`, job ids `base + n .. base + 2 * n`. */
  function FanoutRow(j: nat, n: nat, now: real): Job
    requires n <= j
  {
    NewJob(DeliverWebhook(j - n), now)
  }

  function FanoutRows(base: nat, n: nat, k: nat, now: real): map<nat, Job>
    requires k <= n
  {
    map j | j in Range(base + n, k) :: FanoutRow(j, n, now)
  }

  function FanoutTails(base: nat, n: nat, k: nat, now: real): seq<Tail> {
    seq(k, i requires 0 <= i < k => Tail(base + n + i, Some(now)))
  }

  function FanoutJobs(s: State, n: nat, k: nat): State
    requires k <= n
  {
    s.(next := s.next + 2 * n,
       q := Insert(s.q, FanoutRows(s.next, n, k, s.clock), FanoutTails(s.next, n, k, s.clock)))
  }

  function FanoutEvents(base: nat, refund: nat, ids: seq<nat>): map<nat, Event> {
    map e | e in Range(base, |ids|) :: NewEvent(ids[e - base], refund)
  }

  /** The session's own commit: the refund's completion and its events, in one transaction. */
  function Commit(s: State, base: nat, refund: nat, ids: seq<nat>): State
    requires refund in s.refunds
  {
    s.(refunds := s.refunds[refund := s.refunds[refund].(status := RefundStatus.Completed)],
       events := s.events + FanoutEvents(base, refund, ids),
       posts := s.posts + (map e | e in Range(base, |ids|) :: []))
  }

  /** One delivery job per endpoint, each committed on its own, and then the commit. */
  function Complete(s: State, refund: nat, ids: seq<nat>): State
    requires refund in s.refunds
  {
    Commit(FanoutJobs(s, |ids|, |ids|), s.next, refund, ids)
  }

  function Fail(s: State, refund: nat): State
    requires refund in s.refunds
  {
    s.(refunds := s.refunds[refund := s.refunds[refund].(status := RefundStatus.Failed)])
  }

  /** An exception in `process_refund`: none, one that rolls everything back after some delivery
      jobs were already committed by their own sessions, or one after the commit. */
  datatype Cut = NoCut | CutDuring(enqueued: nat) | CutAfter

  function Leave(cut: Cut): Phase {
    if cut == CutAfter then Raised(Aborted) else Returned
  }

  /** The refund processor declined. */
  function FailRun(s: State, id: nat, cut: Cut): State
    requires id in s.refunds
  {
    if cut.CutDuring? then Enters(s, Raised(Aborted)) else Enters(Fail(s, id), Leave(cut))
  }

  /** The refund processor succeeded, and the dispatcher fans out over `ids`. */
  function CompleteRun(s: State, id: nat, ids: seq<nat>, cut: Cut): State
    requires id in s.refunds
  {
    if !cut.CutDuring? then Enters(Complete(s, id, ids), Leave(cut))
    else if cut.enqueued <= |ids| then Enters(FanoutJobs(s, |ids|, cut.enqueued), Raised(Aborted))
    else s
  }

  /** `process_refund` on a refund that exists. */
  function RefundRun(s: State, id: nat, draw: real, ids: seq<nat>, cut: Cut): State
    requires id in s.refunds
  {
    if Refunds.Terminal(s.refunds[id].status) then Enters(s, Leave(cut))
    else if !Refunds.Allowed(s.refunds[id].status, RefundStatus.Processing) then Enters(s, Raised(InvalidTransition))
    else if draw >= 0.95 then FailRun(s, id, cut)
    else if s.refunds[id].payment !in s.payments then CompleteRun(s, id, [], cut)
    else if Audience(s, s.payments[s.refunds[id].payment].customer, ids) then CompleteRun(s, id, ids, cut)
    else s
  }

  /** `process_refund` as a job, with the endpoints its dispatcher finds. */
  function RefundStep(s: State, draw: real, ids: seq<nat>, cut: Cut): State {
    match Current(s)
    case Some(ProcessRefund(id)) =>
      if id !in s.refunds then Enters(s, Raised(RowMissing)) else RefundRun(s, id, draw, ids, cut)
    case _ => s
  }

  /** An exception in `deliver_webhook`: before the POST, or after it but before the commit. */
  datatype DeliveryCut = NoDeliveryCut | CutBeforePost | CutAfterPost

  function PostsOf(s: State, event: nat): seq<Post> {
    if event in s.posts then s.posts[event] else []
  }

  /** The event's row was written: the handler is done, or enqueues the next delivery first. */
  function Record(s: State, event: nat, e: Event): State
    requires event in s.events
  {
    var s1 := s.(events := s.events[event := e]);
    if e.status == EventStatus.Failed && e.nextRetryAt.Some?
    then s1.(next := s.next + 1, q := Enter(Enqueue(s.q, s.next, DeliverWebhook(event), e.nextRetryAt.value), Returned))
    else Enters(s1, Returned)
  }

  /** The POST went out and came back `elapsed` seconds later. */
  function Sent(s: State, event: nat, ok: bool, elapsed: real, recorded: bool): State {
    s.(clock := s.clock + elapsed, posts := s.posts[event := PostsOf(s, event) + [Post(ok, recorded, s.clock)]])
  }

  /** `deliver` on an event that exists. */
  function DeliverRun(s: State, id: nat, ok: bool, elapsed: real, jitter: real, cut: DeliveryCut): State
    requires id in s.events
  {
    if s.events[id].endpoint !in s.endpoints || !s.endpoints[s.events[id].endpoint].active then
      Record(s, id, Undeliverable(s.events[id], s.clock))
    else if cut == CutAfterPost then Enters(Sent(s, id, ok, elapsed, false), Raised(Aborted))
    else Record(Sent(s, id, ok, elapsed, true), id, AfterPost(s.events[id], ok, jitter, s.clock))
  }

  /** `deliver_webhook`. */
  function DeliverStep(s: State, ok: bool, elapsed: real, jitter: real, cut: DeliveryCut): State {
    match Current(s)
    case Some(DeliverWebhook(id)) =>
      if cut == CutBeforePost then Enters(s, Raised(Aborted))
      else if id !in s.events then Enters(s, Returned)
      else DeliverRun(s, id, ok, elapsed, jitter, cut)
    case _ => s
  }

  // ---------------------------------------------------------------- actions

  datatype Action =
    | Tick(to: real)
    | CreateRequest(customer: string, cents: real, metadata: Option<string>, key: string)
    | ConfirmRequest(payment: nat, metadata: Option<string>, draw: real, cutShort: bool)
    | RefundRequest(payment: nat, asked: Option<real>, key: string)
    | RegisterEndpoint(client: string)
    | DeactivateEndpoint(endpoint: nat)
    | OperatorRetry(job: nat)
    | PollJobs(ids: seq<nat>)
    | ResumeTail(i: nat)
    | RestartProcess
    | TakeJob
    | RunPayment(draw: real, fault: Fault)
    | RunSoft(jitter: real, fault: Fault)
    | RunRefund(draw: real, ids: seq<nat>, cut: Cut)
    | RunDelivery(ok: bool, elapsed: real, jitter: real, deliveryCut: DeliveryCut)
    | FinishJob

  predicate Jitter(x: real) { 0.0 <= x < 1.0 }

  /** One step. An action whose guard fails (an amount the schema refuses, a list no SELECT could
      return, a step of a handler that is not in flight) changes nothing. */
  ghost function Next(s: State, a: Action): State {
    match a
    case Tick(to) => if to >= s.clock then s.(clock := to) else s
    case CreateRequest(customer, cents, metadata, key) =>
      if cents > 0.0 then Create(s, customer, cents, metadata, key) else s
    case ConfirmRequest(id, metadata, draw, cut) => Confirm(s, id, metadata, Classify(draw, cut), Http)
    case RefundRequest(id, cents, key) => if cents.Some? && cents.value <= 0.0 then s else Initiate(s, id, cents, key)
    case RegisterEndpoint(client) => s.(next := s.next + 1, endpoints := s.endpoints[s.next := Endpoint(client, true)])
    case DeactivateEndpoint(e) =>
      if e in s.endpoints then s.(endpoints := s.endpoints[e := s.endpoints[e].(active := false)]) else s
    case OperatorRetry(j) =>
      if j in s.q.jobs && s.q.jobs[j].status == JobStatus.Dead then s.(q := Reset(s.q, s.clock, j)) else s
    case PollJobs(ids) => if Selection(s.q, s.clock, ids) then s.(q := Poll(s.q, ids)) else s
    case ResumeTail(i) => if i < |s.q.tails| then s.(q := Resume(s.q, s.clock, i)) else s
    case RestartProcess => s.(q := Restart(s.q))
    case TakeJob => s.(q := Take(s.q))
    case RunPayment(draw, fault) => PaymentStep(s, draw, fault)
    case RunSoft(jitter, fault) => if Jitter(jitter) then SoftStep(s, jitter, fault) else s
    case RunRefund(draw, ids, cut) => RefundStep(s, draw, ids, cut)
    case RunDelivery(ok, elapsed, jitter, cut) =>
      if Jitter(jitter) && elapsed >= 0.0 then DeliverStep(s, ok, elapsed, jitter, cut) else s
    case FinishJob => s.(q := Finish(s.q, s.clock))
  }

  /** The state a run of actions ends in. */
  ghost function Exec(s: State, run: seq<Action>): State {
    if run == [] then s else Next(Exec(s, run[..|run| - 1]), run[|run| - 1])
  }
}
