/** Every step of a handler, cut short or not, keeps the invariant. */
module HandlerSteps {
  import opened Common
  import opened Payments
  import opened Jobs
  import opened Refunds
  import opened Webhooks
  import opened System
  import opened Invariants
  import opened Preservation

  // ---------------------------------------------------------------- how handlers leave

  /** A handler is in flight and has neither returned nor raised. */
  ghost predicate InFlight(s: State) {
    s.q.worker.Busy? && (s.q.worker.phase == Started || s.q.worker.phase.Soft?)
  }

  /** What the handler in flight works on. */
  function Aim(s: State): Target
    requires s.q.worker.Busy? && s.q.worker.job in s.q.jobs
  {
    TargetOf(s.q.jobs[s.q.worker.job].task)
  }

  lemma FlightCarries(s: State)
    requires QueueInv(s.q, s.clock) && InFlight(s)
    ensures s.q.worker.job in s.q.jobs && s.q.jobs[s.q.worker.job].status == Running
    ensures Carries(s.q, s.q.worker.job, Aim(s)) && s.q.jobs[s.q.worker.job].runAt <= s.clock
  {
    assert JobOk(s.q, s.clock, s.q.worker.job);
  }

  lemma RaiseKeeps(s: State, error: Cause)
    requires Inv(s) && InFlight(s)
    ensures Inv(Enters(s, Raised(error)))
  {
    RaiseIsQuiet(s.q, error);
    EnterKeepsQueue(s.q, s.clock, Raised(error));
    QuietKeeps(s, Enter(s.q, Raised(error)));
  }

  lemma SoftIsCalm(q: Queue, n: nat)
    requires q.worker.Busy? && q.worker.phase == Started
    ensures Calm(q, Enter(q, Phase.Soft(n)))
  {}

  lemma SoftKeeps(s: State, n: nat)
    requires Inv(s) && InFlight(s) && s.q.worker.phase == Started
    requires SoftOk(Enters(s, Phase.Soft(n)))
    ensures Inv(Enters(s, Phase.Soft(n)))
  {
    hide Rows;
    SoftIsCalm(s.q, n);
    EnterKeepsQueue(s.q, s.clock, Phase.Soft(n));
    CalmKeeps(s, Enter(s.q, Phase.Soft(n)));
  }

  lemma NothingInserted(q: Queue)
    ensures Insert(q, map[], []) == q
  {
    var none: map<nat, Job> := map[];
    assert q.starts + (map j | j in none :: 0) == q.starts;
  }

  lemma ReturnLink(s: State)
    requires LinkOk(s) && QueueInv(s.q, s.clock) && InFlight(s) && !IsOpen(s, Aim(s))
    ensures LinkOk(Enters(s, Returned))
  {
    FlightCarries(s);
    NothingInserted(s.q);
    AdvanceLink(s, Enters(s, Returned), map[], [], true);
  }

  lemma ReturnBackoff(s: State)
    requires BackoffOk(s) && QueueInv(s.q, s.clock) && InFlight(s)
    ensures BackoffOk(Enters(s, Returned))
  {
    NothingInserted(s.q);
    AdvanceBackoff(s, Enters(s, Returned), map[], [], true);
  }

  lemma SameIds(s: State, s': State)
    requires IdsOk(s) && s'.q.jobs == s.q.jobs && s'.next == s.next && s'.max == s.max
    requires s'.payments.Keys == s.payments.Keys && s'.refunds.Keys == s.refunds.Keys && s'.endpoints == s.endpoints
    requires s'.events.Keys == s.events.Keys && forall e :: e in s.events ==>
        s'.events[e].endpoint == s.events[e].endpoint
    ensures IdsOk(s')
  {
    forall j | j in s'.q.jobs ensures Known(s', s'.q.jobs[j].task) { assert Known(s, s.q.jobs[j].task); }
  }

  lemma ReturnFlow(s: State)
    requires IdsOk(s) && QueueInv(s.q, s.clock) && LinkOk(s) && BackoffOk(s) && InFlight(s) && !IsOpen(s, Aim(s))
    ensures var s' := Enters(s, Returned); IdsOk(s') && QueueInv(s'.q, s'.clock) && LinkOk(s') && BackoffOk(s')
  {
    ReturnLink(s);
    ReturnBackoff(s);
    SameIds(s, Enters(s, Returned));
    EnterKeepsQueue(s.q, s.clock, Returned);
  }

  /** A handler may return once the work it stands for is closed. */
  lemma ReturnKeeps(s: State)
    requires Inv(s) && InFlight(s) && !IsOpen(s, Aim(s))
    ensures Inv(Enters(s, Returned))
  {
    ReturnFlow(s);
  }

  // ---------------------------------------------------------------- payment handlers

  lemma ConfirmSettles(s: State, id: nat, metadata: Option<string>, outcome: Outcome, source: Caller)
    requires ConfirmResultOf(s, id, outcome) == Confirmed
    ensures !IsOpen(Confirm(s, id, metadata, outcome, source), PaymentTarget(id))
  {}

  lemma ConfirmSoft(s: State, id: nat, outcome: Outcome)
    requires PaymentsOk(s.max, s.payments, s.calls) && InFlight(s) && s.q.worker.job in s.q.jobs
    requires Aim(s) == PaymentTarget(id)
    requires ConfirmResultOf(s, id, outcome).SoftRaised?
    ensures SoftOk(Enters(Confirm(s, id, None, outcome, Worker(s.q.worker.job)),
        Phase.Soft(ConfirmResultOf(s, id, outcome).count)))
  {
    LastSnoc(s.calls[id], Payments.Call(outcome, s.clock, Worker(s.q.worker.job)));
    assert Follows(s.payments[id], s.calls[id], s.max);
  }

  /** The phase a handler may enter: it may return only when its work is closed, and remember a
      soft failure only right after the call that failed. */
  ghost predicate MayEnter(s: State, phase: Phase) {
    && InFlight(s) && s.q.worker.job in s.q.jobs && phase != Started
    && (phase == Returned ==> !IsOpen(s, Aim(s)))
    && (phase.Soft? ==> s.q.worker.phase == Started && SoftOk(Enters(s, phase)))
  }

  lemma EnterKeeps(s: State, phase: Phase)
    requires Inv(s) && MayEnter(s, phase)
    ensures Inv(Enters(s, phase))
  {
    match phase
    case Soft(n) => SoftKeeps(s, n);
    case Raised(error) => RaiseKeeps(s, error);
    case Returned => ReturnKeeps(s);
  }

  lemma ConfirmKeepsQueue(s: State, id: nat, outcome: Outcome)
    ensures Confirm(s, id, None, outcome, Worker(if s.q.worker.Busy? then s.q.worker.job else 0)).q == s.q
  {
    hide Settled, CallsOf;
  }

  /** What `confirm_payment` leaves open: nothing, if it says that it is done or knows no such payment. */
  lemma ConfirmCloses(s: State, id: nat, outcome: Outcome)
    requires ConfirmResultOf(s, id, outcome) == Confirmed || ConfirmResultOf(s, id, outcome) == PaymentNotFound
    requires s.q.worker.Busy?
    ensures !IsOpen(Confirm(s, id, None, outcome, Worker(s.q.worker.job)), PaymentTarget(id))
  {
    if ConfirmResultOf(s, id, outcome) == Confirmed { ConfirmSettles(s, id, None, outcome, Worker(s.q.worker.job)); }
  }

  lemma PhaseSays(s: State, id: nat, outcome: Outcome, fault: Fault, missing: Phase)
    requires missing == Returned || missing.Raised?
    ensures var r := ConfirmResultOf(s, id, outcome);
      var phase := ConfirmPhase(r, fault, missing);
      && phase != Started
      && (phase == Returned ==> r == Confirmed || r == PaymentNotFound)
      && (phase.Soft? ==> r.SoftRaised? && phase.count == r.count)
  {}

  lemma ConfirmEnters(s: State, id: nat, outcome: Outcome, fault: Fault, missing: Phase)
    requires PaymentsOk(s.max, s.payments, s.calls) && InFlight(s) && s.q.worker.phase == Started
    requires s.q.worker.job in s.q.jobs && Aim(s) == PaymentTarget(id)
    requires missing == Returned || missing.Raised?
    ensures MayEnter(Confirm(s, id, None, outcome, Worker(s.q.worker.job)),
                     ConfirmPhase(ConfirmResultOf(s, id, outcome), fault, missing))
  {
    hide Confirm, ConfirmResultOf, ConfirmPhase, Enters, PaymentsOk, SoftOk, IsOpen;
    var r := ConfirmResultOf(s, id, outcome);
    ConfirmKeepsQueue(s, id, outcome);
    PhaseSays(s, id, outcome, fault, missing);
    if r.SoftRaised? { ConfirmSoft(s, id, outcome); }
    if r == Confirmed || r == PaymentNotFound { ConfirmCloses(s, id, outcome); }
  }

  /** A payment handler that calls `confirm_payment` and leaves as the answer makes it. */
  lemma ConfirmLeave(s: State, id: nat, outcome: Outcome, fault: Fault, missing: Phase)
    requires Inv(s) && InFlight(s) && s.q.worker.phase == Started
    requires s.q.worker.job in s.q.jobs && Aim(s) == PaymentTarget(id)
    requires missing == Returned || missing.Raised?
    ensures Inv(Enters(Confirm(s, id, None, outcome, Worker(s.q.worker.job)),
        ConfirmPhase(ConfirmResultOf(s, id, outcome), fault, missing)))
  {
    FlightCarries(s);
    ConfirmKeeps(s, id, None, outcome, Worker(s.q.worker.job));
    ConfirmEnters(s, id, outcome, fault, missing);
    EnterKeeps(Confirm(s, id, None, outcome, Worker(s.q.worker.job)),
        ConfirmPhase(ConfirmResultOf(s, id, outcome), fault, missing));
  }

  // -------- a payment found at the ceiling

  lemma MarkPayments(s: State, id: nat)
    requires s.max >= 1 && PaymentsOk(s.max, s.payments, s.calls)
    requires id in s.payments && !Payments.Terminal(s.payments[id].status) && s.payments[id].retryCount >= s.max
    ensures PaymentsOk(s.max, s.payments[id := Exhausted(s.payments[id], s.clock)], s.calls)
  {
    ExhaustedFollows(s.payments[id], s.calls[id], s.max, s.clock);
  }

  lemma MarkRows(s: State, id: nat)
    requires Rows(s) && s.max >= 1
    requires id in s.payments && !Payments.Terminal(s.payments[id].status) && s.payments[id].retryCount >= s.max
    ensures Rows(MarkExhausted(s, id))
  {
    hide EventsOk;
    MarkPayments(s, id);
    hide PaymentsOk;
    ReplacedPayment(s.payments, s.records, s.refunds, s.next, id, Exhausted(s.payments[id], s.clock));
  }

  lemma MarkOpens(s: State, id: nat, t: Target)
    requires IsOpen(MarkExhausted(s, id), t)
    ensures IsOpen(s, t)
  {
    if id in s.payments { ExhaustedIsTerminal(s, id); }
    hide Exhausted;
  }

  lemma SameEventsLink(s: State, s': State)
    requires LinkOk(s) && s'.q == s.q && s'.events == s.events
    requires forall t :: IsOpen(s', t) ==> IsOpen(s, t)
    ensures LinkOk(s')
  {
    hide IsOpen;
    forall t | IsOpen(s', t) ensures Carried(s'.q, t) { assert IsOpen(s, t); }
    forall j, e | Carries(s'.q, j, EventTarget(e)) && e in s'.events ensures DeliveryOk(s', j, e) {
      assert DeliveryOk(s, j, e);
    }
  }

  lemma MarkLink(s: State, id: nat)
    requires LinkOk(s)
    ensures LinkOk(MarkExhausted(s, id))
  {
    var s' := MarkExhausted(s, id);
    assert s'.q == s.q && s'.events == s.events by { hide Exhausted; }
    hide MarkExhausted, LinkOk, IsOpen;
    forall t | IsOpen(s', t) ensures IsOpen(s, t) { MarkOpens(s, id, t); }
    SameEventsLink(s, s');
  }

  lemma ExhaustedIsTerminal(s: State, id: nat)
    requires id in s.payments
    ensures Payments.Terminal(MarkExhausted(s, id).payments[id].status)
  {}

  lemma MarkFlow(s: State, id: nat)
    requires Flow(s)
    ensures Flow(MarkExhausted(s, id))
  {
    var s' := MarkExhausted(s, id);
    assert s' == s.(payments := s'.payments) && s'.payments.Keys == s.payments.Keys;
    hide MarkExhausted;
    assert IdsOk(s') by { SameIds(s, s'); }
    assert LinkOk(s') by { MarkLink(s, id); }
    assert BackoffOk(s') by { assert SoftTask(s') == SoftTask(s); }
  }

  /** Failing a payment that has used up its attempts keeps every rule. */
  lemma MarkKeeps(s: State, id: nat)
    requires Inv(s) && id in s.payments && s.payments[id].retryCount >= s.max
    ensures Inv(MarkExhausted(s, id))
  {
    assert s.max >= 1;
    hide Rows, Flow, Exhausted;
    if !Payments.Terminal(s.payments[id].status) {
      MarkRows(s, id);
      MarkFlow(s, id);
    }
  }

  lemma MarkEnters(s: State, id: nat, fault: Fault)
    requires InFlight(s) && s.q.worker.job in s.q.jobs && Aim(s) == PaymentTarget(id) && id in s.payments
    ensures MayEnter(MarkExhausted(s, id), MarkPhase(s, id, fault))
  {
    ExhaustedIsTerminal(s, id);
  }

  lemma MarkLeave(s: State, id: nat, fault: Fault)
    requires Inv(s) && InFlight(s) && s.q.worker.job in s.q.jobs && Aim(s) == PaymentTarget(id)
    requires id in s.payments && s.payments[id].retryCount >= s.max
    ensures Inv(Enters(MarkExhausted(s, id), MarkPhase(s, id, fault)))
  {
    hide Rows, Flow, MayEnter, Enters;
    MarkKeeps(s, id);
    MarkEnters(s, id, fault);
    EnterKeeps(MarkExhausted(s, id), MarkPhase(s, id, fault));
  }

  lemma ProcessKeeps(s: State, id: nat, draw: real, fault: Fault)
    requires Inv(s) && Current(s) == Some(ProcessPayment(id))
    ensures Inv(PaymentStep(s, draw, fault))
  {
    hide Rows, Flow;
    if fault == FaultBefore {
      RaiseKeeps(s, Aborted);
    } else {
      ConfirmLeave(s, id, Attempt(draw, fault), fault, Returned);
    }
  }

  lemma RetryKeeps(s: State, id: nat, draw: real, fault: Fault)
    requires Inv(s) && Current(s) == Some(RetryPayment(id))
    ensures Inv(PaymentStep(s, draw, fault))
  {
    hide Rows, Flow;
    if fault == FaultBefore { RaiseKeeps(s, Aborted); }
    else if id in s.payments && s.payments[id].retryCount >= s.max { MarkLeave(s, id, fault); }
    else { ConfirmLeave(s, id, Attempt(draw, fault), fault, Raised(RowMissing)); }
  }

  lemma PaymentStepKeeps(s: State, draw: real, fault: Fault)
    requires Inv(s)
    ensures Inv(PaymentStep(s, draw, fault))
  {
    hide Rows, Flow;
    match Current(s)
    case Some(ProcessPayment(id)) => ProcessKeeps(s, id, draw, fault);
    case Some(RetryPayment(id)) => RetryKeeps(s, id, draw, fault);
    case _ =>
  }

  lemma ScheduleIds(s: State, id: nat, count: nat, jitter: real)
    requires IdsOk(s) && id in s.payments
    ensures IdsOk(ScheduleRetry(s, id, count, jitter))
  {
    var s' := ScheduleRetry(s, id, count, jitter);
    forall j | j in s'.q.jobs ensures Known(s', s'.q.jobs[j].task) {
      if j in s.q.jobs { assert Known(s, s.q.jobs[j].task); }
    }
  }

  lemma ScheduleLink(s: State, id: nat, count: nat, jitter: real)
    requires IdsOk(s) && LinkOk(s) && QueueInv(s.q, s.clock) && InFlight(s) && Aim(s) == PaymentTarget(id)
    ensures LinkOk(ScheduleRetry(s, id, count, jitter))
  {
    FlightCarries(s);
    assert s.next !in s.q.jobs;
    hide QueueInv, IdsOk, LinkOk, NextRetryAt, ScheduleRetry, FreshRows, Advance, Carries;
    var runAt := NextRetryAt(s.clock, count, jitter);
    var rows, tails := map[s.next := NewJob(RetryPayment(id), runAt)], [Tail(s.next, Some(runAt))];
    ScheduleShape(s, id, count, jitter, runAt, rows, tails);
    HandOver(s, ScheduleRetry(s, id, count, jitter), s.next, PaymentTarget(id), rows, tails);
  }

  /** A handler passes its payment on to one new row. */
  lemma HandOver(s: State, s': State, next: nat, t: Target, rows: map<nat, Job>, tails: seq<Tail>)
    requires LinkOk(s) && FreshRows(s.q, rows, tails) && MayClose(s.q, true)
    requires Carries(s.q, s.q.worker.job, t) && t.PaymentTarget?
    requires s'.q == Advance(s.q, rows, tails, true)
    requires rows.Keys == {next} && TargetOf(rows[next].task) == t
    requires s'.payments == s.payments && s'.refunds == s.refunds && s'.events == s.events
    ensures LinkOk(s')
  {
    forall u | IsOpen(s', u)
      ensures (IsOpen(s, u) && !Carries(s.q, s.q.worker.job, u))
           || (exists j :: j in rows && TargetOf(rows[j].task) == u)
    {
      assert IsOpen(s, u);
      if Carries(s.q, s.q.worker.job, u) { assert TargetOf(rows[next].task) == u; }
    }
    AdvanceLink(s, s', rows, tails, true);
  }

  /** The next attempt waits long enough after the soft failure that the handler saw. */
  lemma RetryWaits(s: State, id: nat, count: nat, jitter: real)
    requires BackoffOk(s) && Jitter(jitter)
    requires SoftTask(s).Some? && TargetOf(SoftTask(s).value.0) == PaymentTarget(id) && SoftTask(s).value.1 == count
    ensures id in s.calls && Waits(s.calls[id], s.next, NextRetryAt(s.clock, count, jitter))
  {
    assert Timed(s.calls[id], s.clock);
  }

  lemma InFlightRuns(s: State)
    requires QueueInv(s.q, s.clock) && SoftTask(s).Some?
    ensures s.q.worker.Busy? && s.q.worker.job in s.q.jobs && s.q.worker.phase.Soft?
  {
    hide QueueInv;
  }

  lemma ScheduleShape(s: State, id: nat, count: nat, jitter: real, runAt: real, rows: map<nat, Job>, tails: seq<Tail>)
    requires runAt == NextRetryAt(s.clock, count, jitter) && s.next !in s.q.jobs
    requires rows == map[s.next := NewJob(RetryPayment(id), runAt)] && tails == [Tail(s.next, Some(runAt))]
    ensures ScheduleRetry(s, id, count, jitter) == s.(next := s.next + 1, q := Advance(s.q, rows, tails, true))
    ensures FreshRows(s.q, rows, tails)
  {
    hide NextRetryAt, Insert, Enter;
  }

  lemma ScheduleBackoff(s: State, id: nat, count: nat, jitter: real)
    requires BackoffOk(s) && QueueInv(s.q, s.clock) && s.next !in s.q.jobs && Jitter(jitter)
    requires SoftTask(s).Some? && TargetOf(SoftTask(s).value.0) == PaymentTarget(id) && SoftTask(s).value.1 == count
    ensures BackoffOk(ScheduleRetry(s, id, count, jitter))
  {
    hide Waits, BackoffOk, NextRetryAt, ScheduleRetry, QueueInv, FreshRows, Advance;
    RetryWaits(s, id, count, jitter);
    InFlightRuns(s);
    var runAt := NextRetryAt(s.clock, count, jitter);
    var rows, tails := map[s.next := NewJob(RetryPayment(id), runAt)], [Tail(s.next, Some(runAt))];
    ScheduleShape(s, id, count, jitter, runAt, rows, tails);
    AdvanceBackoff(s, ScheduleRetry(s, id, count, jitter), rows, tails, true);
  }

  lemma ScheduleQueue(s: State, id: nat, count: nat, jitter: real)
    requires QueueInv(s.q, s.clock) && s.next !in s.q.jobs
    ensures QueueInv(ScheduleRetry(s, id, count, jitter).q, s.clock)
  {
    var runAt := NextRetryAt(s.clock, count, jitter);
    EnqueueQueue(s.q, s.clock, s.next, RetryPayment(id), runAt);
    EnterKeepsQueue(Enqueue(s.q, s.next, RetryPayment(id), runAt), s.clock, Returned);
  }

  lemma ScheduleFlow(s: State, id: nat, count: nat, jitter: real)
    requires Flow(s) && Jitter(jitter)
    requires SoftTask(s).Some? && TargetOf(SoftTask(s).value.0) == PaymentTarget(id) && SoftTask(s).value.1 == count
    ensures Flow(ScheduleRetry(s, id, count, jitter))
  {
    hide QueueInv, LinkOk, BackoffOk;
    assert Known(s, SoftTask(s).value.0);
    ScheduleIds(s, id, count, jitter);
    ScheduleLink(s, id, count, jitter);
    ScheduleBackoff(s, id, count, jitter);
    ScheduleQueue(s, id, count, jitter);
  }

  lemma ScheduleKeeps(s: State, id: nat, count: nat, jitter: real)
    requires Inv(s) && Jitter(jitter)
    requires SoftTask(s).Some? && TargetOf(SoftTask(s).value.0) == PaymentTarget(id) && SoftTask(s).value.1 == count
    ensures Inv(ScheduleRetry(s, id, count, jitter))
  {
    hide Rows, Flow;
    ScheduleFlow(s, id, count, jitter);
    TablesKeep(s, s.next + 1, ScheduleRetry(s, id, count, jitter).q);
  }

  /** A handler that remembers `max` soft failures looks at a payment that has reached the ceiling. */
  lemma SoftCeiling(s: State, id: nat, n: nat)
    requires Inv(s)
    requires SoftTask(s) == Some((RetryPayment(id), n)) && n >= s.max
    ensures id in s.payments && s.payments[id].retryCount >= s.max
  {
    hide IdsOk, QueueInv, LinkOk, RecordsOk, RefundsOk, EventsOk;
    assert Follows(s.payments[id], s.calls[id], s.max);
  }

  lemma SoftStepKeeps(s: State, jitter: real, fault: Fault)
    requires Inv(s) && Jitter(jitter)
    ensures Inv(SoftStep(s, jitter, fault))
  {
    hide Rows, Flow;
    match SoftTask(s)
    case Some((ProcessPayment(id), n)) =>
      if fault != NoFault { RaiseKeeps(s, Aborted); } else { ScheduleKeeps(s, id, n, jitter); }
    case Some((RetryPayment(id), n)) =>
      if fault != NoFault { RaiseKeeps(s, Aborted); }
      else if n >= s.max { SoftCeiling(s, id, n); MarkLeave(s, id, fault); }
      else { ScheduleKeeps(s, id, n, jitter); }
    case _ =>
  }

  // ---------------------------------------------------------------- the refund handler

  lemma FanoutShape(base: nat, n: nat, k: nat, now: real)
    requires k <= n
    ensures var rows := FanoutRows(base, n, k, now);
      && (forall j :: j in rows <==> base + n <= j < base + n + k)
      && (forall j :: j in rows ==> rows[j] == NewJob(DeliverWebhook(j - n), now))
    ensures var tails := FanoutTails(base, n, k, now);
      |tails| == k && forall i :: 0 <= i < k ==> tails[i] == Tail(base + n + i, Some(now))
  {
    forall j: nat | base + n <= j < base + n + k ensures j in FanoutRows(base, n, k, now) {
      assert j in Range(base + n, k);
    }
  }

  lemma FanoutFresh(s: State, n: nat, k: nat)
    requires IdsOk(s) && k <= n
    ensures FreshRows(s.q, FanoutRows(s.next, n, k, s.clock), FanoutTails(s.next, n, k, s.clock))
    ensures forall j, i :: j in FanoutRows(s.next, n, k, s.clock) ==>
        !Carries(s.q, i, TargetOf(FanoutRows(s.next, n, k, s.clock)[j].task))
  {
    FanoutShape(s.next, n, k, s.clock);
    var rows, tails := FanoutRows(s.next, n, k, s.clock), FanoutTails(s.next, n, k, s.clock);
    forall i | 0 <= i < |tails| ensures tails[i].job in rows && tails[i].ifDue == Some(rows[tails[i].job].runAt) {
      assert s.next + n + i in rows;
    }
    forall j, i | j in rows ensures !Carries(s.q, i, TargetOf(rows[j].task)) {
      Uncarried(s, TargetOf(rows[j].task));
    }
  }

  lemma FanoutIds(s: State, n: nat, k: nat)
    requires IdsOk(s) && k <= n
    ensures IdsOk(FanoutJobs(s, n, k))
  {
    var s' := FanoutJobs(s, n, k);
    forall j | j in s'.q.jobs ensures Known(s', s'.q.jobs[j].task) {
      if j in s.q.jobs { assert Known(s, s.q.jobs[j].task); }
    }
  }

  lemma FanoutLink(s: State, n: nat, k: nat)
    requires IdsOk(s) && LinkOk(s) && (s.q.worker.Busy? ==> s.q.worker.job in s.q.jobs) && k <= n
    ensures LinkOk(FanoutJobs(s, n, k))
  {
    var s' := FanoutJobs(s, n, k);
    FanoutFresh(s, n, k);
    forall t | IsOpen(s', t) ensures IsOpen(s, t) {}
    AdvanceLink(s, s', FanoutRows(s.next, n, k, s.clock), FanoutTails(s.next, n, k, s.clock), false);
  }

  lemma FanoutWork(s: State, n: nat, k: nat)
    requires IdsOk(s) && QueueInv(s.q, s.clock) && BackoffOk(s) && k <= n
    ensures var s' := FanoutJobs(s, n, k); QueueInv(s'.q, s'.clock) && BackoffOk(s')
  {
    hide BackoffOk;
    var rows, tails := FanoutRows(s.next, n, k, s.clock), FanoutTails(s.next, n, k, s.clock);
    FanoutShape(s.next, n, k, s.clock);
    FanoutFresh(s, n, k);
    AdvanceQueue(s.q, s.clock, rows, tails, false);
    AdvanceBackoff(s, FanoutJobs(s, n, k), rows, tails, false);
  }

  lemma FanoutFlow(s: State, n: nat, k: nat)
    requires Flow(s) && k <= n
    ensures Flow(FanoutJobs(s, n, k))
  {
    FanoutIds(s, n, k);
    FanoutLink(s, n, k);
    FanoutWork(s, n, k);
  }

  /** Handing out ids for jobs leaves the tables as good as they were. */
  lemma TablesKeep(s: State, later: nat, q: Queue)
    requires Rows(s) && s.next <= later
    ensures Rows(s.(next := later, q := q))
  {
    TotalsKeep(s.payments, s.refunds, s.next, later);
  }

  /** Delivery jobs whose events never come to exist disturb nothing. */
  lemma FanoutKeeps(s: State, n: nat, k: nat)
    requires Inv(s) && k <= n
    ensures Inv(FanoutJobs(s, n, k))
  {
    var s' := FanoutJobs(s, n, k);
    TablesKeep(s, s'.next, s'.q);
    FanoutFlow(s, n, k);
  }

  lemma StatusRows(payments: map<nat, Payment>, refunds: map<nat, Refund>, next: nat, id: nat, status: RefundStatus,
                   later: nat)
    requires RefundsOk(payments, refunds, next) && next <= later
    requires id in refunds && refunds[id].status != RefundStatus.Failed && status != RefundStatus.Processing
    ensures RefundsOk(payments, refunds[id := refunds[id].(status := status)], later)
  {
    hide Held, HeldPart;
    var after := refunds[id := refunds[id].(status := status)];
    forall p | p in payments ensures Held(after, p, later) <= payments[p].amount {
      StatusMoves(refunds, id, status, p, next);
      TotalsExtend(after, p, next, later);
    }
  }

  lemma StatusEvents(events: map<nat, Event>, posts: map<nat, seq<Post>>, refunds: map<nat, Refund>,
                     endpoints: map<nat, Endpoint>, id: nat, status: RefundStatus)
    requires EventsOk(events, posts, refunds, endpoints) && id in refunds
    requires refunds[id].status != RefundStatus.Completed
    ensures EventsOk(events, posts, refunds[id := refunds[id].(status := status)], endpoints)
  {
    var after := refunds[id := refunds[id].(status := status)];
    forall e | e in events ensures EventRowOk(events[e], posts[e], after, endpoints) {
      assert EventRowOk(events[e], posts[e], refunds, endpoints);
    }
  }

  lemma FailRows(s: State, id: nat)
    requires Rows(s) && id in s.refunds && s.refunds[id].status == RefundStatus.Pending
    ensures Rows(Fail(s, id))
  {
    StatusRows(s.payments, s.refunds, s.next, id, RefundStatus.Failed, s.next);
    StatusEvents(s.events, s.posts, s.refunds, s.endpoints, id, RefundStatus.Failed);
  }

  lemma FailFlow(s: State, id: nat)
    requires Flow(s) && id in s.refunds
    ensures Flow(Fail(s, id))
  {
    var s' := Fail(s, id);
    SameIds(s, s');
    forall t | IsOpen(s', t) ensures Carried(s'.q, t) { assert IsOpen(s, t); }
    forall j, e | Carries(s'.q, j, EventTarget(e)) && e in s'.events ensures DeliveryOk(s', j, e) {
      assert DeliveryOk(s, j, e);
    }
    assert SoftTask(s') == SoftTask(s);
  }

  lemma FailKeeps(s: State, id: nat)
    requires Inv(s) && id in s.refunds && s.refunds[id].status == RefundStatus.Pending
    ensures Inv(Fail(s, id))
  {
    FailRows(s, id);
    FailFlow(s, id);
  }

  lemma EventsShape(base: nat, refund: nat, ids: seq<nat>)
    ensures var es := FanoutEvents(base, refund, ids);
      && (forall e :: e in es <==> base <= e < base + |ids|)
      && (forall e :: e in es ==> es[e] == NewEvent(ids[e - base], refund))
  {}

  /** What the commit of a completed refund relies on. */
  ghost predicate MayCommit(s: State, base: nat, id: nat, ids: seq<nat>) {
    && id in s.refunds && s.refunds[id].status == RefundStatus.Pending
    && base + |ids| <= s.next
    && (forall e :: base <= e < base + |ids| ==> e !in s.events && Carries(s.q, e + |ids|, EventTarget(e)))
    && (forall i :: 0 <= i < |ids| ==> ids[i] in s.endpoints)
    && (forall i, k :: 0 <= i < k < |ids| ==> ids[i] != ids[k])
  }

  lemma NewEventOk(endpoint: nat, refund: nat, refunds: map<nat, Refund>, endpoints: map<nat, Endpoint>)
    requires refund in refunds && refunds[refund].status == RefundStatus.Completed
    ensures EventRowOk(NewEvent(endpoint, refund), [], refunds, endpoints)
  {}

  lemma CommitEvents(events: map<nat, Event>, posts: map<nat, seq<Post>>, refunds: map<nat, Refund>,
                     endpoints: map<nat, Endpoint>, base: nat, id: nat, ids: seq<nat>)
    requires EventsOk(events, posts, refunds, endpoints) && id in refunds
    requires refunds[id].status == RefundStatus.Completed
    requires forall e :: base <= e < base + |ids| ==> e !in events
    requires forall e :: e in events ==> events[e].refund != id
    requires forall i, k :: 0 <= i < k < |ids| ==> ids[i] != ids[k]
    ensures EventsOk(events + FanoutEvents(base, id, ids), posts + (map e | e in Range(base, |ids|) :: []),
                     refunds, endpoints)
  {
    hide EventRowOk;
    var events' := events + FanoutEvents(base, id, ids);
    var posts' := posts + (map e | e in Range(base, |ids|) :: []);
    EventsShape(base, id, ids);
    forall e | e in events' ensures EventRowOk(events'[e], posts'[e], refunds, endpoints) {
      if e in events {
        assert EventRowOk(events[e], posts[e], refunds, endpoints) && events'[e] == events[e] && posts'[e] == posts[e];
      } else {
        NewEventOk(ids[e - base], id, refunds, endpoints);
        assert events'[e] == NewEvent(ids[e - base], id) && posts'[e] == [];
      }
    }
    forall e, f | e in events' && f in events'
                  && events'[e].refund == events'[f].refund && events'[e].endpoint == events'[f].endpoint
      ensures e == f
    {
      if e !in events && f !in events { assert ids[e - base] == ids[f - base]; }
    }
  }

  lemma CommitOpen(s: State, base: nat, id: nat, ids: seq<nat>, t: Target)
    requires LinkOk(s) && MayCommit(s, base, id, ids) && IsOpen(Commit(s, base, id, ids), t)
    ensures Carried(s.q, t)
  {
    hide Carries, DeliveryOk;
    match t
    case EventTarget(e) =>
      EventsShape(base, id, ids);
      if base <= e < base + |ids| { assert Carries(s.q, e + |ids|, t); } else { assert IsOpen(s, t); }
    case RefundTarget(r) => assert IsOpen(s, t);
    case PaymentTarget(p) => assert IsOpen(s, t);
  }

  lemma CommitDelivery(s: State, base: nat, id: nat, ids: seq<nat>, j: nat, e: nat)
    requires LinkOk(s) && MayCommit(s, base, id, ids) && id in s.refunds
    requires Carries(s.q, j, EventTarget(e)) && e in Commit(s, base, id, ids).events
    ensures DeliveryOk(Commit(s, base, id, ids), j, e)
  {
    EventsShape(base, id, ids);
    if e in s.events { assert DeliveryOk(s, j, e); }
  }

  lemma CommitLink(s: State, base: nat, id: nat, ids: seq<nat>)
    requires LinkOk(s) && MayCommit(s, base, id, ids)
    ensures LinkOk(Commit(s, base, id, ids))
  {
    forall t | IsOpen(Commit(s, base, id, ids), t) ensures Carried(s.q, t) { CommitOpen(s, base, id, ids, t); }
    forall j, e | Carries(s.q, j, EventTarget(e)) && e in Commit(s, base, id, ids).events
      ensures DeliveryOk(Commit(s, base, id, ids), j, e)
    {
      CommitDelivery(s, base, id, ids, j, e);
    }
  }

  lemma CommitIds(s: State, base: nat, id: nat, ids: seq<nat>)
    requires IdsOk(s) && MayCommit(s, base, id, ids)
    ensures IdsOk(Commit(s, base, id, ids))
  {
    var s' := Commit(s, base, id, ids);
    EventsShape(base, id, ids);
    forall j | j in s'.q.jobs ensures Known(s', s'.q.jobs[j].task) { assert Known(s, s.q.jobs[j].task); }
  }

  lemma CommitRows(s: State, base: nat, id: nat, ids: seq<nat>)
    requires Rows(s) && MayCommit(s, base, id, ids)
    ensures Rows(Commit(s, base, id, ids))
  {
    StatusRows(s.payments, s.refunds, s.next, id, RefundStatus.Completed, s.next);
    StatusEvents(s.events, s.posts, s.refunds, s.endpoints, id, RefundStatus.Completed);
    CommitEvents(s.events, s.posts, s.refunds[id := s.refunds[id].(status := RefundStatus.Completed)], s.endpoints,
        base, id, ids);
  }

  lemma CommitFlow(s: State, base: nat, id: nat, ids: seq<nat>)
    requires Flow(s) && MayCommit(s, base, id, ids)
    ensures Flow(Commit(s, base, id, ids))
  {
    CommitLink(s, base, id, ids);
    CommitIds(s, base, id, ids);
    assert SoftTask(Commit(s, base, id, ids)) == SoftTask(s);
  }

  lemma CommitKeeps(s: State, base: nat, id: nat, ids: seq<nat>)
    requires Inv(s) && MayCommit(s, base, id, ids)
    ensures Inv(Commit(s, base, id, ids))
  {
    CommitRows(s, base, id, ids);
    CommitFlow(s, base, id, ids);
  }

  lemma FanoutCarries(s: State, n: nat, e: nat)
    requires IdsOk(s) && (s.q.worker.Busy? ==> s.q.worker.job in s.q.jobs) && s.next <= e < s.next + n
    ensures Carries(FanoutJobs(s, n, n).q, e + n, EventTarget(e))
  {
    hide Insert, FanoutRows, FanoutTails, Known;
    var rows, tails := FanoutRows(s.next, n, n, s.clock), FanoutTails(s.next, n, n, s.clock);
    FanoutShape(s.next, n, n, s.clock);
    FanoutFresh(s, n, n);
    hide FreshRows, Carries;
    AdvanceCarries(s.q, rows, tails, false, e + n, EventTarget(e));
  }

  lemma FanoutMayCommit(s: State, id: nat, ids: seq<nat>)
    requires IdsOk(s) && (s.q.worker.Busy? ==> s.q.worker.job in s.q.jobs)
    requires id in s.refunds && s.refunds[id].status == RefundStatus.Pending
    requires forall i :: 0 <= i < |ids| ==> ids[i] in s.endpoints
    requires forall i, k :: 0 <= i < k < |ids| ==> ids[i] != ids[k]
    ensures MayCommit(FanoutJobs(s, |ids|, |ids|), s.next, id, ids)
  {
    hide Insert, FanoutRows, FanoutTails, Known, Carries;
    forall e | s.next <= e < s.next + |ids| ensures Carries(FanoutJobs(s, |ids|, |ids|).q, e + |ids|, EventTarget(e)) {
      FanoutCarries(s, |ids|, e);
    }
  }

  lemma CompleteKeeps(s: State, id: nat, ids: seq<nat>)
    requires Inv(s) && id in s.refunds && s.refunds[id].status == RefundStatus.Pending
    requires forall i :: 0 <= i < |ids| ==> ids[i] in s.endpoints
    requires forall i, k :: 0 <= i < k < |ids| ==> ids[i] != ids[k]
    ensures Inv(Complete(s, id, ids))
  {
    hide Rows, LinkOk, BackoffOk;
    FanoutKeeps(s, |ids|, |ids|);
    FanoutMayCommit(s, id, ids);
    CommitKeeps(FanoutJobs(s, |ids|, |ids|), s.next, id, ids);
  }

  /** A refund job's refund exists, is never found half processed, and belongs to a payment. */
  lemma RefundKnown(s: State, id: nat)
    requires Inv(s) && Current(s) == Some(ProcessRefund(id))
    ensures id in s.refunds && s.refunds[id].payment in s.payments
    ensures s.refunds[id].status != RefundStatus.Processing
  {
    assert Known(s, ProcessRefund(id));
  }

  lemma FailEnters(s: State, id: nat, leave: Phase)
    requires Current(s) == Some(ProcessRefund(id)) && id in s.refunds && (leave == Returned || leave.Raised?)
    ensures MayEnter(Fail(s, id), leave)
  {}

  lemma FailLeave(s: State, id: nat, leave: Phase)
    requires Inv(s) && Current(s) == Some(ProcessRefund(id)) && id in s.refunds
    requires s.refunds[id].status == RefundStatus.Pending
    requires leave == Returned || leave.Raised?
    ensures Inv(Enters(Fail(s, id), leave))
  {
    FailKeeps(s, id);
    FailEnters(s, id, leave);
    EnterKeeps(Fail(s, id), leave);
  }

  lemma FanoutFlight(s: State, n: nat, k: nat)
    requires IdsOk(s) && InFlight(s) && s.q.worker.job in s.q.jobs && k <= n
    ensures var s' := FanoutJobs(s, n, k);
      s'.q.worker == s.q.worker && s'.q.worker.job in s'.q.jobs && Aim(s') == Aim(s)
  {
    FanoutFresh(s, n, k);
  }

  lemma CutLeave(s: State, n: nat, k: nat)
    requires Inv(s) && InFlight(s) && k <= n
    ensures Inv(Enters(FanoutJobs(s, n, k), Raised(Aborted)))
  {
    FanoutKeeps(s, n, k);
    FanoutFlight(s, n, k);
    RaiseKeeps(FanoutJobs(s, n, k), Aborted);
  }

  lemma CompleteEnters(s: State, id: nat, ids: seq<nat>, leave: Phase)
    requires IdsOk(s) && Current(s) == Some(ProcessRefund(id)) && id in s.refunds
    requires leave == Returned || leave.Raised?
    ensures MayEnter(Complete(s, id, ids), leave)
  {
    FanoutFlight(s, |ids|, |ids|);
  }

  lemma CompleteLeave(s: State, id: nat, ids: seq<nat>, leave: Phase)
    requires Inv(s) && Current(s) == Some(ProcessRefund(id)) && id in s.refunds
    requires s.refunds[id].status == RefundStatus.Pending
    requires forall i :: 0 <= i < |ids| ==> ids[i] in s.endpoints
    requires forall i, k :: 0 <= i < k < |ids| ==> ids[i] != ids[k]
    requires leave == Returned || leave.Raised?
    ensures Inv(Enters(Complete(s, id, ids), leave))
  {
    CompleteKeeps(s, id, ids);
    CompleteEnters(s, id, ids, leave);
    EnterKeeps(Complete(s, id, ids), leave);
  }

  lemma FailRunKeeps(s: State, id: nat, cut: Cut)
    requires Inv(s) && Current(s) == Some(ProcessRefund(id)) && id in s.refunds
    requires s.refunds[id].status == RefundStatus.Pending
    ensures Inv(FailRun(s, id, cut))
  {
    if cut.CutDuring? { RaiseKeeps(s, Aborted); } else { FailLeave(s, id, Leave(cut)); }
  }

  lemma CompleteRunKeeps(s: State, id: nat, ids: seq<nat>, cut: Cut)
    requires Inv(s) && Current(s) == Some(ProcessRefund(id)) && id in s.refunds
    requires s.refunds[id].status == RefundStatus.Pending
    requires forall i :: 0 <= i < |ids| ==> ids[i] in s.endpoints
    requires forall i, k :: 0 <= i < k < |ids| ==> ids[i] != ids[k]
    ensures Inv(CompleteRun(s, id, ids, cut))
  {
    hide Rows, Flow;
    if !cut.CutDuring? {
      CompleteLeave(s, id, ids, Leave(cut));
    } else if cut.enqueued <= |ids| {
      CutLeave(s, |ids|, cut.enqueued);
    }
  }

  lemma TerminalEnters(s: State, id: nat, cut: Cut)
    requires Current(s) == Some(ProcessRefund(id)) && id in s.refunds && Refunds.Terminal(s.refunds[id].status)
    ensures MayEnter(s, Leave(cut))
  {}

  lemma TerminalRunKeeps(s: State, id: nat, cut: Cut)
    requires Inv(s) && Current(s) == Some(ProcessRefund(id)) && id in s.refunds
    requires Refunds.Terminal(s.refunds[id].status)
    ensures Inv(Enters(s, Leave(cut)))
  {
    TerminalEnters(s, id, cut);
    EnterKeeps(s, Leave(cut));
  }

  lemma RefundRunKeeps(s: State, id: nat, draw: real, ids: seq<nat>, cut: Cut)
    requires Inv(s) && Current(s) == Some(ProcessRefund(id)) && id in s.refunds
    ensures Inv(RefundRun(s, id, draw, ids, cut))
  {
    hide Rows, Flow;
    RefundKnown(s, id);
    if Refunds.Terminal(s.refunds[id].status) {
      TerminalRunKeeps(s, id, cut);
    } else if draw >= 0.95 {
      FailRunKeeps(s, id, cut);
    } else if Audience(s, s.payments[s.refunds[id].payment].customer, ids) {
      CompleteRunKeeps(s, id, ids, cut);
    }
  }

  /** What the refund handler may do to a refund: nothing, fail it, or complete it with its events. */
  lemma RefundStepKeeps(s: State, draw: real, ids: seq<nat>, cut: Cut)
    requires Inv(s)
    ensures Inv(RefundStep(s, draw, ids, cut))
  {
    hide Rows, Flow;
    if Current(s).Some? && Current(s).value.ProcessRefund? {
      RefundKnown(s, Current(s).value.refund);
      RefundRunKeeps(s, Current(s).value.refund, draw, ids, cut);
    }
  }

  // ---------------------------------------------------------------- the delivery handler

  /** One event's row and POSTs replaced by others in step with each other. */
  lemma ReplacedEvent(s: State, id: nat, e: Event, posts: seq<Post>)
    requires EventsOk(s.events, s.posts, s.refunds, s.endpoints) && id in s.events
    requires e.refund == s.events[id].refund && e.endpoint == s.events[id].endpoint
    requires EventRowOk(e, posts, s.refunds, s.endpoints)
    ensures EventsOk(s.events[id := e], s.posts[id := posts], s.refunds, s.endpoints)
  {
    var events', posts' := s.events[id := e], s.posts[id := posts];
    forall f | f in events' ensures EventRowOk(events'[f], posts'[f], s.refunds, s.endpoints) {
      if f != id { assert EventRowOk(s.events[f], s.posts[f], s.refunds, s.endpoints); }
    }
  }

  lemma EventTables(s: State, s': State, id: nat, e: Event, posts: seq<Post>)
    requires Rows(s) && id in s.events && e.refund == s.events[id].refund && e.endpoint == s.events[id].endpoint
    requires EventRowOk(e, posts, s.refunds, s.endpoints)
    requires s' == s.(clock := s'.clock, next := s'.next, q := s'.q, events := s.events[id := e],
        posts := s.posts[id := posts])
    requires s.next <= s'.next
    ensures Rows(s')
  {
    ReplacedEvent(s, id, e, posts);
    TotalsKeep(s.payments, s.refunds, s.next, s'.next);
  }

  /** The event of the delivery job in flight is still to be delivered. */
  lemma DeliveryOpen(s: State, id: nat)
    requires Flow(s) && Current(s) == Some(DeliverWebhook(id)) && id in s.events
    ensures Webhooks.Open(s.events[id])
    ensures s.events[id].nextRetryAt.Some? ==> s.clock >= s.events[id].nextRetryAt.value
  {
    FlightCarries(s);
    assert DeliveryOk(s, s.q.worker.job, id);
  }

  /** The rows a delivery handler leaves behind: the next delivery of an event that stays open, if any. */
  ghost predicate Follow(s: State, id: nat, e: Event, rows: map<nat, Job>) {
    if Webhooks.Open(e)
    then rows.Keys == {s.next} && rows[s.next].task == DeliverWebhook(id)
         && (e.nextRetryAt.Some? ==> rows[s.next].runAt >= e.nextRetryAt.value)
    else rows == map[]
  }

  /** Only the row of the event in hand changes; its job hands the work on or is done with it. */
  lemma EventLink(s: State, s': State, id: nat, e: Event, rows: map<nat, Job>, tails: seq<Tail>)
    requires IdsOk(s) && QueueInv(s.q, s.clock) && LinkOk(s) && Current(s) == Some(DeliverWebhook(id)) && id in s.events
    requires FreshRows(s.q, rows, tails) && s'.q == Advance(s.q, rows, tails, true) && Follow(s, id, e, rows)
    requires s'.events == s.events[id := e] && s'.payments == s.payments && s'.refunds == s.refunds
    ensures LinkOk(s')
  {
    hide QueueInv;
    FlightCarries(s);
    var t := EventTarget(id);
    forall u | IsOpen(s', u)
      ensures (IsOpen(s, u) && !Carries(s.q, s.q.worker.job, u))
           || (exists j :: j in rows && TargetOf(rows[j].task) == u)
    {
      if u == t { assert TargetOf(rows[s.next].task) == t; } else { assert IsOpen(s, u); }
    }
    AdvanceLink(s, s', rows, tails, true);
  }

  lemma EventIds(s: State, s': State, id: nat, e: Event, rows: map<nat, Job>, tails: seq<Tail>)
    requires IdsOk(s) && id in s.events && e.endpoint == s.events[id].endpoint
    requires s' == s.(events := s.events[id := e], posts := s'.posts, next := s'.next,
        q := Advance(s.q, rows, tails, true))
    requires s.next <= s'.next
    requires forall j :: j in rows ==>
        j < s'.next && rows[j].task == DeliverWebhook(id) && rows[j].maxAttempts == DEFAULT_MAX_ATTEMPTS
    ensures IdsOk(s')
  {
    forall j | j in s'.q.jobs ensures Known(s', s'.q.jobs[j].task) {
      if j !in rows { assert Known(s, s.q.jobs[j].task); }
    }
  }

  /** The handler is done with its event: whatever work is left is in the new rows. */
  lemma CloseFlow(s: State, s': State, id: nat, e: Event, rows: map<nat, Job>, tails: seq<Tail>)
    requires Flow(s) && Current(s) == Some(DeliverWebhook(id)) && id in s.events && e.endpoint == s.events[id].endpoint
    requires FreshRows(s.q, rows, tails) && Follow(s, id, e, rows)
    requires forall j :: j in rows ==>
        j < s'.next && rows[j].task == DeliverWebhook(id) && rows[j].maxAttempts == DEFAULT_MAX_ATTEMPTS
    requires s' == s.(events := s.events[id := e], next := s'.next, q := Advance(s.q, rows, tails, true))
    requires s.next <= s'.next
    ensures Flow(s')
  {
    hide QueueInv, IdsOk, LinkOk, BackoffOk;
    FlightCarries(s);
    AdvanceQueue(s.q, s.clock, rows, tails, true);
    EventLink(s, s', id, e, rows, tails);
    EventIds(s, s', id, e, rows, tails);
    AdvanceBackoff(s, s', rows, tails, true);
  }

  lemma RetryRecorded(s: State, id: nat, e: Event, rows: map<nat, Job>, tails: seq<Tail>)
    requires id in s.events && e.status == EventStatus.Failed && e.nextRetryAt.Some? && s.next !in s.q.jobs
    requires rows == map[s.next := NewJob(DeliverWebhook(id), e.nextRetryAt.value)]
    requires tails == [Tail(s.next, e.nextRetryAt)]
    ensures Record(s, id, e) == s.(events := s.events[id := e], next := s.next + 1,
        q := Advance(s.q, rows, tails, true))
    ensures FreshRows(s.q, rows, tails) && Follow(s, id, e, rows)
  {
    hide Enter, Insert;
  }

  lemma EndRecorded(s: State, id: nat, e: Event)
    requires id in s.events && !Webhooks.Open(e)
    ensures Record(s, id, e) == s.(events := s.events[id := e], next := s.next, q := Advance(s.q, map[], [], true))
    ensures FreshRows(s.q, map[], []) && Follow(s, id, e, map[])
  {
    hide Enter;
    NothingInserted(s.q);
  }

  /** The last thing a delivery handler does. */
  lemma RecordFlow(s: State, id: nat, e: Event)
    requires Flow(s) && Current(s) == Some(DeliverWebhook(id)) && id in s.events && e.endpoint == s.events[id].endpoint
    requires Webhooks.Open(e) ==> e.status == EventStatus.Failed && e.nextRetryAt.Some?
    ensures Flow(Record(s, id, e))
  {
    hide Flow, Advance, Record, FreshRows, Follow;
    if Webhooks.Open(e) {
      NextIsFree(s);
      var rows, tails := map[s.next := NewJob(DeliverWebhook(id), e.nextRetryAt.value)], [Tail(s.next, e.nextRetryAt)];
      RetryRecorded(s, id, e, rows, tails);
      CloseFlow(s, Record(s, id, e), id, e, rows, tails);
    } else {
      EndRecorded(s, id, e);
      CloseFlow(s, Record(s, id, e), id, e, map[], []);
    }
  }

  lemma NextIsFree(s: State)
    requires Flow(s)
    ensures s.next !in s.q.jobs
  {}

  lemma LaterFlow(s: State, later: real)
    requires Flow(s) && s.clock <= later
    ensures Flow(s.(clock := later))
  {
    ClockKeepsQueue(s.q, s.clock, later);
    TickIds(s, later);
    TickBackoff(s, later);
    TickLink(s, later);
  }

  lemma PostsLink(s: State, posts: map<nat, seq<Post>>)
    requires LinkOk(s)
    ensures LinkOk(s.(posts := posts))
  {
    var s' := s.(posts := posts);
    forall t | IsOpen(s', t) ensures Carried(s'.q, t) { assert IsOpen(s, t); }
    forall j, e | Carries(s'.q, j, EventTarget(e)) && e in s'.events ensures DeliveryOk(s', j, e) {
      assert DeliveryOk(s, j, e);
    }
  }

  lemma PostsFlow(s: State, posts: map<nat, seq<Post>>)
    requires Flow(s)
    ensures Flow(s.(posts := posts))
  {
    SameIds(s, s.(posts := posts));
    PostsLink(s, posts);
    assert SoftTask(s.(posts := posts)) == SoftTask(s);
  }

  lemma SentFlow(s: State, id: nat, ok: bool, elapsed: real, recorded: bool)
    requires Flow(s) && elapsed >= 0.0
    ensures Flow(Sent(s, id, ok, elapsed, recorded))
  {
    var s2 := s.(clock := s.clock + elapsed);
    var posts := Sent(s, id, ok, elapsed, recorded).posts;
    assert Sent(s, id, ok, elapsed, recorded) == s2.(posts := posts);
    LaterFlow(s, s2.clock);
    PostsFlow(s2, posts);
  }

  lemma GiveUpRow(e: Event, posts: seq<Post>, refunds: map<nat, Refund>, endpoints: map<nat, Endpoint>, now: real)
    requires EventRowOk(e, posts, refunds, endpoints) && Webhooks.Open(e)
    requires e.endpoint !in endpoints || !endpoints[e.endpoint].active
    ensures EventRowOk(Undeliverable(e, now), posts, refunds, endpoints)
  {}

  lemma PostRow(e: Event, posts: seq<Post>, refunds: map<nat, Refund>, endpoints: map<nat, Endpoint>, p: Post,
                jitter: real)
    requires EventRowOk(e, posts, refunds, endpoints) && Webhooks.Open(e) && Jitter(jitter)
    requires e.nextRetryAt.Some? ==> p.at >= e.nextRetryAt.value
    ensures EventRowOk(if p.recorded then AfterPost(e, p.ok, jitter, p.at) else e, posts + [p], refunds, endpoints)
  {
    PostKeepsEvent(e, posts, p, jitter);
  }

  lemma GiveUpTables(s: State, id: nat)
    requires Rows(s) && id in s.events && Webhooks.Open(s.events[id])
    requires s.events[id].endpoint !in s.endpoints || !s.endpoints[s.events[id].endpoint].active
    ensures Rows(Record(s, id, Undeliverable(s.events[id], s.clock)))
  {
    hide RecordsOk, RefundsOk, PaymentsOk;
    var e := Undeliverable(s.events[id], s.clock);
    assert s.posts == s.posts[id := s.posts[id]];
    assert EventRowOk(s.events[id], s.posts[id], s.refunds, s.endpoints);
    GiveUpRow(s.events[id], s.posts[id], s.refunds, s.endpoints, s.clock);
    EventTables(s, Record(s, id, e), id, e, s.posts[id]);
  }

  /** The endpoint is gone: the event is given up without a POST. */
  lemma GiveUpKeeps(s: State, id: nat)
    requires Inv(s) && Current(s) == Some(DeliverWebhook(id)) && id in s.events
    requires s.events[id].endpoint !in s.endpoints || !s.endpoints[s.events[id].endpoint].active
    ensures Inv(Record(s, id, Undeliverable(s.events[id], s.clock)))
  {
    hide Rows, Flow;
    DeliveryOpen(s, id);
    GiveUpTables(s, id);
    RecordFlow(s, id, Undeliverable(s.events[id], s.clock));
  }

  lemma LostPostTables(s: State, id: nat, ok: bool, elapsed: real)
    requires Rows(s) && id in s.events && Webhooks.Open(s.events[id])
    requires s.events[id].nextRetryAt.Some? ==> s.clock >= s.events[id].nextRetryAt.value
    ensures Rows(Sent(s, id, ok, elapsed, false))
  {
    hide PaymentsOk, RecordsOk, RefundsOk, EventRowOk;
    assert s.events == s.events[id := s.events[id]];
    assert EventRowOk(s.events[id], s.posts[id], s.refunds, s.endpoints);
    PostRow(s.events[id], s.posts[id], s.refunds, s.endpoints, Post(ok, false, s.clock), 0.0);
    EventTables(s, Sent(s, id, ok, elapsed, false), id, s.events[id], s.posts[id] + [Post(ok, false, s.clock)]);
  }

  /** A POST whose handler died before the commit leaves the event as it was. */
  lemma LostPostKeeps(s: State, id: nat, ok: bool, elapsed: real)
    requires Inv(s) && Current(s) == Some(DeliverWebhook(id)) && id in s.events && elapsed >= 0.0
    ensures Inv(Enters(Sent(s, id, ok, elapsed, false), Raised(Aborted)))
  {
    hide Rows, Flow;
    DeliveryOpen(s, id);
    LostPostTables(s, id, ok, elapsed);
    SentFlow(s, id, ok, elapsed, false);
    RaiseKeeps(Sent(s, id, ok, elapsed, false), Aborted);
  }

  lemma PostTables(s: State, id: nat, ok: bool, elapsed: real, jitter: real)
    requires Rows(s) && id in s.events && Webhooks.Open(s.events[id]) && Jitter(jitter)
    requires s.events[id].nextRetryAt.Some? ==> s.clock >= s.events[id].nextRetryAt.value
    ensures Rows(Record(Sent(s, id, ok, elapsed, true), id, AfterPost(s.events[id], ok, jitter, s.clock)))
  {
    hide PaymentsOk, RecordsOk, RefundsOk, EventRowOk, Enter, Enqueue, AfterPost;
    var e := AfterPost(s.events[id], ok, jitter, s.clock);
    AfterPostAddress(s.events[id], ok, jitter, s.clock);
    assert EventRowOk(s.events[id], s.posts[id], s.refunds, s.endpoints);
    PostRow(s.events[id], s.posts[id], s.refunds, s.endpoints, Post(ok, true, s.clock), jitter);
    EventTables(s, Record(Sent(s, id, ok, elapsed, true), id, e), id, e, s.posts[id] + [Post(ok, true, s.clock)]);
  }

  lemma AfterPostAddress(e: Event, ok: bool, jitter: real, now: real)
    ensures AfterPost(e, ok, jitter, now).refund == e.refund && AfterPost(e, ok, jitter, now).endpoint == e.endpoint
  {}

  lemma PostFlow(s: State, id: nat, ok: bool, elapsed: real, jitter: real)
    requires Flow(s) && Current(s) == Some(DeliverWebhook(id)) && id in s.events && elapsed >= 0.0
    ensures Flow(Record(Sent(s, id, ok, elapsed, true), id, AfterPost(s.events[id], ok, jitter, s.clock)))
  {
    SentFlow(s, id, ok, elapsed, true);
    RecordFlow(Sent(s, id, ok, elapsed, true), id, AfterPost(s.events[id], ok, jitter, s.clock));
  }

  lemma PostKeeps(s: State, id: nat, ok: bool, elapsed: real, jitter: real)
    requires Inv(s) && Current(s) == Some(DeliverWebhook(id)) && id in s.events && elapsed >= 0.0 && Jitter(jitter)
    ensures Inv(Record(Sent(s, id, ok, elapsed, true), id, AfterPost(s.events[id], ok, jitter, s.clock)))
  {
    hide Rows, Flow;
    DeliveryOpen(s, id);
    PostTables(s, id, ok, elapsed, jitter);
    PostFlow(s, id, ok, elapsed, jitter);
  }

  lemma DeliverRunKeeps(s: State, id: nat, ok: bool, elapsed: real, jitter: real, cut: DeliveryCut)
    requires Inv(s) && Current(s) == Some(DeliverWebhook(id)) && id in s.events && elapsed >= 0.0 && Jitter(jitter)
    ensures Inv(DeliverRun(s, id, ok, elapsed, jitter, cut))
  {
    hide Rows, Flow;
    if s.events[id].endpoint !in s.endpoints || !s.endpoints[s.events[id].endpoint].active {
      GiveUpKeeps(s, id);
    } else if cut == CutAfterPost {
      LostPostKeeps(s, id, ok, elapsed);
    } else {
      PostKeeps(s, id, ok, elapsed, jitter);
    }
  }

  lemma LeftoverEnters(s: State, id: nat)
    requires Current(s) == Some(DeliverWebhook(id)) && id !in s.events
    ensures MayEnter(s, Returned)
  {}

  /** A delivery job left over from an event that was rolled back does nothing at all. */
  lemma LeftoverKeeps(s: State, id: nat)
    requires Inv(s) && Current(s) == Some(DeliverWebhook(id)) && id !in s.events
    ensures Inv(Enters(s, Returned))
  {
    LeftoverEnters(s, id);
    EnterKeeps(s, Returned);
  }

  lemma DeliverStepKeeps(s: State, ok: bool, elapsed: real, jitter: real, cut: DeliveryCut)
    requires Inv(s) && elapsed >= 0.0 && Jitter(jitter)
    ensures Inv(DeliverStep(s, ok, elapsed, jitter, cut))
  {
    hide Rows, Flow;
    if Current(s).Some? && Current(s).value.DeliverWebhook? {
      var id := Current(s).value.event;
      if cut == CutBeforePost { RaiseKeeps(s, Aborted); }
      else if id in s.events { DeliverRunKeeps(s, id, ok, elapsed, jitter, cut); }
      else { LeftoverKeeps(s, id); }
    }
  }
}
