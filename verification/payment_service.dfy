/** The payment service and its state machine, updating rows in place (pulsepay/payments), and the
    two payment handlers (pulsepay/jobs/handlers.py). */
module PaymentServices {
  import opened Common
  import opened Payments
  import opened Jobs
  import Refunds
  import opened System
  import opened Store

  class PaymentStateMachine {
    constructor () {}

    /** Moves the row if the move is allowed, and otherwise leaves it alone. */
    method Transition(payment: PaymentRow, target: PaymentStatus, reason: Reason, now: real) returns (ok: bool)
      modifies payment`status, payment`history
      ensures ok <==>
        || (old(payment.status) == PaymentStatus.Pending && target == PaymentStatus.Processing)
        || (old(payment.status) == PaymentStatus.Processing && (target == Success || target == PaymentStatus.Failed))
      ensures payment.Value() == if ok then Moved(old(payment.Value()), target, reason, now) else old(payment.Value())
    {
      if !Payments.Allowed(payment.status, target) {
        return false;
      }
      var history := payment.history + [Entry(target, now, reason)];
      payment.status := target;
      payment.history := history;
      return true;
    }
  }

  lemma AttemptedIsCounted(p: Payment, metadata: Option<string>, now: real)
    requires !Payments.Terminal(p.status)
    ensures Attempted(p, metadata, now).status == PaymentStatus.Processing
    ensures Attempted(p, metadata, now).retryCount == p.retryCount + 1
  {}

  class PaymentService {
    const app: Backend
    const machine: PaymentStateMachine

    constructor (app: Backend)
      ensures this.app == app
    {
      this.app := app;
      machine := new PaymentStateMachine();
    }

    /** Answers a repeated request from its record, or stores a new payment, its record and its job. */
    method CreatePayment(customer: string, cents: real, metadata: Option<string>, key: string) returns (r: CreateResult)
      requires app.Wired()
      modifies app.db, app.queue
      ensures app.View() == Create(old(app.View()), customer, cents, metadata, key)
      ensures r == CreateResultOf(old(app.View()), cents, key)
    {
      hide Jobs.Enqueue, Refunds.Stored, Refunds.Fits;
      var db := app.db;
      if key in db.records && db.records[key].expiresAt > db.clock {
        var record := db.records[key];
        if record.body.None? {
          return Conflict;
        }
        return Replayed(record.body.value, record.statusCode);
      }
      // an expired record is deleted by the session; the unique key of the payments table, and the
      // width of the amount column, roll everything back
      if (exists p :: p in db.payments && db.payments[p].key == key) || !Refunds.Fits(Refunds.Stored(cents)) {
        return Rejected;
      }
      var id := app.FreshIds(2);
      var payment := NewPayment(customer, Refunds.Stored(cents), key, metadata, db.clock);
      var record := IdempotencyRecord(id, Some(payment), CREATED_STATUS, db.clock + IDEMPOTENCY_WINDOW);
      StorePayment(id, payment, record);
      return Created(id);
    }

    /** The job is enqueued by a session of its own; the payment and its record are committed together. */
    method StorePayment(id: nat, payment: Payment, record: IdempotencyRecord)
      requires app.Wired()
      modifies app.db, app.queue
      ensures var s := old(app.View());
        app.View() == s.(payments := s.payments[id := payment], calls := s.calls[id := []],
            records := s.records[payment.key := record],
                         q := Jobs.Enqueue(s.q, id + 1, ProcessPayment(id), s.clock))
    {
      hide Jobs.Enqueue;
      app.queue.Enqueue(id + 1, ProcessPayment(id), None);
      assert app.queue.View(app.worker.current)
          == Jobs.Enqueue(old(app.queue.View(app.worker.current)), id + 1, ProcessPayment(id), app.db.clock);
      app.db.payments := app.db.payments[id := payment];
      app.db.calls := app.db.calls[id := []];
      app.db.records := app.db.records[payment.key := record];
    }

    /** The attempt has begun and is counted. */
    method Begin(payment: PaymentRow, metadata: Option<string>, now: real)
      requires !Payments.Terminal(payment.status)
      modifies payment
      ensures payment.Value() == Attempted(old(payment.Value()), metadata, now)
    {
      if payment.status == PaymentStatus.Pending {
        var _ := machine.Transition(payment, PaymentStatus.Processing, ProcessorStarted, now);
      }
      if metadata.Some? {
        payment.metadata := metadata;
      }
      payment.retryCount := payment.retryCount + 1;
    }

    method Store(id: nat, payment: PaymentRow)
      modifies app.db`payments
      ensures app.db.payments == old(app.db.payments)[id := payment.Value()]
    {
      app.db.payments := app.db.payments[id := payment.Value()];
    }

    /** The processor decided. */
    method Decide(id: nat, payment: PaymentRow, authorized: bool)
      requires payment.status == PaymentStatus.Processing
      modifies payment, app.db`payments
      ensures app.db.payments == old(app.db.payments)[id :=
        Answered(old(payment.Value()), if authorized then Authorized else Declined, app.db.max, app.db.clock)]
    {
      var now := app.db.clock;
      if authorized {
        var _ := machine.Transition(payment, Success, ProcessorAuthorized, now);
        payment.failureReason := None;
        payment.failureClass := None;
        payment.confirmedAt := Some(now);
      } else {
        var _ := machine.Transition(payment, PaymentStatus.Failed, ProcessorHardFailure, now);
        payment.failureClass := Some(Hard);
        payment.failureReason := Some(ProcessorDeclined);
      }
      Store(id, payment);
    }

    /** The processor failed softly: one commit, and at the ceiling a second one. */
    method FailSoftly(id: nat, payment: PaymentRow, cut: bool) returns (r: ConfirmResult)
      requires payment.status == PaymentStatus.Processing
      modifies payment, app.db`payments
      ensures app.db.payments == old(app.db.payments)[id :=
        Answered(old(payment.Value()), SoftFailure(cut), app.db.max, app.db.clock)]
      ensures r ==
        if old(payment.retryCount) < app.db.max then SoftRaised(old(payment.retryCount))
        else if cut then CutShort
        else Confirmed
    {
      hide Exhausted;
      payment.failureClass := Some(FailureClass.Soft);
      payment.failureReason := Some(TemporaryUpstreamFailure);
      Store(id, payment);
      if payment.retryCount < app.db.max {
        return SoftRaised(payment.retryCount);
      }
      if cut {
        return CutShort;
      }
      var _ := MarkPaymentFailedMaxRetries(id);
      return Confirmed;
    }

    /** The processor answered; the answer is committed. */
    method Answer(id: nat, payment: PaymentRow, draw: real, cut: bool) returns (r: ConfirmResult)
      requires payment.status == PaymentStatus.Processing
      modifies payment, app.db`payments
      ensures app.db.payments ==
        old(app.db.payments)[id := Answered(old(payment.Value()), Classify(draw, cut), app.db.max, app.db.clock)]
      ensures r ==
        if Classify(draw, cut).SoftFailure? && old(payment.retryCount) < app.db.max
        then SoftRaised(old(payment.retryCount))
        else if Classify(draw, cut) == SoftFailure(true) then CutShort
        else Confirmed
    {
      hide Answered;
      if draw < 0.85 {
        Decide(id, payment, true);
        return Confirmed;
      }
      if draw < 0.95 {
        r := FailSoftly(id, payment, cut);
        return;
      }
      Decide(id, payment, false);
      return Confirmed;
    }

    /** One attempt at the processor, committed whatever the answer. */
    method ConfirmPayment(id: nat, metadata: Option<string>, draw: real, cut: bool,
                          ghost source: Caller) returns (r: ConfirmResult)
      modifies app.db`payments, app.db`calls
      ensures app.View() == Confirm(old(app.View()), id, metadata, Classify(draw, cut), source)
      ensures r == ConfirmResultOf(old(app.View()), id, Classify(draw, cut))
    {
      hide Attempted, Answered;
      var db := app.db;
      if id !in db.payments {
        return PaymentNotFound;
      }
      var payment := new PaymentRow(db.payments[id]);
      if payment.status == Success || payment.status == PaymentStatus.Failed {
        return AlreadyProcessed;
      }
      AttemptedIsCounted(payment.Value(), metadata, db.clock);
      Begin(payment, metadata, db.clock);
      db.calls := db.calls[id := CallsOf(app.View(), id) + [Payments.Call(Classify(draw, cut), db.clock, source)]];
      r := Answer(id, payment, draw, cut);
    }

    /** Gives up on a payment; one that has failed stays as it is, one that succeeded is an error. */
    method MarkPaymentFailedMaxRetries(id: nat) returns (phase: Phase)
      modifies app.db`payments
      ensures app.View() == MarkExhausted(old(app.View()), id)
      ensures phase == MarkPhase(old(app.View()), id, NoFault)
    {
      var db := app.db;
      if id !in db.payments {
        return Raised(RowMissing);
      }
      var payment := new PaymentRow(db.payments[id]);
      if payment.status == PaymentStatus.Failed {
        return Returned;
      }
      if payment.status == Success {
        return Raised(AlreadyTerminal);
      }
      if payment.status == PaymentStatus.Pending {
        var _ := machine.Transition(payment, PaymentStatus.Processing, ProcessorStarted, db.clock);
      }
      var _ := machine.Transition(payment, PaymentStatus.Failed, MaxRetriesExceeded, db.clock);
      payment.failureClass := Some(Hard);
      payment.failureReason := Some(MaxRetriesExceeded);
      db.payments := db.payments[id := payment.Value()];
      return Returned;
    }
  }

  class PaymentHandlers {
    const app: Backend
    const service: PaymentService

    constructor (app: Backend)
      ensures this.app == app && service.app == app
    {
      this.app := app;
      service := new PaymentService(app);
    }

    /** `process_payment` up to the processor's answer. */
    method ProcessPayment(id: nat, draw: real, fault: Fault)
      requires app.Wired() && service.app == app
      requires Current(app.View()) == Some(Task.ProcessPayment(id))
      modifies app.db, app.worker
      ensures app.View() == PaymentStep(old(app.View()), draw, fault)
    {
      if fault == FaultBefore {
        app.worker.Advance(Raised(Aborted));
        return;
      }
      var r := service.ConfirmPayment(id, None, draw, fault == FaultBetween, Worker(app.worker.current.job));
      app.worker.Advance(ConfirmPhase(r, fault, Returned));
    }

    /** `retry_payment` up to the processor's answer. */
    method RetryPayment(id: nat, draw: real, fault: Fault)
      requires app.Wired() && service.app == app
      requires Current(app.View()) == Some(Task.RetryPayment(id))
      modifies app.db, app.worker
      ensures app.View() == PaymentStep(old(app.View()), draw, fault)
    {
      if fault == FaultBefore {
        app.worker.Advance(Raised(Aborted));
        return;
      }
      if id in app.db.payments && app.db.payments[id].retryCount >= app.db.max {
        var phase := service.MarkPaymentFailedMaxRetries(id);
        app.worker.Advance(if phase == Returned && fault == FaultAfter then Raised(Aborted) else phase);
        return;
      }
      var r := service.ConfirmPayment(id, None, draw, fault == FaultBetween, Worker(app.worker.current.job));
      app.worker.Advance(ConfirmPhase(r, fault, Raised(RowMissing)));
    }

    /** The rest of either handler after a soft failure. */
    method AfterSoftFailure(jitter: real, fault: Fault)
      requires app.Wired() && service.app == app
      modifies app.db, app.queue, app.worker
      ensures app.View() == SoftStep(old(app.View()), jitter, fault)
    {
      var w := app.worker.current;
      if !(w.Busy? && w.phase.Soft? && w.job in app.db.jobs) {
        return;
      }
      var task, count := app.db.jobs[w.job].task, w.phase.count;
      match task
      case ProcessPayment(id) =>
        if fault != NoFault {
          app.worker.Advance(Raised(Aborted));
        } else {
          Schedule(id, count, jitter);
        }
      case RetryPayment(id) =>
        if fault != NoFault {
          app.worker.Advance(Raised(Aborted));
        } else if count >= app.db.max {
          var phase := service.MarkPaymentFailedMaxRetries(id);
          app.worker.Advance(phase);
        } else {
          Schedule(id, count, jitter);
        }
      case _ =>
    }

    /** Two to the number of attempts made, and the jitter, from now. */
    method Schedule(id: nat, count: nat, jitter: real)
      requires app.Wired()
      modifies app.db, app.queue, app.worker
      ensures app.View() == ScheduleRetry(old(app.View()), id, count, jitter)
    {
      var job := app.FreshIds(1);
      app.queue.Enqueue(job, Task.RetryPayment(id), Some(NextRetryAt(app.db.clock, count, jitter)));
      app.worker.Advance(Returned);
    }
  }
}
