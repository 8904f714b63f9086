/** The refund service (pulsepay/refunds/service.py), updating rows in place. */
module RefundServices {
  import opened Common
  import Payments
  import opened Jobs
  import opened Refunds
  import opened System
  import opened Store
  import opened WebhookServices

  class RefundService {
    const app: Backend
    const dispatcher: WebhookDispatcher

    constructor (app: Backend)
      ensures this.app == app && dispatcher.app == app
    {
      this.app := app;
      dispatcher := new WebhookDispatcher(app);
    }

    /** Moves the row if the move is allowed, and otherwise leaves it alone. */
    method Transition(refund: RefundRow, target: RefundStatus) returns (ok: bool)
      modifies refund
      ensures ok <==>
        || (old(refund.status) == RefundStatus.Pending && target == RefundStatus.Processing)
        || (old(refund.status) == RefundStatus.Processing
            && (target == RefundStatus.Completed || target == RefundStatus.Failed))
      ensures refund.Value() == if ok then old(refund.Value()).(status := target) else old(refund.Value())
    {
      if !Refunds.Allowed(refund.status, target) {
        return false;
      }
      refund.status := target;
      return true;
    }

    /** The database's SUM over the payment's refunds that have not failed. */
    method SumNonFailed(payment: nat) returns (total: int)
      ensures total == Held(app.db.refunds, payment, app.db.next)
    {
      total := 0;
      for i := 0 to app.db.next
        invariant total == Held(app.db.refunds, payment, i)
      {
        if i in app.db.refunds && app.db.refunds[i].payment == payment
           && app.db.refunds[i].status != RefundStatus.Failed
        {
          total := total + app.db.refunds[i].amount;
        }
      }
    }

    /** A known key finds its refund; a new one holds back part of what is left of the payment. */
    method InitiateRefund(payment: nat, cents: Option<real>, key: string) returns (r: InitiateResult)
      requires app.Wired()
      modifies app.db, app.queue
      ensures app.View() == Initiate(old(app.View()), payment, cents, key)
      ensures var s := old(app.View());
        if InitiateResultOf(s, payment, cents, key).Existing?
        then r.Existing? && RefundKey(s, key, r.id)
        else r == InitiateResultOf(s, payment, cents, key)
    {
      hide Held, Refunds.Stored, Refunds.Fits, Jobs.Enqueue;
      ghost var s := app.View();
      if id :| id in app.db.refunds && app.db.refunds[id].key == key {
        assert RefundKey(s, key, id);
        return Existing(id);
      }
      assert forall id :: !RefundKey(s, key, id);
      if payment !in app.db.payments {
        return UnknownPayment;
      }
      if app.db.payments[payment].status != Payments.Success {
        return NotRefundable;
      }
      var refunded := SumNonFailed(payment);
      var amount := app.db.payments[payment].amount;
      var remaining := amount - refunded;
      if remaining <= 0 {
        return Insufficient;
      }
      var requested := if cents.None? then remaining as real else cents.value;
      if requested + refunded as real > amount as real {
        return Insufficient;
      }
      if !Refunds.Fits(Refunds.Stored(requested)) {
        return Overflow;
      }
      r := StoreRefund(payment, Refunds.Stored(requested), key);
    }

    /** The job is enqueued by a session of its own; the refund is committed after it. */
    method StoreRefund(payment: nat, amount: int, key: string) returns (r: InitiateResult)
      requires app.Wired()
      modifies app.db, app.queue
      ensures var s := old(app.View());
        && r == Initiated(s.next)
        && app.View() == s.(next := s.next + 2,
            refunds := s.refunds[s.next := Refund(payment, amount, RefundStatus.Pending, key)],
                            q := Jobs.Enqueue(s.q, s.next + 1, Task.ProcessRefund(s.next), s.clock))
    {
      hide Jobs.Enqueue;
      var id := app.FreshIds(2);
      app.queue.Enqueue(id + 1, Task.ProcessRefund(id), None);
      assert app.queue.View(app.worker.current)
          == Jobs.Enqueue(old(app.queue.View(app.worker.current)), id + 1, Task.ProcessRefund(id), app.db.clock);
      app.db.refunds := app.db.refunds[id := Refund(payment, amount, RefundStatus.Pending, key)];
      return Initiated(id);
    }

    /** `process_refund` as a job: completes the refund with its announcements, or fails it; an
        exception rolls back all but the delivery jobs. */
    method ProcessRefund(id: nat, draw: real, cut: Cut) returns (ids: seq<nat>, taken: Cut)
      requires app.Wired() && dispatcher.app == app
      requires Current(app.View()) == Some(Task.ProcessRefund(id))
      modifies app.db, app.queue, app.worker
      ensures app.View() == RefundStep(old(app.View()), draw, ids, taken)
      ensures taken == cut || (cut.CutDuring? && taken.CutDuring? && taken.enqueued <= cut.enqueued)
    {
      hide Audience, CompleteRun, FanoutJobs;
      ids, taken := [], cut;
      if id !in app.db.refunds {
        app.worker.Advance(Raised(RowMissing));
        return;
      }
      var refund := new RefundRow(app.db.refunds[id]);
      if refund.status == RefundStatus.Completed || refund.status == RefundStatus.Failed {
        app.worker.Advance(Leave(cut));
        return;
      }
      var started := Transition(refund, RefundStatus.Processing);
      if !started {
        app.worker.Advance(Raised(InvalidTransition));
        return;
      }
      if draw < 0.95 {
        var _ := Transition(refund, RefundStatus.Completed);
        ids, taken := Complete(id, refund, cut);
        return;
      }
      var _ := Transition(refund, RefundStatus.Failed);
      if cut.CutDuring? {
        app.worker.Advance(Raised(Aborted));
        return;
      }
      app.db.refunds := app.db.refunds[id := refund.Value()];
      app.worker.Advance(Leave(cut));
    }

    /** The processor paid the refund out: announce and commit. */
    method Complete(id: nat, refund: RefundRow, cut: Cut) returns (ids: seq<nat>, taken: Cut)
      requires app.Wired() && dispatcher.app == app && id in app.db.refunds
      requires refund.Value() == app.db.refunds[id].(status := RefundStatus.Completed)
      modifies app.db, app.queue, app.worker
      ensures taken == cut || (cut.CutDuring? && taken.CutDuring? && taken.enqueued <= cut.enqueued)
      ensures var s := old(app.View());
        && app.View() == CompleteRun(s, id, ids, taken)
        && (s.refunds[id].payment in s.payments ==> Audience(s, s.payments[s.refunds[id].payment].customer, ids))
        && (s.refunds[id].payment !in s.payments ==> ids == [])
    {
      hide Audience, System.Complete, FanoutJobs;
      if refund.payment in app.db.payments {
        ids, taken := dispatcher.Dispatch(id, refund, app.db.payments[refund.payment].customer, cut);
      } else {
        ids := [];
        taken := dispatcher.Tell(id, refund, ids, cut);
      }
      app.worker.Advance(if taken.CutDuring? then Raised(Aborted) else Leave(taken));
    }
  }
}
