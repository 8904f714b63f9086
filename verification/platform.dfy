/** The services wired together. Whatever is called, the state in memory and in the tables is one
    that a run of the transition system leads to, so that every theorem about runs holds of it. */
module Platform {
  import opened Common
  import Payments
  import opened Jobs
  import opened Webhooks
  import opened System
  import opened Invariants
  import opened Runs
  import opened Store
  import opened PaymentServices
  import opened RefundServices
  import opened WebhookServices

  lemma HandlerRuns(s: State, draw: real, fault: Fault, ids: seq<nat>, cut: Cut)
    ensures Next(s, RunPayment(draw, fault)) == PaymentStep(s, draw, fault)
    ensures Next(s, RunRefund(draw, ids, cut)) == RefundStep(s, draw, ids, cut)
  {
    hide PaymentStep, RefundStep;
  }

  lemma DeliveryRuns(s: State, ok: bool, elapsed: real, jitter: real, cut: DeliveryCut)
    requires Jitter(jitter) && elapsed >= 0.0
    ensures Next(s, RunDelivery(ok, elapsed, jitter, cut)) == DeliverStep(s, ok, elapsed, jitter, cut)
  {
    hide DeliverStep;
  }

  class PulsePay {
    const app: Backend
    const payments: PaymentService
    const handlers: PaymentHandlers
    const refunds: RefundService
    const webhooks: WebhookDispatcher
    ghost var run: seq<Action>

    ghost predicate Linked() {
      && app.Wired() && app.db.max >= 1
      && payments.app == app && handlers.app == app && handlers.service.app == app
      && refunds.app == app && refunds.dispatcher.app == app && webhooks.app == app
    }

    ghost predicate Valid()
      reads this, app.db, app.queue, app.worker
    {
      Linked() && app.View() == After(app.db.max, run)
    }

    constructor (max: nat)
      requires max >= 1
      ensures Valid() && run == [] && app.db.max == max && fresh(app.db) && fresh(app.queue) && fresh(app.worker)
    {
      var a := new Backend(max);
      var s := new PaymentService(a);
      var h := new PaymentHandlers(a);
      var r := new RefundService(a);
      var w := new WebhookDispatcher(a);
      app, payments, handlers, refunds, webhooks, run := a, s, h, r, w, [];
    }

    /** What every reachable state satisfies. */
    lemma Sound()
      requires Valid()
      ensures Inv(app.View())
    {
      Reached(app.db.max, run);
    }

    /** One step of the run has been taken. */
    ghost method Log(a: Action)
      requires Linked() && app.View() == Next(After(app.db.max, run), a)
      modifies this`run
      ensures Valid() && run == old(run) + [a]
    {
      hide Next;
      OneMore(app.db.max, run, a);
      run := run + [a];
    }

    // ---------------------------------------------------------------- requests

    method Create(customer: string, cents: real, metadata: Option<string>, key: string) returns (r: CreateResult)
      requires Valid() && cents > 0.0
      modifies this, app.db, app.queue
      ensures Valid() && run == old(run) + [CreateRequest(customer, cents, metadata, key)]
      ensures r == CreateResultOf(old(app.View()), cents, key)
    {
      hide System.Create, CreateResultOf, After;
      r := payments.CreatePayment(customer, cents, metadata, key);
      Log(CreateRequest(customer, cents, metadata, key));
    }

    method Confirm(id: nat, metadata: Option<string>, draw: real, cut: bool) returns (r: ConfirmResult)
      requires Valid()
      modifies this, app.db
      ensures Valid() && run == old(run) + [ConfirmRequest(id, metadata, draw, cut)]
      ensures r == ConfirmResultOf(old(app.View()), id, Payments.Classify(draw, cut))
    {
      hide System.Confirm, ConfirmResultOf, After;
      r := payments.ConfirmPayment(id, metadata, draw, cut, Payments.Http);
      Log(ConfirmRequest(id, metadata, draw, cut));
    }

    method Refund(payment: nat, cents: Option<real>, key: string) returns (r: InitiateResult)
      requires Valid() && (cents.Some? ==> cents.value > 0.0)
      modifies this, app.db, app.queue
      ensures Valid() && run == old(run) + [RefundRequest(payment, cents, key)]
      ensures r == InitiateResultOf(old(app.View()), payment, cents, key)
    {
      hide Initiate, After, Inv;
      ghost var s := app.View();
      r := refunds.InitiateRefund(payment, cents, key);
      if r.Existing? { Identical(s, key, r.id, payment, cents); }
      Log(RefundRequest(payment, cents, key));
    }

    /** Keys are unique, so the refund that was found is the one the specification names. */
    lemma Identical(s: State, key: string, id: nat, payment: nat, cents: Option<real>)
      requires s == After(app.db.max, run) && app.db.max >= 1 && RefundKey(s, key, id)
      ensures InitiateResultOf(s, payment, cents, key) == Existing(id)
    {
      hide Flow, PaymentsOk, RecordsOk, EventsOk, After;
      Reached(app.db.max, run);
    }

    method RegisterEndpoint(client: string) returns (id: nat)
      requires Valid()
      modifies this, app.db
      ensures Valid() && run == old(run) + [Action.RegisterEndpoint(client)]
    {
      hide After;
      id := app.FreshIds(1);
      app.db.endpoints := app.db.endpoints[id := Endpoint(client, true)];
      Log(Action.RegisterEndpoint(client));
    }

    method DeactivateEndpoint(id: nat)
      requires Valid()
      modifies this, app.db
      ensures Valid() && run == old(run) + [Action.DeactivateEndpoint(id)]
    {
      hide After;
      if id in app.db.endpoints {
        app.db.endpoints := app.db.endpoints[id := app.db.endpoints[id].(active := false)];
      }
      Log(Action.DeactivateEndpoint(id));
    }

    /** The queue resets any job; that it is only asked to reset dead ones is up to the operator. */
    method RetryDeadJob(id: nat) returns (found: bool)
      requires Valid() && (id in app.db.jobs ==> app.db.jobs[id].status == JobStatus.Dead)
      modifies this, app.db, app.queue
      ensures Valid() && run == old(run) + [OperatorRetry(id)] && found == (id in old(app.db.jobs))
    {
      hide After, Reset;
      ghost var q := app.queue.View(app.worker.current);
      found := app.queue.RetryDeadJob(id);
      assert app.queue.View(app.worker.current) == Reset(q, app.db.clock, id);
      UnknownResets(q, app.db.clock, id);
      Log(OperatorRetry(id));
    }

    lemma UnknownResets(q: Queue, now: real, id: nat)
      ensures id !in q.jobs ==> Reset(q, now, id) == q
    {}

    // ---------------------------------------------------------------- time, the poller and the consumer

    method Tick(to: real)
      requires Valid() && to >= app.db.clock
      modifies this, app.db
      ensures Valid() && run == old(run) + [Action.Tick(to)]
    {
      hide After;
      app.db.clock := to;
      Log(Action.Tick(to));
    }

    method PollJobs() returns (ids: seq<nat>)
      requires Valid()
      modifies this, app.queue
      ensures Valid() && run == old(run) + [Action.PollJobs(ids)]
      ensures Selection(old(app.View()).q, app.db.clock, ids)
    {
      hide After, Selection, Poll;
      ids := app.worker.EnqueueDueJobs();
      Log(Action.PollJobs(ids));
    }

    method ResumePut(i: nat)
      requires Valid() && i < |app.queue.tails|
      modifies this, app.queue
      ensures Valid() && run == old(run) + [ResumeTail(i)]
    {
      hide After, Resume;
      ghost var q := app.queue.View(app.worker.current);
      app.queue.Resume(i);
      assert app.queue.View(app.worker.current) == Resume(q, app.db.clock, i);
      Log(ResumeTail(i));
    }

    method Restart()
      requires Valid()
      modifies this, app.queue
      ensures Valid() && run == old(run) + [RestartProcess]
    {
      hide After, Jobs.Restart;
      app.worker.Restart();
      Log(RestartProcess);
    }

    method TakeJob() returns (started: bool)
      requires Valid()
      modifies this, app.db, app.queue, app.worker
      ensures Valid() && run == old(run) + [Action.TakeJob]
      ensures started ==> app.worker.current.Busy? && app.worker.current.phase == Started
    {
      hide After, Take;
      started := app.worker.TakeNext();
      StartedByTake(old(app.View().q), started);
      Log(Action.TakeJob);
    }

    lemma StartedByTake(q: Queue, started: bool)
      requires started ==> q.worker == Idle && Take(q).worker != Idle
      ensures started ==> Take(q).worker.Busy? && Take(q).worker.phase == Started
    {}

    method FinishJob()
      requires Valid()
      modifies this, app.db, app.queue, app.worker
      ensures Valid() && run == old(run) + [Action.FinishJob]
    {
      hide After, Finish;
      app.worker.Finish();
      Log(Action.FinishJob);
    }

    // ---------------------------------------------------------------- the handler in flight

    /** The registered handler of the job in flight runs, up to a soft failure's answer. */
    method RunHandler(draw: real, fault: Fault, cut: Cut, ok: bool, elapsed: real, jitter: real,
                      deliveryCut: DeliveryCut)
      returns (ghost a: Action)
      requires Valid() && Current(app.View()).Some? && Jitter(jitter) && elapsed >= 0.0
      modifies this, app.db, app.queue, app.worker
      ensures Valid() && run == old(run) + [a]
      ensures match Current(old(app.View())).value
        case ProcessPayment(_) => a == RunPayment(draw, fault)
        case RetryPayment(_) => a == RunPayment(draw, fault)
        case ProcessRefund(_) => a.RunRefund? && a.draw == draw
        case DeliverWebhook(_) => a == RunDelivery(ok, elapsed, jitter, deliveryCut)
    {
      hide After, PaymentStep, RefundStep, DeliverStep, Next, Inv;
      ghost var s := app.View();
      match app.db.jobs[app.worker.current.job].task {
        case ProcessPayment(id) =>
          handlers.ProcessPayment(id, draw, fault);
          a := RunPayment(draw, fault);
          HandlerRuns(s, draw, fault, [], cut);
        case RetryPayment(id) =>
          handlers.RetryPayment(id, draw, fault);
          a := RunPayment(draw, fault);
          HandlerRuns(s, draw, fault, [], cut);
        case ProcessRefund(id) =>
          var ids, taken := refunds.ProcessRefund(id, draw, cut);
          a := RunRefund(draw, ids, taken);
          HandlerRuns(s, draw, fault, ids, taken);
        case DeliverWebhook(id) =>
          webhooks.Deliver(id, ok, elapsed, jitter, deliveryCut);
          a := RunDelivery(ok, elapsed, jitter, deliveryCut);
          DeliveryRuns(s, ok, elapsed, jitter, deliveryCut);
      }
      Log(a);
    }

    /** The rest of a payment handler after a soft failure. */
    method RunSoftFailure(jitter: real, fault: Fault)
      requires Valid() && Jitter(jitter)
      modifies this, app.db, app.queue, app.worker
      ensures Valid() && run == old(run) + [RunSoft(jitter, fault)]
    {
      hide After, SoftStep;
      handlers.AfterSoftFailure(jitter, fault);
      Log(RunSoft(jitter, fault));
    }
  }
}
