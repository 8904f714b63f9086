/** Every request and every handler step keeps the invariant. */
module Preservation {
  import opened Common
  import opened Payments
  import opened Jobs
  import opened Refunds
  import opened Webhooks
  import opened System
  import opened Invariants

  // ---------------------------------------------------------------- who carries what after a step

  /** New rows, and perhaps the job in flight handing its work on. */
  function Advance(q: Queue, rows: map<nat, Job>, tails: seq<Tail>, closing: bool): Queue {
    if closing then Enter(Insert(q, rows, tails), Returned) else Insert(q, rows, tails)
  }

  ghost predicate MayClose(q: Queue, closing: bool) {
    closing ==> q.worker.Busy? && q.worker.phase != Returned && q.worker.job in q.jobs
  }

  lemma AdvanceCarries(q: Queue, rows: map<nat, Job>, tails: seq<Tail>, closing: bool, j: nat, t: Target)
    requires FreshRows(q, rows, tails) && MayClose(q, closing)
    requires q.worker.Busy? ==> q.worker.job in q.jobs
    ensures Carries(Advance(q, rows, tails, closing), j, t) <==>
      (j in rows && TargetOf(rows[j].task) == t) || (Carries(q, j, t) && !(closing && j == q.worker.job))
  {}

  /** Work may be closed by the job that carries it or be passed to new rows, and nothing else. */
  lemma AdvanceLink(s: State, s': State, rows: map<nat, Job>, tails: seq<Tail>, closing: bool)
    requires LinkOk(s) && FreshRows(s.q, rows, tails) && MayClose(s.q, closing)
    requires s.q.worker.Busy? ==> s.q.worker.job in s.q.jobs
    requires s'.q == Advance(s.q, rows, tails, closing)
    requires forall j, k :: j in rows && k in rows && TargetOf(rows[j].task) == TargetOf(rows[k].task) ==> j == k
    requires forall j, k :: j in rows && Carries(s.q, k, TargetOf(rows[j].task)) ==> closing && k == s.q.worker.job
    requires forall t :: IsOpen(s', t) ==>
      || (IsOpen(s, t) && !(closing && Carries(s.q, s.q.worker.job, t)))
      || (exists j :: j in rows && TargetOf(rows[j].task) == t)
    requires forall j, e :: j in rows && TargetOf(rows[j].task) == EventTarget(e) && e in s'.events ==>
        DeliveryOk(s', j, e)
    requires forall j, e :: Carries(s.q, j, EventTarget(e)) && e in s'.events && !(closing && j == s.q.worker.job) ==>
      e in s.events && s'.events[e] == s.events[e]
    ensures LinkOk(s')
  {
    forall j, t ensures Carries(s'.q, j, t) <==>
      (j in rows && TargetOf(rows[j].task) == t) || (Carries(s.q, j, t) && !(closing && j == s.q.worker.job))
    {
      AdvanceCarries(s.q, rows, tails, closing, j, t);
    }
    forall t | IsOpen(s', t) ensures Carried(s'.q, t) {
      if j :| j in rows && TargetOf(rows[j].task) == t {
        assert Carries(s'.q, j, t);
      } else {
        var j :| Carries(s.q, j, t);
        assert Carries(s'.q, j, t);
      }
    }
    forall j, e | Carries(s'.q, j, EventTarget(e)) && e in s'.events ensures DeliveryOk(s', j, e) {
      if j !in rows { assert DeliveryOk(s, j, e); }
    }
  }

  lemma AdvanceQueue(q: Queue, now: real, rows: map<nat, Job>, tails: seq<Tail>, closing: bool)
    requires QueueInv(q, now) && FreshRows(q, rows, tails)
    ensures QueueInv(Advance(q, rows, tails, closing), now)
  {
    InsertKeepsQueue(q, now, rows, tails);
    EnterKeepsQueue(Insert(q, rows, tails), now, Returned);
  }

  /** The spacing of payment attempts only concerns rows that carry payments. */
  lemma AdvanceBackoff(s: State, s': State, rows: map<nat, Job>, tails: seq<Tail>, closing: bool)
    requires BackoffOk(s) && FreshRows(s.q, rows, tails) && MayClose(s.q, closing)
    requires s.q.worker.Busy? ==> s.q.worker.job in s.q.jobs
    requires s'.q == Advance(s.q, rows, tails, closing)
    requires s'.clock >= s.clock
    requires forall p :: p in s'.calls ==> (p in s.calls && s'.calls[p] == s.calls[p]) || s'.calls[p] == []
    requires s.calls.Keys <= s'.calls.Keys && forall p :: p in s.calls ==> s'.calls[p] == s.calls[p]
    requires forall j, p :: j in rows && TargetOf(rows[j].task) == PaymentTarget(p) && p in s'.calls ==>
        Waits(s'.calls[p], j, rows[j].runAt)
    ensures BackoffOk(s')
  {
    forall p | p in s'.calls ensures Spaced(s'.calls[p]) && Timed(s'.calls[p], s'.clock) {
      if p in s.calls { assert Timed(s.calls[p], s.clock); }
    }
    forall j, p | Carries(s'.q, j, PaymentTarget(p)) && p in s'.calls
      ensures Waits(s'.calls[p], j, s'.q.jobs[j].runAt)
    {
      AdvanceCarries(s.q, rows, tails, closing, j, PaymentTarget(p));
    }
    if SoftTask(s').Some? { assert SoftTask(s') == SoftTask(s); }
  }

  // ---------------------------------------------------------------- requests

  lemma TotalsKeep(payments: map<nat, Payment>, refunds: map<nat, Refund>, next: nat, later: nat)
    requires RefundsOk(payments, refunds, next) && next <= later
    ensures RefundsOk(payments, refunds, later)
  {
    forall p | p in payments ensures Held(refunds, p, later) <= payments[p].amount {
      TotalsExtend(refunds, p, next, later);
    }
  }

  lemma NewPaymentRow(max: nat, payments: map<nat, Payment>, calls: map<nat, seq<Payments.Call>>, id: nat, p: Payment)
    requires PaymentsOk(max, payments, calls) && id !in payments && Follows(p, [], max)
    ensures PaymentsOk(max, payments[id := p], calls[id := []])
  {}

  lemma NewRecord(payments: map<nat, Payment>, records: map<string, IdempotencyRecord>, id: nat, p: Payment,
                  r: IdempotencyRecord)
    requires RecordsOk(payments, records) && id !in payments
    requires forall i :: i in payments ==> payments[i].key != p.key
    requires r.payment == id && r.body.Some?
    ensures RecordsOk(payments[id := p], records[p.key := r])
    ensures p.key !in records
  {}

  lemma NewPaymentRefunds(payments: map<nat, Payment>, refunds: map<nat, Refund>, next: nat, p: Payment, later: nat)
    requires RefundsOk(payments, refunds, next) && next !in payments && p.amount >= 0 && next <= later
    ensures RefundsOk(payments[next := p], refunds, later)
  {
    var payments' := payments[next := p];
    forall i | i in payments' ensures Held(refunds, i, later) <= payments'[i].amount {
      if i == next { SumExtend(HeldPart(refunds, next), 0, later); } else { TotalsExtend(refunds, i, next, later); }
    }
  }

  /** One job enqueued by a request, for a piece of work that nobody carries yet. */
  lemma EnqueueLink(s: State, s': State, id: nat, task: Task, runAt: real)
    requires LinkOk(s) && id !in s.q.jobs && (s.q.worker.Busy? ==> s.q.worker.job in s.q.jobs)
    requires s'.q == Enqueue(s.q, id, task, runAt) && s'.events == s.events && !TargetOf(task).EventTarget?
    requires forall k :: !Carries(s.q, k, TargetOf(task))
    requires forall t :: IsOpen(s', t) ==> IsOpen(s, t) || t == TargetOf(task)
    ensures LinkOk(s')
  {
    var rows := map[id := NewJob(task, runAt)];
    assert id in rows && rows[id].task == task;
    AdvanceLink(s, s', rows, [Tail(id, Some(runAt))], false);
  }

  lemma EnqueueQueue(q: Queue, now: real, id: nat, task: Task, runAt: real)
    requires QueueInv(q, now) && id !in q.jobs
    ensures QueueInv(Enqueue(q, id, task, runAt), now)
  {
    InsertKeepsQueue(q, now, map[id := NewJob(task, runAt)], [Tail(id, Some(runAt))]);
  }

  lemma NoCallNoWait(job: nat, at: real)
    ensures Waits([], job, at)
  {}

  lemma EnqueueBackoff(s: State, s': State, id: nat, task: Task, runAt: real)
    requires BackoffOk(s) && id !in s.q.jobs && (s.q.worker.Busy? ==> s.q.worker.job in s.q.jobs)
    requires s'.q == Enqueue(s.q, id, task, runAt) && s'.clock == s.clock
    requires s.calls.Keys <= s'.calls.Keys && forall p :: p in s'.calls ==>
        if p in s.calls then s'.calls[p] == s.calls[p] else s'.calls[p] == []
    requires TargetOf(task).PaymentTarget? ==> TargetOf(task).id !in s.calls
    ensures BackoffOk(s')
  {
    hide BackoffOk, Waits;
    var rows := map[id := NewJob(task, runAt)];
    NoCallNoWait(id, runAt);
    AdvanceBackoff(s, s', rows, [Tail(id, Some(runAt))], false);
  }

  lemma CreateRows(s: State, customer: string, cents: real, metadata: Option<string>, key: string)
    requires IdsOk(s) && PaymentsOk(s.max, s.payments, s.calls) && RecordsOk(s.payments, s.records)
    requires RefundsOk(s.payments, s.refunds, s.next)
    requires cents > 0.0 && CreateResultOf(s, cents, key).Created?
    ensures var s' := Create(s, customer, cents, metadata, key);
      && PaymentsOk(s'.max, s'.payments, s'.calls) && RecordsOk(s'.payments, s'.records)
      && RefundsOk(s'.payments, s'.refunds, s'.next)
  {
    hide PaymentsOk, RecordsOk, RefundsOk, Enqueue, Stored;
    var p := NewPayment(customer, Refunds.Stored(cents), key, metadata, s.clock);
    NewFollows(customer, Refunds.Stored(cents), key, metadata, s.clock, s.max);
    StoredNonNegative(cents);
    NewPaymentRow(s.max, s.payments, s.calls, s.next, p);
    NewRecord(s.payments, s.records, s.next, p,
        IdempotencyRecord(s.next, Some(p), CREATED_STATUS, s.clock + IDEMPOTENCY_WINDOW));
    NewPaymentRefunds(s.payments, s.refunds, s.next, p, s.next + 2);
  }

  lemma CreateIds(s: State, customer: string, cents: real, metadata: Option<string>, key: string)
    requires IdsOk(s) && CreateResultOf(s, cents, key).Created?
    ensures IdsOk(Create(s, customer, cents, metadata, key))
  {
    var s' := Create(s, customer, cents, metadata, key);
    forall j | j in s'.q.jobs ensures Known(s', s'.q.jobs[j].task) {
      if j in s.q.jobs { assert Known(s, s.q.jobs[j].task); }
    }
  }

  /** Nobody carries what does not exist yet. */
  lemma Uncarried(s: State, t: Target)
    requires IdsOk(s) && t.id >= s.next
    ensures forall k :: !Carries(s.q, k, t)
  {
    forall k ensures !Carries(s.q, k, t) {
      if k in s.q.jobs { assert Known(s, s.q.jobs[k].task); }
    }
  }

  lemma CreateLink(s: State, customer: string, cents: real, metadata: Option<string>, key: string)
    requires IdsOk(s) && LinkOk(s) && (s.q.worker.Busy? ==> s.q.worker.job in s.q.jobs)
    requires CreateResultOf(s, cents, key).Created?
    ensures LinkOk(Create(s, customer, cents, metadata, key))
  {
    hide NewPayment, Stored;
    var s' := Create(s, customer, cents, metadata, key);
    var task := ProcessPayment(s.next);
    Uncarried(s, TargetOf(task));
    forall t | IsOpen(s', t) ensures IsOpen(s, t) || t == TargetOf(task) {}
    EnqueueLink(s, s', s.next + 1, task, s.clock);
  }

  lemma CreateFlow(s: State, customer: string, cents: real, metadata: Option<string>, key: string)
    requires QueueInv(s.q, s.clock) && BackoffOk(s) && s.next + 1 !in s.q.jobs && s.next !in s.calls
    ensures var s' := Create(s, customer, cents, metadata, key); QueueInv(s'.q, s'.clock) && BackoffOk(s')
  {
    hide BackoffOk, Stored, NewPayment;
    var s' := Create(s, customer, cents, metadata, key);
    if CreateResultOf(s, cents, key).Created? {
      EnqueueQueue(s.q, s.clock, s.next + 1, ProcessPayment(s.next), s.clock);
      EnqueueBackoff(s, s', s.next + 1, ProcessPayment(s.next), s.clock);
    }
  }

  lemma CreateKeeps(s: State, customer: string, cents: real, metadata: Option<string>, key: string)
    requires Inv(s) && cents > 0.0 && CreateResultOf(s, cents, key).Created?
    ensures Inv(Create(s, customer, cents, metadata, key))
  {
    CreateRows(s, customer, cents, metadata, key);
    CreateIds(s, customer, cents, metadata, key);
    CreateLink(s, customer, cents, metadata, key);
    CreateFlow(s, customer, cents, metadata, key);
  }

  // -------- confirming a payment, over HTTP or by the job that carries it

  lemma SettledKeepsIdentity(p: Payment, outcome: Outcome, max: nat, metadata: Option<string>, now: real)
    ensures var q := Settled(p, outcome, max, metadata, now);
      q.key == p.key && q.amount == p.amount && q.customer == p.customer
  {}

  lemma ConfirmPayments(s: State, id: nat, metadata: Option<string>, outcome: Outcome, source: Caller)
    requires s.max >= 1 && PaymentsOk(s.max, s.payments, s.calls)
    requires id in s.payments && !Payments.Terminal(s.payments[id].status)
    ensures var s' := Confirm(s, id, metadata, outcome, source); PaymentsOk(s'.max, s'.payments, s'.calls)
  {
    SettledFollows(s.payments[id], s.calls[id], s.max, metadata, Payments.Call(outcome, s.clock, source));
  }

  /** A row that changed, but whose key, amount and success did not. */
  lemma ReplacedPayment(payments: map<nat, Payment>, records: map<string, IdempotencyRecord>,
                        refunds: map<nat, Refund>, next: nat, id: nat, p: Payment)
    requires RecordsOk(payments, records) && RefundsOk(payments, refunds, next)
    requires id in payments && p.key == payments[id].key && p.amount == payments[id].amount
    requires payments[id].status != Success
    ensures RecordsOk(payments[id := p], records) && RefundsOk(payments[id := p], refunds, next)
  {
    hide Held;
  }

  lemma ConfirmIds(s: State, id: nat, metadata: Option<string>, outcome: Outcome, source: Caller)
    requires IdsOk(s)
    ensures IdsOk(Confirm(s, id, metadata, outcome, source))
  {
    var s' := Confirm(s, id, metadata, outcome, source);
    forall j | j in s'.q.jobs ensures Known(s', s'.q.jobs[j].task) { assert Known(s, s.q.jobs[j].task); }
  }

  lemma ConfirmLink(s: State, id: nat, metadata: Option<string>, outcome: Outcome, source: Caller)
    requires LinkOk(s)
    ensures LinkOk(Confirm(s, id, metadata, outcome, source))
  {
    var s' := Confirm(s, id, metadata, outcome, source);
    forall t | IsOpen(s', t) ensures Carried(s'.q, t) { assert IsOpen(s, t); }
    forall j, e | Carries(s'.q, j, EventTarget(e)) && e in s'.events ensures DeliveryOk(s', j, e) {
      assert DeliveryOk(s, j, e);
    }
  }

  /** The call comes from a request, or from the handler that has just started for this payment. */
  ghost predicate Caused(s: State, id: nat, source: Caller) {
    source.Worker? ==> s.q.worker == Busy(source.job, Started) && Carries(s.q, source.job, PaymentTarget(id))
  }

  lemma ConfirmCalls(s: State, id: nat, source: Caller, c: Payments.Call)
    requires QueueInv(s.q, s.clock) && BackoffOk(s) && Caused(s, id, source) && id in s.calls
    requires c.at == s.clock && c.source == source
    ensures Spaced(s.calls[id] + [c]) && Timed(s.calls[id] + [c], s.clock)
  {
    if source.Worker? {
      assert JobOk(s.q, s.clock, source.job);
      assert Waits(s.calls[id], source.job, s.q.jobs[source.job].runAt);
    }
    SpacedSnoc(s.calls[id], c);
    TimedSnoc(s.calls[id], c, s.clock);
  }

  lemma ConfirmBackoff(s: State, id: nat, metadata: Option<string>, outcome: Outcome, source: Caller)
    requires QueueInv(s.q, s.clock) && BackoffOk(s) && LinkOk(s) && Caused(s, id, source)
    requires s.calls.Keys == s.payments.Keys
    requires id in s.payments && !Payments.Terminal(s.payments[id].status)
    ensures BackoffOk(Confirm(s, id, metadata, outcome, source))
  {
    hide QueueInv, Spaced, Timed;
    var s' := Confirm(s, id, metadata, outcome, source);
    var c := Payments.Call(outcome, s.clock, source);
    ConfirmCalls(s, id, source, c);
    LastSnoc(s.calls[id], c);
    forall j, p | Carries(s'.q, j, PaymentTarget(p)) && p in s'.calls
      ensures Waits(s'.calls[p], j, s'.q.jobs[j].runAt)
    {
      assert Carries(s.q, j, PaymentTarget(p)) && Waits(s.calls[p], j, s.q.jobs[j].runAt);
    }
    assert SoftTask(s') == SoftTask(s);
  }

  lemma ConfirmKeeps(s: State, id: nat, metadata: Option<string>, outcome: Outcome, source: Caller)
    requires Inv(s) && Caused(s, id, source)
    ensures Inv(Confirm(s, id, metadata, outcome, source))
  {
    hide RecordsOk, RefundsOk, EventsOk, LinkOk, Settled;
    if id in s.payments && !Payments.Terminal(s.payments[id].status) {
      ConfirmPayments(s, id, metadata, outcome, source);
      SettledKeepsIdentity(s.payments[id], outcome, s.max, metadata, s.clock);
      ReplacedPayment(s.payments, s.records, s.refunds, s.next, id,
          Settled(s.payments[id], outcome, s.max, metadata, s.clock));
      ConfirmIds(s, id, metadata, outcome, source);
      ConfirmLink(s, id, metadata, outcome, source);
      ConfirmBackoff(s, id, metadata, outcome, source);
    }
  }

  // -------- endpoints

  lemma EndpointRows(s: State, endpoints: map<nat, Endpoint>)
    requires EventsOk(s.events, s.posts, s.refunds, s.endpoints)
    requires forall e ::
      e in s.events && s.events[e].endpoint in endpoints && endpoints[s.events[e].endpoint].active ==>
      s.events[e].endpoint in s.endpoints && s.endpoints[s.events[e].endpoint].active
    ensures EventsOk(s.events, s.posts, s.refunds, endpoints)
  {
    forall e | e in s.events ensures EventRowOk(s.events[e], s.posts[e], s.refunds, endpoints) {
      assert EventRowOk(s.events[e], s.posts[e], s.refunds, s.endpoints);
    }
  }

  /** Tables that only `endpoints` and the id counter distinguish are equally well linked. */
  lemma EndpointFlow(s: State, s': State)
    requires IdsOk(s) && LinkOk(s) && BackoffOk(s)
    requires s' == s.(endpoints := s'.endpoints, next := s'.next) && s.next <= s'.next
    requires forall e :: e in s'.endpoints ==> e < s'.next
    ensures IdsOk(s') && LinkOk(s') && BackoffOk(s')
  {
    forall j | j in s'.q.jobs ensures Known(s', s'.q.jobs[j].task) { assert Known(s, s.q.jobs[j].task); }
    forall t | IsOpen(s', t) ensures Carried(s'.q, t) { assert IsOpen(s, t); }
    forall j, e | Carries(s'.q, j, EventTarget(e)) && e in s'.events ensures DeliveryOk(s', j, e) {
      assert DeliveryOk(s, j, e);
    }
    assert SoftTask(s') == SoftTask(s);
  }

  lemma EndpointsKeep(s: State, s': State)
    requires Inv(s)
    requires s' == s.(endpoints := s'.endpoints, next := s'.next) && s.next <= s'.next
    requires forall e :: e in s'.endpoints ==> e < s'.next
    requires forall e :: e in s'.endpoints && e !in s.endpoints ==> s.next <= e
    requires forall e :: e in s'.endpoints && e in s.endpoints && s'.endpoints[e].active ==> s.endpoints[e].active
    ensures Inv(s')
  {
    EndpointRows(s, s'.endpoints);
    TotalsKeep(s.payments, s.refunds, s.next, s'.next);
    EndpointFlow(s, s');
  }

  // -------- initiating a refund

  lemma RequestedFits(s: State, payment: nat, cents: Option<real>, key: string)
    requires payment in s.payments && InitiateResultOf(s, payment, cents, key).Initiated?
    requires cents.Some? ==> cents.value > 0.0
    ensures 0 <= Refunds.Stored(Requested(s, payment, cents)) <= Remaining(s, payment)
  {
    var x := Requested(s, payment, cents);
    StoredWithinLimit(x, Remaining(s, payment));
    StoredNonNegative(x);
  }

  lemma InitiateRows(s: State, payment: nat, cents: Option<real>, key: string)
    requires RefundsOk(s.payments, s.refunds, s.next) && (cents.Some? ==> cents.value > 0.0)
    requires InitiateResultOf(s, payment, cents, key).Initiated?
    ensures var s' := Initiate(s, payment, cents, key); RefundsOk(s'.payments, s'.refunds, s'.next)
  {
    hide Held, Stored, Enqueue;
    var s' := Initiate(s, payment, cents, key);
    var r := s'.refunds[s.next];
    RequestedFits(s, payment, cents, key);
    forall p | p in s'.payments ensures Held(s'.refunds, p, s'.next) <= s'.payments[p].amount {
      HeldInsert(s.refunds, s.next, r, p, s.next, s'.next);
    }
    forall a, b | a in s'.refunds && b in s'.refunds && s'.refunds[a].key == s'.refunds[b].key ensures a == b {
      if a in s.refunds { assert !RefundKey(s, key, a); }
      if b in s.refunds { assert !RefundKey(s, key, b); }
    }
  }

  lemma InitiateEvents(s: State, payment: nat, cents: Option<real>, key: string)
    requires IdsOk(s) && EventsOk(s.events, s.posts, s.refunds, s.endpoints)
    ensures var s' := Initiate(s, payment, cents, key); EventsOk(s'.events, s'.posts, s'.refunds, s'.endpoints)
  {
    hide Stored, Requested, Enqueue, EventOk;
    var s' := Initiate(s, payment, cents, key);
    forall e | e in s'.events ensures EventRowOk(s'.events[e], s'.posts[e], s'.refunds, s'.endpoints) {
      assert EventRowOk(s.events[e], s.posts[e], s.refunds, s.endpoints);
    }
  }

  lemma EnqueuedRow(q: Queue, id: nat, task: Task, runAt: real)
    ensures Enqueue(q, id, task, runAt).jobs == q.jobs[id := NewJob(task, runAt)]
  {}

  /** One job and rows that its task names, all with ids handed out by now. */
  lemma OneJobMoreIds(s: State, s': State, id: nat, task: Task, runAt: real)
    requires IdsOk(s) && s.next <= s'.next && id < s'.next && s'.max == s.max
    requires s'.q.jobs == s.q.jobs[id := NewJob(task, runAt)]
    requires s'.payments == s.payments && s'.endpoints == s.endpoints && s'.events == s.events
    requires s.refunds.Keys <= s'.refunds.Keys && forall r :: r in s'.refunds ==> r < s'.next
    requires Known(s', task)
    ensures IdsOk(s')
  {
    forall j | j in s'.q.jobs ensures Known(s', s'.q.jobs[j].task) {
      if j != id { assert Known(s, s.q.jobs[j].task); }
    }
  }

  lemma InitiateIds(s: State, payment: nat, cents: Option<real>, key: string)
    requires IdsOk(s)
    ensures IdsOk(Initiate(s, payment, cents, key))
  {
    hide InitiateResultOf, Stored, Requested, Enqueue;
    if InitiateResultOf(s, payment, cents, key).Initiated? {
      EnqueuedRow(s.q, s.next + 1, ProcessRefund(s.next), s.clock);
      OneJobMoreIds(s, Initiate(s, payment, cents, key), s.next + 1, ProcessRefund(s.next), s.clock);
    }
  }

  lemma InitiateLink(s: State, payment: nat, cents: Option<real>, key: string)
    requires IdsOk(s) && LinkOk(s) && (s.q.worker.Busy? ==> s.q.worker.job in s.q.jobs)
    requires InitiateResultOf(s, payment, cents, key).Initiated?
    ensures LinkOk(Initiate(s, payment, cents, key))
  {
    hide InitiateResultOf, Stored, Requested;
    var s' := Initiate(s, payment, cents, key);
    var task := ProcessRefund(s.next);
    Uncarried(s, TargetOf(task));
    forall t | IsOpen(s', t) ensures IsOpen(s, t) || t == TargetOf(task) {}
    EnqueueLink(s, s', s.next + 1, task, s.clock);
  }

  lemma InitiateFlow(s: State, payment: nat, cents: Option<real>, key: string)
    requires QueueInv(s.q, s.clock) && BackoffOk(s) && s.next + 1 !in s.q.jobs
    ensures var s' := Initiate(s, payment, cents, key); QueueInv(s'.q, s'.clock) && BackoffOk(s')
  {
    hide BackoffOk, InitiateResultOf, Stored, Requested;
    var s' := Initiate(s, payment, cents, key);
    if InitiateResultOf(s, payment, cents, key).Initiated? {
      EnqueueQueue(s.q, s.clock, s.next + 1, ProcessRefund(s.next), s.clock);
      EnqueueBackoff(s, s', s.next + 1, ProcessRefund(s.next), s.clock);
    }
  }

  lemma InitiateKeeps(s: State, payment: nat, cents: Option<real>, key: string)
    requires Inv(s) && InitiateResultOf(s, payment, cents, key).Initiated? && (cents.Some? ==> cents.value > 0.0)
    ensures Inv(Initiate(s, payment, cents, key))
  {
    InitiateRows(s, payment, cents, key);
    InitiateEvents(s, payment, cents, key);
    InitiateIds(s, payment, cents, key);
    InitiateLink(s, payment, cents, key);
    InitiateFlow(s, payment, cents, key);
  }
}
