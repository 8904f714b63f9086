/** What no step ever takes back: rows, answers, terminal outcomes and identities. */
module Growth {
  import opened Common
  import opened Payments
  import opened Jobs
  import opened Refunds
  import opened Webhooks
  import opened System
  import opened Invariants
  import opened HandlerSteps

  /** A payment keeps its identity, only extends its history, and is frozen once terminal. */
  ghost predicate PaymentGrows(p: Payment, p': Payment) {
    && p'.key == p.key && p'.amount == p.amount && p'.customer == p.customer
    && p.history <= p'.history
    && (Payments.Terminal(p.status) ==> p' == p)
  }

  ghost predicate RefundGrows(r: Refund, r': Refund) {
    && r'.key == r.key && r'.amount == r.amount && r'.payment == r.payment
    && (Refunds.Terminal(r.status) ==> r' == r)
  }

  ghost predicate PaymentsGrow(m: map<nat, Payment>, m': map<nat, Payment>) {
    forall p :: p in m ==> p in m' && PaymentGrows(m[p], m'[p])
  }

  ghost predicate RecordsGrow(m: map<string, IdempotencyRecord>, m': map<string, IdempotencyRecord>) {
    forall k :: k in m ==> k in m' && m'[k] == m[k]
  }

  ghost predicate RefundsGrow(m: map<nat, Refund>, m': map<nat, Refund>) {
    forall r :: r in m ==> r in m' && RefundGrows(m[r], m'[r])
  }

  ghost predicate EventsGrow(m: map<nat, Event>, m': map<nat, Event>) {
    forall e :: e in m ==> e in m' && m'[e].refund == m[e].refund && m'[e].endpoint == m[e].endpoint
  }

  ghost predicate LogsGrow<T(!new)>(m: map<nat, seq<T>>, m': map<nat, seq<T>>) {
    forall i :: i in m ==> i in m' && m[i] <= m'[i]
  }

  ghost predicate TablesGrow(s: State, s': State) {
    && s'.max == s.max && s.clock <= s'.clock && s.next <= s'.next
    && PaymentsGrow(s.payments, s'.payments)
    && RecordsGrow(s.records, s'.records)
    && RefundsGrow(s.refunds, s'.refunds)
    && EventsGrow(s.events, s'.events)
    && LogsGrow(s.calls, s'.calls)
    && LogsGrow(s.posts, s'.posts)
  }

  lemma NothingGrows(s: State, s': State)
    requires s' == s.(clock := s'.clock, next := s'.next, q := s'.q, endpoints := s'.endpoints)
    requires s.clock <= s'.clock && s.next <= s'.next
    ensures TablesGrow(s, s')
  {}

  lemma GrowthComposes(s: State, t: State, u: State)
    requires TablesGrow(s, t) && TablesGrow(t, u)
    ensures TablesGrow(s, u)
  {
    forall p | p in s.payments ensures p in u.payments && PaymentGrows(s.payments[p], u.payments[p]) {
      assert PaymentGrows(s.payments[p], t.payments[p]) && PaymentGrows(t.payments[p], u.payments[p]);
    }
    forall r | r in s.refunds ensures r in u.refunds && RefundGrows(s.refunds[r], u.refunds[r]) {
      assert RefundGrows(s.refunds[r], t.refunds[r]) && RefundGrows(t.refunds[r], u.refunds[r]);
    }
  }

  /** The part of the invariant that growth rests on. */
  ghost predicate Keyed(s: State) {
    IdsOk(s) && s.calls.Keys == s.payments.Keys && s.posts.Keys == s.events.Keys && RecordsOk(s.payments, s.records)
  }

  // ---------------------------------------------------------------- step by step

  lemma RecordedKeysAreTaken(s: State)
    requires RecordsOk(s.payments, s.records)
    ensures forall k :: k in s.records ==> KeyTaken(s, k)
  {
    forall k | k in s.records ensures KeyTaken(s, k) { assert s.payments[s.records[k].payment].key == k; }
  }

  lemma CreatedKeyIsNew(s: State, cents: real, key: string)
    requires RecordsOk(s.payments, s.records) && CreateResultOf(s, cents, key).Created?
    ensures key !in s.records
  {
    RecordedKeysAreTaken(s);
  }

  lemma CreateGrows(s: State, customer: string, cents: real, metadata: Option<string>, key: string)
    requires Keyed(s)
    ensures TablesGrow(s, Create(s, customer, cents, metadata, key))
  {
    hide Enqueue, NewPayment, Stored;
    if CreateResultOf(s, cents, key).Created? {
      CreatedKeyIsNew(s, cents, key);
      assert s.next !in s.payments && s.next !in s.calls;
    }
  }

  lemma SettledGrows(p: Payment, outcome: Outcome, max: nat, metadata: Option<string>, now: real)
    requires !Payments.Terminal(p.status)
    ensures PaymentGrows(p, Settled(p, outcome, max, metadata, now))
  {}

  lemma PaymentRowGrows(s: State, t: State, id: nat, p: Payment)
    requires id in s.payments && PaymentGrows(s.payments[id], p)
    requires t == s.(payments := s.payments[id := p], calls := t.calls) && LogsGrow(s.calls, t.calls)
    ensures TablesGrow(s, t)
  {}

  lemma ConfirmGrows(s: State, id: nat, metadata: Option<string>, outcome: Outcome, source: Caller)
    ensures TablesGrow(s, Confirm(s, id, metadata, outcome, source))
  {
    hide Settled, PaymentGrows, TablesGrow;
    if id in s.payments && !Payments.Terminal(s.payments[id].status) {
      SettledGrows(s.payments[id], outcome, s.max, metadata, s.clock);
      PaymentRowGrows(s, Confirm(s, id, metadata, outcome, source), id,
                      Settled(s.payments[id], outcome, s.max, metadata, s.clock));
    } else {
      NothingGrows(s, s);
    }
  }

  lemma MarkGrows(s: State, id: nat)
    ensures TablesGrow(s, MarkExhausted(s, id))
  {
    if id in s.payments && !Payments.Terminal(s.payments[id].status) {
      assert PaymentGrows(s.payments[id], Exhausted(s.payments[id], s.clock));
    }
  }

  lemma InitiateGrows(s: State, payment: nat, cents: Option<real>, key: string)
    requires IdsOk(s)
    ensures TablesGrow(s, Initiate(s, payment, cents, key))
  {
    hide InitiateResultOf, Enqueue, Stored, Requested;
    if InitiateResultOf(s, payment, cents, key).Initiated? {
      assert s.next !in s.refunds;
    }
  }

  lemma EntersGrows(s: State, t: State, phase: Phase)
    requires TablesGrow(s, t)
    ensures TablesGrow(s, Enters(t, phase))
  {
    hide Enter, PaymentsGrow, RecordsGrow, RefundsGrow, EventsGrow, LogsGrow;
  }

  lemma ProcessGrows(s: State, id: nat, draw: real, fault: Fault)
    requires Current(s) == Some(ProcessPayment(id))
    ensures TablesGrow(s, PaymentStep(s, draw, fault))
  {
    hide TablesGrow, Confirm, Enters, ConfirmPhase, ConfirmResultOf, MarkExhausted;
    if fault == FaultBefore {
      NothingGrows(s, s);
      EntersGrows(s, s, Raised(Aborted));
    } else {
      var t := Confirm(s, id, None, Attempt(draw, fault), Worker(s.q.worker.job));
      ConfirmGrows(s, id, None, Attempt(draw, fault), Worker(s.q.worker.job));
      EntersGrows(s, t, ConfirmPhase(ConfirmResultOf(s, id, Attempt(draw, fault)), fault, Returned));
    }
  }

  lemma RetryGrows(s: State, id: nat, draw: real, fault: Fault)
    requires Current(s) == Some(RetryPayment(id))
    ensures TablesGrow(s, PaymentStep(s, draw, fault))
  {
    hide TablesGrow, Confirm, Enters, ConfirmPhase, ConfirmResultOf, MarkExhausted, MarkPhase;
    if fault == FaultBefore {
      NothingGrows(s, s);
      EntersGrows(s, s, Raised(Aborted));
    } else if id in s.payments && s.payments[id].retryCount >= s.max {
      MarkGrows(s, id);
      EntersGrows(s, MarkExhausted(s, id), MarkPhase(s, id, fault));
    } else {
      var t := Confirm(s, id, None, Attempt(draw, fault), Worker(s.q.worker.job));
      ConfirmGrows(s, id, None, Attempt(draw, fault), Worker(s.q.worker.job));
      EntersGrows(s, t, ConfirmPhase(ConfirmResultOf(s, id, Attempt(draw, fault)), fault, Raised(RowMissing)));
    }
  }

  lemma PaymentStepGrows(s: State, draw: real, fault: Fault)
    ensures TablesGrow(s, PaymentStep(s, draw, fault))
  {
    hide TablesGrow, Confirm, Enters, ConfirmPhase, ConfirmResultOf, MarkExhausted, MarkPhase;
    match Current(s)
    case Some(ProcessPayment(id)) => ProcessGrows(s, id, draw, fault);
    case Some(RetryPayment(id)) => RetryGrows(s, id, draw, fault);
    case _ => NothingGrows(s, s);
  }

  lemma ScheduleGrows(s: State, id: nat, count: nat, jitter: real)
    ensures TablesGrow(s, ScheduleRetry(s, id, count, jitter))
  {
    hide TablesGrow, Enter, Enqueue, NextRetryAt;
    NothingGrows(s, ScheduleRetry(s, id, count, jitter));
  }

  lemma SoftStepGrows(s: State, jitter: real, fault: Fault)
    ensures TablesGrow(s, SoftStep(s, jitter, fault))
  {
    hide TablesGrow, Enters, ScheduleRetry, MarkExhausted, MarkPhase;
    NothingGrows(s, s);
    match SoftTask(s)
    case Some((ProcessPayment(id), n)) =>
      if fault != NoFault { EntersGrows(s, s, Raised(Aborted)); } else { ScheduleGrows(s, id, n, jitter); }
    case Some((RetryPayment(id), n)) =>
      if fault != NoFault { EntersGrows(s, s, Raised(Aborted)); }
      else if n >= s.max { MarkGrows(s, id); EntersGrows(s, MarkExhausted(s, id), MarkPhase(s, id, fault)); }
      else { ScheduleGrows(s, id, n, jitter); }
    case _ =>
  }

  lemma FailGrows(s: State, id: nat)
    requires id in s.refunds && !Refunds.Terminal(s.refunds[id].status)
    ensures TablesGrow(s, Fail(s, id))
  {}

  lemma CompleteGrows(s: State, id: nat, ids: seq<nat>)
    requires IdsOk(s) && s.posts.Keys == s.events.Keys && id in s.refunds && !Refunds.Terminal(s.refunds[id].status)
    ensures TablesGrow(s, Complete(s, id, ids))
  {
    EventsShape(s.next, id, ids);
    var s' := Complete(s, id, ids);
    forall e | e in s.events ensures s'.events[e] == s.events[e] && s'.posts[e] == s.posts[e] {}
  }

  lemma FailRunGrows(s: State, id: nat, cut: Cut)
    requires id in s.refunds && !Refunds.Terminal(s.refunds[id].status)
    ensures TablesGrow(s, FailRun(s, id, cut))
  {
    hide TablesGrow, Enters, Fail;
    if cut.CutDuring? { NothingGrows(s, s); EntersGrows(s, s, Raised(Aborted)); }
    else { FailGrows(s, id); EntersGrows(s, Fail(s, id), Leave(cut)); }
  }

  lemma FanoutGrows(s: State, n: nat, k: nat)
    requires k <= n
    ensures TablesGrow(s, FanoutJobs(s, n, k))
  {
    hide TablesGrow, Insert, FanoutRows, FanoutTails;
    NothingGrows(s, FanoutJobs(s, n, k));
  }

  lemma CompleteRunGrows(s: State, id: nat, ids: seq<nat>, cut: Cut)
    requires IdsOk(s) && s.posts.Keys == s.events.Keys && id in s.refunds && !Refunds.Terminal(s.refunds[id].status)
    ensures TablesGrow(s, CompleteRun(s, id, ids, cut))
  {
    hide TablesGrow, Enters, Complete, FanoutJobs, IdsOk;
    if !cut.CutDuring? { CompleteGrows(s, id, ids); EntersGrows(s, Complete(s, id, ids), Leave(cut)); }
    else if cut.enqueued <= |ids| {
      FanoutGrows(s, |ids|, cut.enqueued);
      EntersGrows(s, FanoutJobs(s, |ids|, cut.enqueued), Raised(Aborted));
    } else { NothingGrows(s, s); }
  }

  lemma RefundRunGrows(s: State, id: nat, draw: real, ids: seq<nat>, cut: Cut)
    requires IdsOk(s) && s.posts.Keys == s.events.Keys && id in s.refunds
    ensures TablesGrow(s, RefundRun(s, id, draw, ids, cut))
  {
    hide TablesGrow, Enters, FailRun, CompleteRun, Audience, IdsOk;
    NothingGrows(s, s);
    if Refunds.Terminal(s.refunds[id].status) { EntersGrows(s, s, Leave(cut)); }
    else if !Refunds.Allowed(s.refunds[id].status, RefundStatus.Processing) {
      EntersGrows(s, s, Raised(InvalidTransition));
    }
    else if draw >= 0.95 { FailRunGrows(s, id, cut); }
    else if s.refunds[id].payment !in s.payments { CompleteRunGrows(s, id, [], cut); }
    else if Audience(s, s.payments[s.refunds[id].payment].customer, ids) { CompleteRunGrows(s, id, ids, cut); }
  }

  lemma RefundStepGrows(s: State, draw: real, ids: seq<nat>, cut: Cut)
    requires IdsOk(s) && s.posts.Keys == s.events.Keys
    ensures TablesGrow(s, RefundStep(s, draw, ids, cut))
  {
    hide TablesGrow, Enters, RefundRun, IdsOk;
    NothingGrows(s, s);
    match Current(s)
    case Some(ProcessRefund(id)) =>
      if id in s.refunds { RefundRunGrows(s, id, draw, ids, cut); } else { EntersGrows(s, s, Raised(RowMissing)); }
    case _ =>
  }

  lemma EventGrows(s: State, id: nat, e: Event)
    requires id in s.events && e.refund == s.events[id].refund && e.endpoint == s.events[id].endpoint
    ensures TablesGrow(s, s.(events := s.events[id := e]))
  {}

  lemma RecordGrows(s: State, id: nat, e: Event)
    requires id in s.events && e.refund == s.events[id].refund && e.endpoint == s.events[id].endpoint
    ensures TablesGrow(s, Record(s, id, e))
  {
    hide TablesGrow, Enter, Enqueue;
    var s1 := s.(events := s.events[id := e]);
    EventGrows(s, id, e);
    NothingGrows(s1, Record(s, id, e));
    GrowthComposes(s, s1, Record(s, id, e));
  }

  lemma SentGrows(s: State, id: nat, ok: bool, elapsed: real, recorded: bool)
    requires elapsed >= 0.0
    ensures TablesGrow(s, Sent(s, id, ok, elapsed, recorded))
  {}

  lemma DeliverRunGrows(s: State, id: nat, ok: bool, elapsed: real, jitter: real, cut: DeliveryCut)
    requires id in s.events && elapsed >= 0.0
    ensures TablesGrow(s, DeliverRun(s, id, ok, elapsed, jitter, cut))
  {
    hide TablesGrow, Record, Enters, PostsOf;
    if s.events[id].endpoint !in s.endpoints || !s.endpoints[s.events[id].endpoint].active {
      RecordGrows(s, id, Undeliverable(s.events[id], s.clock));
    } else if cut == CutAfterPost {
      SentGrows(s, id, ok, elapsed, false);
      EntersGrows(s, Sent(s, id, ok, elapsed, false), Raised(Aborted));
    } else {
      var t, e := Sent(s, id, ok, elapsed, true), AfterPost(s.events[id], ok, jitter, s.clock);
      SentGrows(s, id, ok, elapsed, true);
      RecordGrows(t, id, e);
      GrowthComposes(s, t, Record(t, id, e));
    }
  }

  lemma DeliverStepGrows(s: State, ok: bool, elapsed: real, jitter: real, cut: DeliveryCut)
    requires elapsed >= 0.0
    ensures TablesGrow(s, DeliverStep(s, ok, elapsed, jitter, cut))
  {
    hide TablesGrow, Enters, DeliverRun;
    NothingGrows(s, s);
    match Current(s)
    case Some(DeliverWebhook(id)) =>
      if cut == CutBeforePost { EntersGrows(s, s, Raised(Aborted)); }
      else if id !in s.events { EntersGrows(s, s, Returned); }
      else { DeliverRunGrows(s, id, ok, elapsed, jitter, cut); }
    case _ =>
  }

  lemma QueueStepGrows(s: State, q: Queue)
    ensures TablesGrow(s, s.(q := q))
  {}

  lemma RequestGrows(s: State, a: Action)
    requires Keyed(s) && (a.CreateRequest? || a.ConfirmRequest? || a.RefundRequest?)
    ensures TablesGrow(s, Next(s, a))
  {
    hide TablesGrow, Create, Confirm, Initiate;
    match a
    case CreateRequest(customer, cents, metadata, key) =>
      QueueStepGrows(s, s.q);
      CreateGrows(s, customer, cents, metadata, key);
    case ConfirmRequest(id, metadata, draw, cut) => ConfirmGrows(s, id, metadata, Classify(draw, cut), Http);
    case RefundRequest(id, cents, key) => QueueStepGrows(s, s.q); InitiateGrows(s, id, cents, key);
    case _ =>
  }

  lemma PaymentRunGrows(s: State, a: Action)
    requires a.RunPayment? || a.RunSoft?
    ensures TablesGrow(s, Next(s, a))
  {
    hide TablesGrow, PaymentStep, SoftStep;
    match a
    case RunPayment(draw, fault) => PaymentStepGrows(s, draw, fault);
    case RunSoft(jitter, fault) => if Jitter(jitter) { SoftStepGrows(s, jitter, fault); } else { NothingGrows(s, s); }
    case _ =>
  }

  lemma EffectRunGrows(s: State, a: Action)
    requires Keyed(s) && (a.RunRefund? || a.RunDelivery?)
    ensures TablesGrow(s, Next(s, a))
  {
    hide TablesGrow, RefundStep, DeliverStep;
    match a
    case RunRefund(draw, ids, cut) => RefundStepGrows(s, draw, ids, cut);
    case RunDelivery(ok, elapsed, jitter, cut) =>
      if Jitter(jitter) && elapsed >= 0.0 {
        DeliverStepGrows(s, ok, elapsed, jitter, cut);
      } else {
        NothingGrows(s, s);
      }
    case _ =>
  }

  lemma EndpointGrows(s: State, next: nat, endpoints: map<nat, Endpoint>, later: real)
    requires s.next <= next && s.clock <= later
    ensures TablesGrow(s, s.(next := next, endpoints := endpoints, clock := later))
  {}

  lemma QueueActionGrows(s: State, a: Action)
    requires a.OperatorRetry? || a.PollJobs? || a.ResumeTail? || a.RestartProcess? || a.TakeJob? || a.FinishJob?
    ensures TablesGrow(s, Next(s, a))
  {
    hide TablesGrow, Reset, Poll, Resume, Restart, Take, Finish, Selection;
    QueueStepGrows(s, s.q);
    match a
    case OperatorRetry(j) => QueueStepGrows(s, Reset(s.q, s.clock, j));
    case PollJobs(ids) => QueueStepGrows(s, Poll(s.q, ids));
    case ResumeTail(i) => if i < |s.q.tails| { QueueStepGrows(s, Resume(s.q, s.clock, i)); }
    case RestartProcess => QueueStepGrows(s, Restart(s.q));
    case TakeJob => QueueStepGrows(s, Take(s.q));
    case FinishJob => QueueStepGrows(s, Finish(s.q, s.clock));
  }

  lemma PlainGrows(s: State, a: Action)
    requires a.Tick? || a.RegisterEndpoint? || a.DeactivateEndpoint?
    ensures TablesGrow(s, Next(s, a))
  {
    hide TablesGrow;
    QueueStepGrows(s, s.q);
    match a
    case Tick(to) => if to >= s.clock { EndpointGrows(s, s.next, s.endpoints, to); }
    case RegisterEndpoint(client) =>
      EndpointGrows(s, s.next + 1, s.endpoints[s.next := Endpoint(client, true)], s.clock);
    case DeactivateEndpoint(e) =>
      if e in s.endpoints { EndpointGrows(s, s.next, s.endpoints[e := s.endpoints[e].(active := false)], s.clock); }
  }

  /** Every step only adds to the tables. */
  lemma NextGrows(s: State, a: Action)
    requires Keyed(s)
    ensures TablesGrow(s, Next(s, a))
  {
    hide TablesGrow, Next;
    if a.CreateRequest? || a.ConfirmRequest? || a.RefundRequest? { RequestGrows(s, a); }
    else if a.RunPayment? || a.RunSoft? { PaymentRunGrows(s, a); }
    else if a.RunRefund? || a.RunDelivery? { EffectRunGrows(s, a); }
    else if a.Tick? || a.RegisterEndpoint? || a.DeactivateEndpoint? { PlainGrows(s, a); }
    else { QueueActionGrows(s, a); }
  }
}
