/** What every reachable state satisfies, group by group, and why every step keeps it. */
module Invariants {
  import opened Common
  import opened Payments
  import opened Jobs
  import opened Refunds
  import opened Webhooks
  import opened System

  // ---------------------------------------------------------------- the groups

  ghost predicate PaymentsOk(max: nat, payments: map<nat, Payment>, calls: map<nat, seq<Payments.Call>>) {
    && calls.Keys == payments.Keys
    && forall p :: p in payments ==> Follows(payments[p], calls[p], max)
  }

  /** Payments and idempotency records correspond one to one by key. */
  ghost predicate RecordsOk(payments: map<nat, Payment>, records: map<string, IdempotencyRecord>) {
    && (forall k :: k in records ==>
          records[k].payment in payments && payments[records[k].payment].key == k && records[k].body.Some?)
    && (forall p :: p in payments ==> payments[p].key in records && records[payments[p].key].payment == p)
  }

  ghost predicate RefundsOk(payments: map<nat, Payment>, refunds: map<nat, Refund>, next: nat) {
    && (forall r :: r in refunds ==>
          && r < next && refunds[r].amount >= 0 && refunds[r].status != RefundStatus.Processing
          && refunds[r].payment in payments && payments[refunds[r].payment].status == Success)
    && (forall r, t :: r in refunds && t in refunds && refunds[r].key == refunds[t].key ==> r == t)
    && (forall p :: p in payments ==> Held(refunds, p, next) <= payments[p].amount)
  }

  ghost predicate EventRowOk(e: Event, posts: seq<Post>, refunds: map<nat, Refund>, endpoints: map<nat, Endpoint>) {
    && EventOk(e, posts)
    && e.refund in refunds && refunds[e.refund].status == RefundStatus.Completed
    && (e.status == EventStatus.Dead && e.attempts < MAX_DELIVERIES ==>
        e.endpoint !in endpoints || !endpoints[e.endpoint].active)
  }

  ghost predicate EventsOk(events: map<nat, Event>, posts: map<nat, seq<Post>>, refunds: map<nat, Refund>,
                           endpoints: map<nat, Endpoint>) {
    && posts.Keys == events.Keys
    && (forall e :: e in events ==> EventRowOk(events[e], posts[e], refunds, endpoints))
    && (forall e, f ::
          e in events && f in events && (events[e].refund, events[e].endpoint) == (events[f].refund, events[f].endpoint)
          ==> e == f)
  }

  ghost predicate Known(s: State, t: Task) {
    match t
    case ProcessPayment(p) => p in s.payments
    case RetryPayment(p) => p in s.payments
    case ProcessRefund(r) => r in s.refunds
    case DeliverWebhook(e) => e < s.next
  }

  ghost predicate IdsOk(s: State) {
    && s.max >= 1
    && (forall p :: p in s.payments ==> p < s.next)
    && (forall r :: r in s.refunds ==> r < s.next)
    && (forall e :: e in s.endpoints ==> e < s.next)
    && (forall e :: e in s.events ==> e < s.next && s.events[e].endpoint < s.next)
    && (forall j :: j in s.q.jobs ==>
        j < s.next && Known(s, s.q.jobs[j].task) && s.q.jobs[j].maxAttempts == DEFAULT_MAX_ATTEMPTS)
  }

  /** The piece of work a job stands for. */
  datatype Target = PaymentTarget(id: nat) | RefundTarget(id: nat) | EventTarget(id: nat)

  function TargetOf(t: Task): Target {
    match t
    case ProcessPayment(p) => PaymentTarget(p)
    case RetryPayment(p) => PaymentTarget(p)
    case ProcessRefund(r) => RefundTarget(r)
    case DeliverWebhook(e) => EventTarget(e)
  }

  predicate Live(status: JobStatus) {
    status == JobStatus.Queued || status == Running || status == JobStatus.Dead
  }

  /** The job is queued, running or dead, and its handler has not just handed the work on. */
  predicate Carries(q: Queue, j: nat, t: Target) {
    j in q.jobs && TargetOf(q.jobs[j].task) == t && Live(q.jobs[j].status) && q.worker != Busy(j, Returned)
  }

  predicate IsOpen(s: State, t: Target) {
    match t
    case PaymentTarget(p) => p in s.payments && !Payments.Terminal(s.payments[p].status)
    case RefundTarget(r) => r in s.refunds && !Refunds.Terminal(s.refunds[r].status)
    case EventTarget(e) => e in s.events && Webhooks.Open(s.events[e])
  }

  ghost predicate Carried(q: Queue, t: Target) {
    exists j :: Carries(q, j, t)
  }

  ghost predicate DeliveryOk(s: State, j: nat, e: nat)
    requires j in s.q.jobs && e in s.events
  {
    && Webhooks.Open(s.events[e])
    && (s.events[e].nextRetryAt.Some? ==> s.q.jobs[j].runAt >= s.events[e].nextRetryAt.value)
  }

  /** No piece of work is carried twice, and none that is open is carried by nobody. */
  ghost predicate LinkOk(s: State) {
    && (forall j, k, t :: Carries(s.q, j, t) && Carries(s.q, k, t) ==> j == k)
    && (forall t :: IsOpen(s, t) ==> Carried(s.q, t))
    && (forall j, e :: Carries(s.q, j, EventTarget(e)) && e in s.events ==> DeliveryOk(s, j, e))
  }

  /** The handler in flight that saw a soft failure saw the latest call made by any job. */
  ghost predicate SoftOk(s: State) {
    SoftTask(s).Some? ==>
      var (task, n) := SoftTask(s).value;
      && TargetOf(task).PaymentTarget?
      && var p := TargetOf(task).id;
        && p in s.calls && 1 <= n <= |s.calls[p]|
        && LastByJob(s.calls[p]) == n - 1 && s.calls[p][n - 1].source == Worker(s.q.worker.job)
  }

  ghost predicate BackoffOk(s: State) {
    && (forall p :: p in s.calls ==> Spaced(s.calls[p]) && Timed(s.calls[p], s.clock))
    && (forall j, p :: Carries(s.q, j, PaymentTarget(p)) && p in s.calls ==> Waits(s.calls[p], j, s.q.jobs[j].runAt))
    && SoftOk(s)
  }

  /** The tables, row by row. */
  ghost predicate Rows(s: State) {
    && PaymentsOk(s.max, s.payments, s.calls)
    && RecordsOk(s.payments, s.records)
    && RefundsOk(s.payments, s.refunds, s.next)
    && EventsOk(s.events, s.posts, s.refunds, s.endpoints)
  }

  /** The work: ids, the queue, who carries what, and when. */
  ghost predicate Flow(s: State) {
    IdsOk(s) && QueueInv(s.q, s.clock) && LinkOk(s) && BackoffOk(s)
  }

  ghost predicate Inv(s: State) {
    Rows(s) && Flow(s)
  }

  lemma InitInv(max: nat)
    requires max >= 1
    ensures Inv(Init(max))
  {}

  // ---------------------------------------------------------------- steps inside the job system

  /** The queue changed, but every job still carries what it carried and starts no earlier. */
  ghost predicate Calm(q: Queue, r: Queue) {
    && r.jobs.Keys == q.jobs.Keys
    && (forall j :: j in q.jobs ==>
          && r.jobs[j].task == q.jobs[j].task && r.jobs[j].maxAttempts == q.jobs[j].maxAttempts
          && r.jobs[j].runAt >= q.jobs[j].runAt)
    && (forall j, t :: Carries(r, j, t) ==> Carries(q, j, t))
    && (forall j, t :: Carries(q, j, t) ==> Carries(r, j, t))
  }

  /** ... and no handler has just seen a soft failure. */
  ghost predicate Quiet(q: Queue, r: Queue) {
    Calm(q, r) && (r.worker.Busy? && r.worker.phase.Soft? ==> r.worker == q.worker)
  }

  lemma CalmLink(s: State, r: Queue)
    requires LinkOk(s) && Calm(s.q, r)
    ensures LinkOk(s.(q := r))
  {
    var s' := s.(q := r);
    forall t | IsOpen(s', t) ensures Carried(r, t) {
      assert IsOpen(s, t);
      var j :| Carries(s.q, j, t);
      assert Carries(r, j, t);
    }
    forall j, e | Carries(r, j, EventTarget(e)) && e in s.events ensures DeliveryOk(s', j, e) {
      assert Carries(s.q, j, EventTarget(e)) && DeliveryOk(s, j, e);
    }
  }

  lemma CalmBackoff(s: State, r: Queue)
    requires BackoffOk(s) && Calm(s.q, r) && SoftOk(s.(q := r))
    ensures BackoffOk(s.(q := r))
  {
    forall j, p | Carries(r, j, PaymentTarget(p)) && p in s.calls ensures Waits(s.calls[p], j, r.jobs[j].runAt) {
      assert Carries(s.q, j, PaymentTarget(p)) && Waits(s.calls[p], j, s.q.jobs[j].runAt);
    }
  }

  lemma CalmIds(s: State, r: Queue)
    requires IdsOk(s) && Calm(s.q, r)
    ensures IdsOk(s.(q := r))
  {}

  lemma CalmKeeps(s: State, r: Queue)
    requires Inv(s) && Calm(s.q, r) && QueueInv(r, s.clock) && SoftOk(s.(q := r))
    ensures Inv(s.(q := r))
  {
    CalmLink(s, r);
    CalmBackoff(s, r);
    CalmIds(s, r);
  }

  lemma QuietSoft(s: State, r: Queue)
    requires SoftOk(s) && Quiet(s.q, r)
    ensures SoftOk(s.(q := r))
  {
    if SoftTask(s.(q := r)).Some? { assert SoftTask(s.(q := r)) == SoftTask(s); }
  }

  lemma QuietKeeps(s: State, r: Queue)
    requires Inv(s) && Quiet(s.q, r) && QueueInv(r, s.clock)
    ensures Inv(s.(q := r))
  {
    QuietSoft(s, r);
    CalmKeeps(s, r);
  }

  lemma TickBackoff(s: State, to: real)
    requires BackoffOk(s) && to >= s.clock
    ensures BackoffOk(s.(clock := to))
  {
    var s' := s.(clock := to);
    forall p | p in s'.calls ensures Timed(s'.calls[p], to) { assert Timed(s.calls[p], s.clock); }
  }

  lemma TickLink(s: State, to: real)
    requires LinkOk(s)
    ensures LinkOk(s.(clock := to))
  {
    var s' := s.(clock := to);
    forall t | IsOpen(s', t) ensures Carried(s'.q, t) { assert IsOpen(s, t); }
    forall j, e | Carries(s'.q, j, EventTarget(e)) && e in s'.events ensures DeliveryOk(s', j, e) {
      assert DeliveryOk(s, j, e);
    }
  }

  lemma TickIds(s: State, to: real)
    requires IdsOk(s)
    ensures IdsOk(s.(clock := to))
  {
    var s' := s.(clock := to);
    forall j | j in s'.q.jobs ensures Known(s', s'.q.jobs[j].task) { assert Known(s, s.q.jobs[j].task); }
  }

  lemma TickKeeps(s: State, to: real)
    requires Inv(s) && to >= s.clock
    ensures Inv(s.(clock := to))
  {
    ClockKeepsQueue(s.q, s.clock, to);
    TickIds(s, to);
    TickBackoff(s, to);
    TickLink(s, to);
  }

  lemma TakeIsQuiet(q: Queue, now: real)
    requires QueueInv(q, now)
    ensures Quiet(q, Take(q))
  {
    if q.worker == Idle && q.dispatch != [] { assert Ripe(q, now, q.dispatch[0]) && JobOk(q, now, q.dispatch[0]); }
  }

  lemma FinishIsQuiet(q: Queue, now: real)
    requires QueueInv(q, now)
    ensures Quiet(q, Finish(q, now))
  {
    if q.worker != Idle {
      assert JobOk(q, now, q.worker.job);
      var r := Finish(q, now);
      forall j, t ensures Carries(r, j, t) <==> Carries(q, j, t) { if j in q.jobs { assert JobOk(q, now, j); } }
    }
  }

  lemma ResetIsQuiet(q: Queue, now: real, j: nat)
    requires QueueInv(q, now) && j in q.jobs && q.jobs[j].status == JobStatus.Dead
    ensures Quiet(q, Reset(q, now, j))
  {
    assert JobOk(q, now, j);
  }

  lemma RaiseIsQuiet(q: Queue, error: Cause)
    requires q.worker.Busy? && (q.worker.phase == Started || q.worker.phase.Soft?)
    ensures Quiet(q, Enter(q, Raised(error)))
  {}

  lemma ResetKeeps(s: State, j: nat)
    requires Inv(s) && j in s.q.jobs && s.q.jobs[j].status == JobStatus.Dead
    ensures Inv(s.(q := Reset(s.q, s.clock, j)))
  {
    var r := Reset(s.q, s.clock, j);
    ResetIsQuiet(s.q, s.clock, j);
    ResetKeepsQueueIff(s.q, s.clock, j);
    QuietKeeps(s, r);
  }

  lemma PollKeeps(s: State, ids: seq<nat>)
    requires Inv(s) && Selection(s.q, s.clock, ids)
    ensures Inv(s.(q := Poll(s.q, ids)))
  {
    PollKeepsQueue(s.q, s.clock, ids);
    QuietKeeps(s, Poll(s.q, ids));
  }

  lemma ResumeKeeps(s: State, i: nat)
    requires Inv(s) && i < |s.q.tails|
    ensures Inv(s.(q := Resume(s.q, s.clock, i)))
  {
    ResumeKeepsQueue(s.q, s.clock, i);
    QuietKeeps(s, Resume(s.q, s.clock, i));
  }

  lemma RestartKeeps(s: State)
    requires Inv(s)
    ensures Inv(s.(q := Restart(s.q)))
  {
    RestartKeepsQueue(s.q, s.clock);
    QuietKeeps(s, Restart(s.q));
  }

  lemma TakeKeeps(s: State)
    requires Inv(s)
    ensures Inv(s.(q := Take(s.q)))
  {
    var r := Take(s.q);
    assert QueueInv(r, s.clock) && Quiet(s.q, r) by {
      TakeKeepsQueue(s.q, s.clock);
      TakeIsQuiet(s.q, s.clock);
    }
    QuietKeeps(s, r);
  }

  lemma FinishKeeps(s: State)
    requires Inv(s)
    ensures Inv(s.(q := Finish(s.q, s.clock)))
  {
    var r := Finish(s.q, s.clock);
    assert QueueInv(r, s.clock) && Quiet(s.q, r) by {
      FinishKeepsQueue(s.q, s.clock);
      FinishIsQuiet(s.q, s.clock);
    }
    QuietKeeps(s, r);
  }
}
