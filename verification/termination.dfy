/** Left alone, the back end comes to rest: a measure that every handler start lowers and no other
    background step raises. */
module Termination {
  import opened Common
  import opened Payments
  import opened Jobs
  import opened Refunds
  import opened Webhooks
  import opened System
  import opened Invariants
  import opened HandlerSteps
  import opened Runs

  /** Everything but requests that create work, new endpoints and operator retries. Confirms over
      HTTP, faults, restarts and polls may go on. */
  predicate Background(a: Action) {
    !(a.CreateRequest? || a.RefundRequest? || a.OperatorRetry? || a.RegisterEndpoint?)
  }

  // ---------------------------------------------------------------- the measure

  /** Handler starts a payment or delivery job may still cost, counting the retry job that a
      handler which saw a soft failure is about to enqueue. */
  function JobWeight(q: Queue, j: nat): int
    requires j in q.jobs
  {
    var left := q.jobs[j].maxAttempts - q.jobs[j].attempts;
    match q.jobs[j].status
    case Queued => left
    case Running =>
      left - 1 + (if q.worker.Busy? && q.worker.job == j && q.worker.phase.Soft? then DEFAULT_MAX_ATTEMPTS else 0)
    case _ => 0
  }

  /** Starts and fan-outs a refund job may still cost. */
  function RefundWeight(q: Queue, j: nat): int
    requires j in q.jobs
  {
    var left := q.jobs[j].maxAttempts - q.jobs[j].attempts;
    match q.jobs[j].status
    case Queued => 2 * left
    case Running => if q.worker == Busy(j, Started) then 2 * left - 1 else 2 * left - 2
    case _ => 0
  }

  function OtherLoad(q: Queue): nat -> int {
    (j: nat) => if j in q.jobs && !q.jobs[j].task.ProcessRefund? then JobWeight(q, j) else 0
  }

  function RefundLoad(q: Queue): nat -> int {
    (j: nat) => if j in q.jobs && q.jobs[j].task.ProcessRefund? then RefundWeight(q, j) else 0
  }

  /** Processor calls a payment may still cost. */
  function CallBudget(payments: map<nat, Payment>, max: nat): nat -> int {
    (p: nat) =>
      if p in payments && !Payments.Terminal(payments[p].status) && payments[p].retryCount < max
      then max - payments[p].retryCount else 0
  }

  /** POSTs an event may still cost. */
  function PostBudget(events: map<nat, Event>): nat -> int {
    (e: nat) => if e in events && Webhooks.Open(events[e]) then MAX_DELIVERIES - events[e].attempts else 0
  }

  ghost function Refunding(s: State): int { Sum(RefundLoad(s.q), s.next) }

  ghost function Working(s: State): int { Sum(OtherLoad(s.q), s.next) }

  ghost function Budget(s: State): int {
    Sum(CallBudget(s.payments, s.max), s.next) + Sum(PostBudget(s.events), s.next)
  }

  /** What one fan-out may add, and one more. */
  function FanoutPrice(endpoints: nat): int { 1 + 36 * endpoints }

  ghost function Scaled(price: int, refunding: int): int { price * refunding }

  ghost function Measure(s: State): int {
    Scaled(FanoutPrice(|s.endpoints|), Refunding(s)) + 3 * Budget(s) + Working(s)
  }

  // ---------------------------------------------------------------- what a step may spend

  ghost predicate Spends(s: State, t: State, refunding: int, budget: int, working: int) {
    && |t.endpoints| == |s.endpoints|
    && Refunding(t) <= Refunding(s) + refunding
    && Budget(t) <= Budget(s) + budget
    && Working(t) <= Working(s) + working
  }

  /** A free step, a paid attempt, or a paid fan-out. */
  ghost predicate Affords(s: State, t: State) {
    || Spends(s, t, 0, 0, 0)
    || Spends(s, t, 0, -1, 3)
    || Spends(s, t, -1, 10 * |s.endpoints|, 6 * |s.endpoints|)
  }

  lemma ScaledGrows(price: int, a: int, b: int)
    requires price >= 0 && a <= b
    ensures Scaled(price, a) <= Scaled(price, b)
  {
    assert price * (b - a) >= 0;
  }

  lemma ScaledNext(price: int, a: int)
    ensures Scaled(price, a + 1) == Scaled(price, a) + price
  {}

  lemma AffordsKeeps(s: State, t: State)
    requires Affords(s, t)
    ensures Measure(t) <= Measure(s)
  {
    hide Refunding, Working, Budget, Scaled;
    var price := FanoutPrice(|s.endpoints|);
    if Spends(s, t, -1, 10 * |s.endpoints|, 6 * |s.endpoints|) {
      ScaledNext(price, Refunding(t));
      ScaledGrows(price, Refunding(t) + 1, Refunding(s));
    } else {
      ScaledGrows(price, Refunding(t), Refunding(s));
    }
  }

  lemma StartPays(s: State, t: State)
    requires Spends(s, t, -1, 0, 0) || Spends(s, t, 0, 0, -1)
    ensures Measure(t) < Measure(s)
  {
    hide Refunding, Working, Budget, Scaled;
    var price := FanoutPrice(|s.endpoints|);
    ScaledNext(price, Refunding(t));
    if Spends(s, t, -1, 0, 0) {
      ScaledGrows(price, Refunding(t) + 1, Refunding(s));
    } else {
      ScaledGrows(price, Refunding(t), Refunding(s));
    }
  }

  // ---------------------------------------------------------------- sums over a longer range of ids

  lemma {:induction false} SumAtMost(f: nat -> int, n: nat, m: nat, c: nat)
    requires n <= m && forall i: nat :: n <= i < m ==> f(i) <= c
    ensures Sum(f, m) <= Sum(f, n) + c * (m - n)
  {
    if n < m {
      SumAtMost(f, n, m - 1, c);
      assert c * (m - n) == c * (m - 1 - n) + c;
    }
  }

  /** Old ids weigh at most what they did, new ones at most `c` each. */
  lemma SumGrows(f: nat -> int, g: nat -> int, n: nat, m: nat, c: nat)
    requires n <= m
    requires forall i: nat :: i < n ==> g(i) <= f(i)
    requires forall i: nat :: n <= i < m ==> g(i) <= c
    ensures Sum(g, m) <= Sum(f, n) + c * (m - n)
  {
    SumAtMost(g, n, m, c);
    SumMonotone(g, f, n);
  }

  /** ... and one old id weighs `d` more (or less). */
  lemma SumShifts(f: nat -> int, g: nat -> int, n: nat, m: nat, c: nat, k: nat, d: int)
    requires n <= m && k < n && g(k) <= f(k) + d
    requires forall i: nat :: i < n && i != k ==> g(i) <= f(i)
    requires forall i: nat :: n <= i < m ==> g(i) <= c
    ensures Sum(g, m) <= Sum(f, n) + c * (m - n) + d
  {
    var h: nat -> int := (i: nat) => if i == k then f(k) + d else f(i);
    SumGrows(h, g, n, m, c);
    SumChange(f, h, n, k);
  }

  // ---------------------------------------------------------------- queue steps

  /** Rows are added that are no refund jobs; the job in flight, if any, may change its phase. */
  ghost predicate Extends(q: Queue, r: Queue, n: nat, m: nat) {
    && n <= m
    && (forall j :: j in q.jobs ==> j < n && j in r.jobs && r.jobs[j] == q.jobs[j])
    && (forall j :: j in r.jobs && j !in q.jobs ==>
          n <= j < m && r.jobs[j].status == JobStatus.Queued && r.jobs[j].attempts == 0
          && r.jobs[j].maxAttempts == DEFAULT_MAX_ATTEMPTS && !r.jobs[j].task.ProcessRefund?)
    && (q.worker.Busy? <==> r.worker.Busy?) && (q.worker.Busy? ==> r.worker.job == q.worker.job)
    && (q.worker.Busy? && r.worker.phase == Started ==> q.worker.phase == Started)
  }

  /** The credit a phase holds for the retry that must still be enqueued. */
  function Credit(w: Worker): int {
    if w.Busy? && w.phase.Soft? then DEFAULT_MAX_ATTEMPTS else 0
  }

  lemma ExtendsWorking(q: Queue, r: Queue, n: nat, m: nat)
    requires Extends(q, r, n, m)
    requires q.worker.Busy? ==> q.worker.job in q.jobs && q.jobs[q.worker.job].status == Running && q.worker.job < n
    requires Credit(r.worker) != Credit(q.worker) ==> !q.jobs[q.worker.job].task.ProcessRefund?
    requires forall j :: j in q.jobs && q.jobs[j].status == Running ==> q.worker.Busy? && q.worker.job == j
    ensures Sum(OtherLoad(r), m) <= Sum(OtherLoad(q), n) + 3 * (m - n) + Credit(r.worker) - Credit(q.worker)
  {
    if q.worker.Busy? && !q.jobs[q.worker.job].task.ProcessRefund? {
      SumShifts(OtherLoad(q), OtherLoad(r), n, m, 3, q.worker.job, Credit(r.worker) - Credit(q.worker));
    } else {
      SumGrows(OtherLoad(q), OtherLoad(r), n, m, 3);
    }
  }

  lemma ExtendsRefunding(q: Queue, r: Queue, n: nat, m: nat)
    requires Extends(q, r, n, m)
    requires q.worker.Busy? ==> q.worker.job in q.jobs && q.jobs[q.worker.job].status == Running && q.worker.job < n
    ensures Sum(RefundLoad(r), m) <= Sum(RefundLoad(q), n)
  {
    SumGrows(RefundLoad(q), RefundLoad(r), n, m, 0);
  }

  /** A refund handler that has run pays for what it did. */
  lemma ExtendsPays(q: Queue, r: Queue, n: nat, m: nat)
    requires Extends(q, r, n, m)
    requires q.worker.Busy? && q.worker.job in q.jobs && q.jobs[q.worker.job].status == Running && q.worker.job < n
    requires q.worker.phase == Started && r.worker.phase != Started && q.jobs[q.worker.job].task.ProcessRefund?
    ensures Sum(RefundLoad(r), m) <= Sum(RefundLoad(q), n) - 1
  {
    SumShifts(RefundLoad(q), RefundLoad(r), n, m, 0, q.worker.job, -1);
  }

  lemma RunningIsInFlight(q: Queue, now: real, j: nat)
    requires QueueInv(q, now) && j in q.jobs
    ensures q.jobs[j].status == Running <==> q.worker.Busy? && q.worker.job == j
    ensures 0 <= q.jobs[j].attempts <= q.jobs[j].maxAttempts
    ensures q.jobs[j].attempts == q.jobs[j].maxAttempts <==> q.jobs[j].status == JobStatus.Dead
    ensures q.jobs[j].status != JobStatus.Failed
  {
    assert JobOk(q, now, j);
  }

  /** The next id of the dispatch queue starts its handler. */
  lemma TakeShape(q: Queue, now: real)
    requires QueueInv(q, now) && q.worker == Idle && Take(q).worker != Idle
    ensures var r := Take(q);
      && r.worker.Busy? && r.worker.phase == Started
      && r.worker.job in q.jobs && q.jobs[r.worker.job].status == JobStatus.Queued
      && r.jobs == q.jobs[r.worker.job := q.jobs[r.worker.job].(status := Running)]
  {
    RunningIsInFlight(q, now, q.dispatch[0]);
  }

  lemma TakeLoads(q: Queue, now: real, n: nat)
    requires QueueInv(q, now) && q.worker == Idle && Take(q).worker != Idle
    requires forall j :: j in q.jobs ==> j < n
    ensures var r := Take(q);
      || (Sum(RefundLoad(r), n) <= Sum(RefundLoad(q), n) - 1 && Sum(OtherLoad(r), n) <= Sum(OtherLoad(q), n))
      || (Sum(RefundLoad(r), n) <= Sum(RefundLoad(q), n) && Sum(OtherLoad(r), n) <= Sum(OtherLoad(q), n) - 1)
  {
    hide Take, QueueInv;
    TakeShape(q, now);
    var r := Take(q);
    var j := r.worker.job;
    if q.jobs[j].task.ProcessRefund? {
      SumShifts(RefundLoad(q), RefundLoad(r), n, n, 0, j, -1);
      SumGrows(OtherLoad(q), OtherLoad(r), n, n, 0);
    } else {
      SumGrows(RefundLoad(q), RefundLoad(r), n, n, 0);
      SumShifts(OtherLoad(q), OtherLoad(r), n, n, 0, j, -1);
    }
  }

  lemma TakeSpends(s: State)
    requires IdsOk(s) && QueueInv(s.q, s.clock)
    ensures var t := s.(q := Take(s.q));
      if s.q.worker == Idle && t.q.worker != Idle
        then Spends(s, t, -1, 0, 0) || Spends(s, t, 0, 0, -1)
        else Spends(s, t, 0, 0, 0)
  {
    if s.q.worker == Idle && Take(s.q).worker != Idle {
      hide QueueInv, Take, OtherLoad, RefundLoad;
      TakeLoads(s.q, s.clock, s.next);
    } else {
      IdleSpends(s, s.(q := Take(s.q)));
    }
  }

  lemma FinishOther(q: Queue, now: real, j: nat)
    requires j in q.jobs && q.jobs[j].status != Running && !(q.worker.Busy? && q.worker.job == j)
    ensures RefundLoad(Finish(q, now))(j) == RefundLoad(q)(j) && OtherLoad(Finish(q, now))(j) == OtherLoad(q)(j)
  {
    var r := Finish(q, now);
    assert j in r.jobs && r.jobs[j] == q.jobs[j];
  }

  /** A failure costs the attempt that its start had already taken off. */
  lemma FinishOwn(q: Queue, now: real)
    requires q.worker.Busy? && q.worker.job in q.jobs && q.jobs[q.worker.job].status == Running
    requires q.jobs[q.worker.job].attempts < q.jobs[q.worker.job].maxAttempts
    ensures var r, j := Finish(q, now), q.worker.job;
      RefundLoad(r)(j) <= RefundLoad(q)(j) && OtherLoad(r)(j) <= OtherLoad(q)(j)
  {
    match q.worker.phase
    case Returned =>
    case Raised(error) =>
    case _ =>
  }

  lemma FinishWeights(q: Queue, now: real, j: nat)
    requires QueueInv(q, now)
    ensures RefundLoad(Finish(q, now))(j) <= RefundLoad(q)(j) && OtherLoad(Finish(q, now))(j) <= OtherLoad(q)(j)
  {
    if j in q.jobs {
      RunningIsInFlight(q, now, j);
      hide QueueInv, Finish, RefundLoad, OtherLoad;
      if q.worker.Busy? && q.worker.job == j { FinishOwn(q, now); } else { FinishOther(q, now, j); }
    } else {
      hide QueueInv, RefundWeight, JobWeight;
      assert j !in Finish(q, now).jobs;
    }
  }

  lemma FinishSpends(s: State)
    requires QueueInv(s.q, s.clock)
    ensures Spends(s, s.(q := Finish(s.q, s.clock)), 0, 0, 0)
  {
    hide QueueInv, Finish, OtherLoad, RefundLoad;
    var q, r := s.q, Finish(s.q, s.clock);
    forall j: nat | j < s.next ensures RefundLoad(r)(j) <= RefundLoad(q)(j) && OtherLoad(r)(j) <= OtherLoad(q)(j) {
      FinishWeights(q, s.clock, j);
    }
    SumGrows(RefundLoad(q), RefundLoad(r), s.next, s.next, 0);
    SumGrows(OtherLoad(q), OtherLoad(r), s.next, s.next, 0);
  }

  /** Steps that touch neither rows nor the worker nor what is still to be done cost nothing. */
  lemma IdleSpends(s: State, t: State)
    requires t.q.jobs == s.q.jobs && t.q.worker == s.q.worker && t.next == s.next && t.max == s.max
    requires t.payments == s.payments && t.events == s.events && |t.endpoints| == |s.endpoints|
    ensures Spends(s, t, 0, 0, 0)
  {
    SumSame(RefundLoad(s.q), RefundLoad(t.q), s.next);
    SumSame(OtherLoad(s.q), OtherLoad(t.q), s.next);
  }

  // ---------------------------------------------------------------- handler steps

  ghost predicate Steady(q: Queue, n: nat) {
    && (forall j :: j in q.jobs ==> j < n)
    && (q.worker.Busy? ==> q.worker.job in q.jobs && q.jobs[q.worker.job].status == Running)
    && (forall j :: j in q.jobs && q.jobs[j].status == Running ==> q.worker.Busy? && q.worker.job == j)
  }

  lemma SteadyState(s: State)
    requires Flow(s)
    ensures Steady(s.q, s.next)
  {
    hide LinkOk, BackoffOk, Known;
    forall j | j in s.q.jobs && s.q.jobs[j].status == Running ensures s.q.worker.Busy? && s.q.worker.job == j {
      RunningIsInFlight(s.q, s.clock, j);
    }
    if s.q.worker.Busy? { RunningIsInFlight(s.q, s.clock, s.q.worker.job); }
  }

  /** Whether the handler in flight works on a refund. */
  predicate OnRefund(q: Queue) {
    q.worker.Busy? && q.worker.job in q.jobs && q.jobs[q.worker.job].task.ProcessRefund?
  }

  lemma ExtendsSpends(s: State, t: State)
    requires Steady(s.q, s.next) && Extends(s.q, t.q, s.next, t.next)
    requires OnRefund(s.q) ==> Credit(t.q.worker) == Credit(s.q.worker)
    ensures Working(t) <= Working(s) + 3 * (t.next - s.next) + Credit(t.q.worker) - Credit(s.q.worker)
    ensures Refunding(t) <= Refunding(s)
    ensures OnRefund(s.q) && s.q.worker.phase == Started && t.q.worker.phase != Started ==>
        Refunding(t) <= Refunding(s) - 1
  {
    hide OtherLoad, RefundLoad;
    ExtendsWorking(s.q, t.q, s.next, t.next);
    ExtendsRefunding(s.q, t.q, s.next, t.next);
    if OnRefund(s.q) && s.q.worker.phase == Started && t.q.worker.phase != Started {
      ExtendsPays(s.q, t.q, s.next, t.next);
    }
  }

  lemma EnterExtends(q: Queue, phase: Phase, n: nat)
    requires Steady(q, n) && phase != Started
    ensures Extends(q, Enter(q, phase), n, n)
  {}

  lemma InsertExtends(q: Queue, rows: map<nat, Job>, tails: seq<Tail>, n: nat, m: nat)
    requires Steady(q, n) && n <= m
    requires forall j :: j in rows ==>
      && n <= j < m && rows[j].status == JobStatus.Queued && rows[j].attempts == 0
      && rows[j].maxAttempts == DEFAULT_MAX_ATTEMPTS && !rows[j].task.ProcessRefund?
    ensures Extends(q, Insert(q, rows, tails), n, m)
  {}

  lemma ExtendsThenEnters(q: Queue, r: Queue, phase: Phase, n: nat, m: nat)
    requires Extends(q, r, n, m) && phase != Started
    ensures Extends(q, Enter(r, phase), n, m)
  {}

  // -------- what is still to be called and POSTed

  ghost predicate Counted(s: State) {
    && (forall p :: p in s.payments ==> p < s.next)
    && (forall e :: e in s.events ==> e < s.next)
  }

  lemma BudgetStays(s: State, t: State)
    requires Counted(s) && s.next <= t.next && t.max == s.max && t.payments == s.payments && t.events == s.events
    ensures Budget(t) == Budget(s)
  {
    SumExtend(CallBudget(s.payments, s.max), s.next, t.next);
    SumExtend(PostBudget(s.events), s.next, t.next);
  }

  /** A processor call uses up at least one of the payment's calls. */
  lemma CallUsesBudget(p: Payment, outcome: Outcome, max: nat, metadata: Option<string>, now: real)
    requires !Payments.Terminal(p.status)
    ensures var p' := Payments.Settled(p, outcome, max, metadata, now);
      !Payments.Terminal(p'.status) ==> p'.retryCount == p.retryCount + 1
  {}

  lemma ConfirmBudget(s: State, t: State, id: nat, p: Payment)
    requires Counted(s) && t.next == s.next && t.max == s.max && t.events == s.events
    requires id in s.payments && t.payments == s.payments[id := p]
    requires !Payments.Terminal(s.payments[id].status) && s.payments[id].retryCount < s.max
    requires !Payments.Terminal(p.status) ==> p.retryCount == s.payments[id].retryCount + 1
    ensures Budget(t) <= Budget(s) - 1
  {
    SumShifts(CallBudget(s.payments, s.max), CallBudget(t.payments, s.max), s.next, s.next, 0, id, -1);
  }

  lemma PostUsesBudget(s: State, t: State, id: nat, e: Event)
    requires Counted(s) && s.next <= t.next && t.max == s.max && t.payments == s.payments
    requires id in s.events && t.events == s.events[id := e]
    requires Webhooks.Open(s.events[id]) && s.events[id].attempts < MAX_DELIVERIES
    requires Webhooks.Open(e) ==> e.attempts == s.events[id].attempts + 1
    ensures Budget(t) <= Budget(s) - 1
  {
    SumExtend(CallBudget(s.payments, s.max), s.next, t.next);
    SumShifts(PostBudget(s.events), PostBudget(t.events), s.next, t.next, 0, id, -1);
  }

  lemma NewEventsBudget(s: State, t: State, n: nat)
    requires Counted(s) && t.next == s.next + 2 * n && t.max == s.max && t.payments == s.payments
    requires forall e :: e in s.events ==> e in t.events && t.events[e] == s.events[e]
    requires forall e :: e in t.events && e !in s.events ==> s.next <= e && t.events[e].attempts == 0
    ensures Budget(t) <= Budget(s) + 10 * n
  {
    SumExtend(CallBudget(s.payments, s.max), s.next, t.next);
    SumGrows(PostBudget(s.events), PostBudget(t.events), s.next, t.next, 5);
  }

  // -------- the handlers, one by one

  /** The parts of the invariant that the measure rests on. */
  ghost predicate Metered(s: State) {
    Steady(s.q, s.next) && Counted(s) && (OnRefund(s.q) ==> Credit(s.q.worker) == 0)
  }

  lemma MeteredState(s: State)
    requires Inv(s)
    ensures Metered(s)
  {
    assert Counted(s) by { hide Rows, QueueInv, LinkOk, BackoffOk; }
    assert OnRefund(s.q) ==> Credit(s.q.worker) == 0 by { hide Rows, IdsOk, QueueInv, LinkOk; }
    hide Rows, QueueInv, LinkOk, BackoffOk;
    SteadyState(s);
  }

  lemma LeaveSpends(s: State, phase: Phase)
    requires Metered(s) && (phase == Returned || phase.Raised?)
    ensures Spends(s, Enters(s, phase), 0, 0, 0)
  {
    hide Working, Refunding, Budget, Steady, Counted;
    EnterExtends(s.q, phase, s.next);
    ExtendsSpends(s, Enters(s, phase));
    BudgetStays(s, Enters(s, phase));
  }

  /** A processor call is paid for by the call budget, with enough left for a retry job. */
  lemma CallSpends(s: State, id: nat, outcome: Outcome, source: Caller, phase: Phase)
    requires Metered(s) && phase != Started && !OnRefund(s.q)
    requires id in s.payments && !Payments.Terminal(s.payments[id].status) && s.payments[id].retryCount < s.max
    ensures Spends(s, Enters(Confirm(s, id, None, outcome, source), phase), 0, -1, 3)
  {
    hide Working, Refunding, Budget, Steady, Counted, Settled;
    var t := Enters(Confirm(s, id, None, outcome, source), phase);
    EnterExtends(s.q, phase, s.next);
    ExtendsSpends(s, t);
    CallUsesBudget(s.payments[id], outcome, s.max, None, s.clock);
    ConfirmBudget(s, t, id, Settled(s.payments[id], outcome, s.max, None, s.clock));
  }

  /** A row replaced by one that has no more calls left than it had. */
  lemma LateBudget(s: State, t: State, id: nat, p: Payment)
    requires Counted(s) && t.next == s.next && t.max == s.max && t.events == s.events
    requires id in s.payments && t.payments == s.payments[id := p]
    requires Payments.Terminal(p.status) || p.retryCount >= s.max
    requires !Payments.Terminal(s.payments[id].status) && s.payments[id].retryCount >= s.max
    ensures Budget(t) <= Budget(s)
  {
    SumMonotone(CallBudget(t.payments, s.max), CallBudget(s.payments, s.max), s.next);
  }

  /** A call beyond the ceiling, after its commit was missed, is the job's own business: no retry follows it. */
  lemma LateCallSpends(s: State, id: nat, outcome: Outcome, source: Caller, phase: Phase)
    requires Metered(s) && (phase == Returned || phase.Raised?)
    requires id in s.payments && !Payments.Terminal(s.payments[id].status) && s.payments[id].retryCount >= s.max
    ensures Spends(s, Enters(Confirm(s, id, None, outcome, source), phase), 0, 0, 0)
  {
    hide Working, Refunding, Budget, Steady, Counted, Settled;
    var t := Enters(Confirm(s, id, None, outcome, source), phase);
    EnterExtends(s.q, phase, s.next);
    ExtendsSpends(s, t);
    CallUsesBudget(s.payments[id], outcome, s.max, None, s.clock);
    LateBudget(s, t, id, Settled(s.payments[id], outcome, s.max, None, s.clock));
  }

  lemma ConfirmAffords(s: State, id: nat, outcome: Outcome, fault: Fault, missing: Phase)
    requires Metered(s) && !OnRefund(s.q) && (missing == Returned || missing.Raised?) && s.q.worker.Busy?
    ensures var phase := ConfirmPhase(ConfirmResultOf(s, id, outcome), fault, missing);
      Affords(s, Enters(Confirm(s, id, None, outcome, Worker(s.q.worker.job)), phase))
  {
    hide Metered, Spends, Enters, Settled;
    var phase := ConfirmPhase(ConfirmResultOf(s, id, outcome), fault, missing);
    if id !in s.payments || Payments.Terminal(s.payments[id].status) {
      LeaveSpends(s, phase);
    } else if s.payments[id].retryCount < s.max {
      CallSpends(s, id, outcome, Worker(s.q.worker.job), phase);
    } else {
      LateCallSpends(s, id, outcome, Worker(s.q.worker.job), phase);
    }
  }

  lemma MaxIsPositive(s: State)
    requires Inv(s)
    ensures s.max >= 1
  {}

  lemma PaymentAffords(s: State, draw: real, fault: Fault)
    requires Inv(s)
    ensures Affords(s, PaymentStep(s, draw, fault))
  {
    hide Rows, Flow, Metered, Spends, Enters, Confirm, ConfirmPhase, ConfirmResultOf, MarkPhase, MarkExhausted;
    MeteredState(s);
    match Current(s)
    case Some(ProcessPayment(id)) =>
      if fault == FaultBefore { LeaveSpends(s, Raised(Aborted)); }
      else { ConfirmAffords(s, id, Attempt(draw, fault), fault, Returned); }
    case Some(RetryPayment(id)) =>
      if fault == FaultBefore { LeaveSpends(s, Raised(Aborted)); }
      else if id in s.payments && s.payments[id].retryCount >= s.max { MarkSpends(s, id, fault); }
      else { ConfirmAffords(s, id, Attempt(draw, fault), fault, Raised(RowMissing)); }
    case _ => IdleSpends(s, s);
  }

  /** Making up for a missed commit costs nothing. */
  lemma MarkSpends(s: State, id: nat, fault: Fault)
    requires Metered(s) && id in s.payments && s.payments[id].retryCount >= s.max
    ensures Spends(s, Enters(MarkExhausted(s, id), MarkPhase(s, id, fault)), 0, 0, 0)
  {
    hide Working, Refunding, Budget, Steady, Counted, Exhausted;
    var phase := MarkPhase(s, id, fault);
    if Payments.Terminal(s.payments[id].status) {
      LeaveSpends(s, phase);
    } else {
      var t := Enters(MarkExhausted(s, id), phase);
      EnterExtends(s.q, phase, s.next);
      ExtendsSpends(s, t);
      ExhaustedIsTerminal(s, id);
      LateBudget(s, t, id, Exhausted(s.payments[id], s.clock));
    }
  }

  /** Scheduling a retry spends the credit that the soft failure left. */
  lemma ScheduleSpends(s: State, id: nat, count: nat, jitter: real)
    requires Metered(s) && s.q.worker.Busy? && s.q.worker.phase.Soft? && !OnRefund(s.q)
    ensures Spends(s, ScheduleRetry(s, id, count, jitter), 0, 0, 0)
  {
    hide Working, Refunding, Budget, Steady, Counted, NextRetryAt, Insert;
    var rows := map[s.next := NewJob(RetryPayment(id), NextRetryAt(s.clock, count, jitter))];
    var tails := [Tail(s.next, Some(NextRetryAt(s.clock, count, jitter)))];
    InsertExtends(s.q, rows, tails, s.next, s.next + 1);
    ExtendsThenEnters(s.q, Insert(s.q, rows, tails), Returned, s.next, s.next + 1);
    ExtendsSpends(s, ScheduleRetry(s, id, count, jitter));
    BudgetStays(s, ScheduleRetry(s, id, count, jitter));
  }

  lemma SoftAffords(s: State, jitter: real, fault: Fault)
    requires Inv(s)
    ensures Affords(s, SoftStep(s, jitter, fault))
  {
    hide Rows, Flow, Metered, Spends, Enters, ScheduleRetry, MarkExhausted, MarkPhase;
    MeteredState(s);
    match SoftTask(s)
    case Some((ProcessPayment(id), n)) =>
      if fault != NoFault { LeaveSpends(s, Raised(Aborted)); } else { ScheduleSpends(s, id, n, jitter); }
    case Some((RetryPayment(id), n)) =>
      if fault != NoFault { LeaveSpends(s, Raised(Aborted)); }
      else if n >= s.max { SoftCeiling(s, id, n); MarkSpends(s, id, fault); }
      else { ScheduleSpends(s, id, n, jitter); }
    case _ => IdleSpends(s, s);
  }

  /** A fan-out is paid for by the refund handler's run. */
  lemma FanoutSpends(s: State, t: State, n: nat, k: nat, phase: Phase)
    requires Metered(s) && OnRefund(s.q) && s.q.worker.phase == Started && (phase == Returned || phase.Raised?)
    requires k <= n && t.next == s.next + 2 * n
    requires t.q == Enter(Insert(s.q, FanoutRows(s.next, n, k, s.clock), FanoutTails(s.next, n, k, s.clock)), phase)
    ensures Refunding(t) <= Refunding(s) - 1 && Working(t) <= Working(s) + 6 * n
  {
    hide Working, Refunding, Counted, FanoutRows, FanoutTails, Insert, Steady;
    var rows, tails := FanoutRows(s.next, n, k, s.clock), FanoutTails(s.next, n, k, s.clock);
    FanoutShape(s.next, n, k, s.clock);
    InsertExtends(s.q, rows, tails, s.next, t.next);
    ExtendsThenEnters(s.q, Insert(s.q, rows, tails), phase, s.next, t.next);
    ExtendsSpends(s, t);
  }

  lemma {:induction false} DistinctFit(ids: seq<nat>, all: set<nat>)
    requires forall i :: 0 <= i < |ids| ==> ids[i] in all
    requires forall i, k :: 0 <= i < k < |ids| ==> ids[i] != ids[k]
    ensures |ids| <= |all|
  {
    if ids != [] {
      var n := |ids| - 1;
      DistinctFit(ids[..n], all - {ids[n]});
    }
  }

  lemma AudienceFits(s: State, customer: string, ids: seq<nat>)
    requires Audience(s, customer, ids)
    ensures |ids| <= |s.endpoints|
  {
    DistinctFit(ids, s.endpoints.Keys);
    assert |s.endpoints.Keys| == |s.endpoints|;
  }

  lemma CutAffords(s: State, n: nat, k: nat)
    requires Metered(s) && OnRefund(s.q) && s.q.worker.phase == Started && k <= n <= |s.endpoints|
    ensures Affords(s, Enters(FanoutJobs(s, n, k), Raised(Aborted)))
  {
    hide Working, Refunding, Budget, Metered, FanoutRows, FanoutTails, Insert, Enter;
    var t := Enters(FanoutJobs(s, n, k), Raised(Aborted));
    FanoutSpends(s, t, n, k, Raised(Aborted));
    assert Counted(s) by { CountedState(s); }
    BudgetStays(s, t);
  }

  lemma CountedState(s: State)
    requires Metered(s)
    ensures Counted(s)
  {}

  lemma CompleteBudget(s: State, id: nat, ids: seq<nat>)
    requires Counted(s) && id in s.refunds
    ensures Budget(Complete(s, id, ids)) <= Budget(s) + 10 * |ids|
  {
    hide Insert, FanoutRows, FanoutTails, CallBudget, PostBudget, Sum, FanoutEvents;
    EventsShape(s.next, id, ids);
    NewEventsBudget(s, Complete(s, id, ids), |ids|);
  }

  lemma CompleteQueue(s: State, id: nat, ids: seq<nat>, phase: Phase)
    requires id in s.refunds
    ensures var t := Enters(Complete(s, id, ids), phase);
      && t.q == Enter(Insert(s.q, FanoutRows(s.next, |ids|, |ids|, s.clock),
          FanoutTails(s.next, |ids|, |ids|, s.clock)), phase)
      && t.next == s.next + 2 * |ids| && t.endpoints == s.endpoints
      && Budget(t) == Budget(Complete(s, id, ids))
  {
    hide Insert, FanoutRows, FanoutTails, FanoutEvents, Enter, CallBudget, PostBudget;
  }

  lemma CompleteAffords(s: State, id: nat, ids: seq<nat>, phase: Phase)
    requires Metered(s) && OnRefund(s.q) && s.q.worker.phase == Started && |ids| <= |s.endpoints|
    requires id in s.refunds && (phase == Returned || phase.Raised?)
    ensures Affords(s, Enters(Complete(s, id, ids), phase))
  {
    hide Working, Refunding, Budget, Metered, FanoutRows, FanoutTails, Insert, Enter, Complete, OnRefund, Enters;
    CompleteQueue(s, id, ids, phase);
    FanoutSpends(s, Enters(Complete(s, id, ids), phase), |ids|, |ids|, phase);
    CountedState(s);
    CompleteBudget(s, id, ids);
  }

  lemma FailSpends(s: State, id: nat, phase: Phase)
    requires Metered(s) && id in s.refunds && (phase == Returned || phase.Raised?)
    ensures Spends(s, Enters(Fail(s, id), phase), 0, 0, 0)
  {
    hide Enter;
    LeaveSpends(s, phase);
  }

  lemma CompleteRunAffords(s: State, id: nat, ids: seq<nat>, cut: Cut)
    requires Metered(s) && OnRefund(s.q) && s.q.worker.phase == Started && id in s.refunds && |ids| <= |s.endpoints|
    ensures Affords(s, CompleteRun(s, id, ids, cut))
  {
    hide Metered, Affords, Enters, Complete, FanoutJobs, OnRefund;
    if !cut.CutDuring? { CompleteAffords(s, id, ids, Leave(cut)); }
    else if cut.enqueued <= |ids| { CutAffords(s, |ids|, cut.enqueued); }
    else { NothingAffords(s); }
  }

  lemma NothingAffords(s: State)
    ensures Affords(s, s)
  {
    IdleSpends(s, s);
  }

  lemma FreeAffords(s: State, t: State)
    requires Spends(s, t, 0, 0, 0)
    ensures Affords(s, t)
  {}

  lemma RefundRunAffords(s: State, id: nat, draw: real, ids: seq<nat>, cut: Cut)
    requires Metered(s) && OnRefund(s.q) && s.q.worker.phase == Started && id in s.refunds
    ensures Affords(s, RefundRun(s, id, draw, ids, cut))
  {
    hide Metered, Affords, Spends, Enters, CompleteRun, OnRefund, Audience, Fail;
    if Refunds.Terminal(s.refunds[id].status) {
      LeaveSpends(s, Leave(cut));
      FreeAffords(s, Enters(s, Leave(cut)));
    } else if !Refunds.Allowed(s.refunds[id].status, RefundStatus.Processing) {
      LeaveSpends(s, Raised(InvalidTransition));
      FreeAffords(s, Enters(s, Raised(InvalidTransition)));
    } else if draw >= 0.95 {
      LeaveSpends(s, Raised(Aborted));
      FailSpends(s, id, Leave(cut));
      FreeAffords(s, FailRun(s, id, cut));
    } else if s.refunds[id].payment !in s.payments {
      CompleteRunAffords(s, id, [], cut);
    } else if Audience(s, s.payments[s.refunds[id].payment].customer, ids) {
      AudienceFits(s, s.payments[s.refunds[id].payment].customer, ids);
      CompleteRunAffords(s, id, ids, cut);
    } else {
      NothingAffords(s);
    }
  }

  lemma RefundAffords(s: State, draw: real, ids: seq<nat>, cut: Cut)
    requires Metered(s)
    ensures Affords(s, RefundStep(s, draw, ids, cut))
  {
    hide Metered, Affords, Spends, Enters, RefundRun;
    NothingAffords(s);
    match Current(s)
    case Some(ProcessRefund(id)) =>
      if id in s.refunds {
        RefundRunAffords(s, id, draw, ids, cut);
      } else {
        LeaveSpends(s, Raised(RowMissing));
        FreeAffords(s, Enters(s, Raised(RowMissing)));
      }
    case _ =>
  }

  // -------- deliveries

  lemma RecordExtends(s: State, id: nat, e: Event)
    requires Steady(s.q, s.next) && id in s.events && s.q.worker.Busy?
    ensures var u := Record(s, id, e);
      && Extends(s.q, u.q, s.next, u.next) && s.next <= u.next <= s.next + 1 && Credit(u.q.worker) == 0
      && u.events == s.events[id := e] && u.payments == s.payments && u.max == s.max && u.endpoints == s.endpoints
  {
    hide Insert, Steady, Extends;
    if e.status == EventStatus.Failed && e.nextRetryAt.Some? {
      var rows := map[s.next := NewJob(DeliverWebhook(id), e.nextRetryAt.value)];
      var tails := [Tail(s.next, e.nextRetryAt)];
      InsertExtends(s.q, rows, tails, s.next, s.next + 1);
      ExtendsThenEnters(s.q, Insert(s.q, rows, tails), Returned, s.next, s.next + 1);
      assert Insert(s.q, rows, tails).worker == s.q.worker by { InsertKeepsWorker(s.q, rows, tails); }
    } else {
      EnterExtends(s.q, Returned, s.next);
    }
  }

  lemma InsertKeepsWorker(q: Queue, rows: map<nat, Job>, tails: seq<Tail>)
    ensures Insert(q, rows, tails).worker == q.worker
  {}

  /** The row of an open event is written: one POST fewer, and perhaps one delivery job more. */
  lemma RecordAffords(s: State, t: State, id: nat, e: Event)
    requires Metered(s) && id in s.events && Webhooks.Open(s.events[id]) && s.events[id].attempts < MAX_DELIVERIES
    requires Webhooks.Open(e) ==> e.attempts == s.events[id].attempts + 1
    requires t == s.(clock := t.clock, posts := t.posts) && s.q.worker.Busy? && s.q.worker.phase == Started
    ensures Affords(s, Record(t, id, e))
  {
    hide Working, Refunding, Budget, Insert, Steady, Counted, Record, Extends;
    var u := Record(t, id, e);
    RecordExtends(t, id, e);
    PostUsesBudget(s, u, id, e);
    ExtendsSpends(s, u);
  }

  lemma LostSpends(s: State, id: nat, ok: bool, elapsed: real)
    requires Metered(s)
    ensures Spends(s, Enters(Sent(s, id, ok, elapsed, false), Raised(Aborted)), 0, 0, 0)
  {
    hide Metered, Working, Refunding, Budget, Enter;
    LeaveSpends(s, Raised(Aborted));
    SameSpends(s, Enters(s, Raised(Aborted)), Enters(Sent(s, id, ok, elapsed, false), Raised(Aborted)));
  }

  lemma SameSpends(s: State, t: State, u: State)
    requires Spends(s, t, 0, 0, 0)
    requires u.q == t.q && u.next == t.next && u.max == t.max && u.payments == t.payments && u.events == t.events
    requires u.endpoints == t.endpoints
    ensures Spends(s, u, 0, 0, 0)
  {}

  /** An open event has POSTs left. */
  lemma PostsLeft(s: State, id: nat)
    requires Inv(s) && Current(s) == Some(DeliverWebhook(id)) && id in s.events
    ensures Webhooks.Open(s.events[id]) && s.events[id].attempts < MAX_DELIVERIES
  {
    DeliveryOpen(s, id);
    hide Flow, PaymentsOk, RecordsOk, RefundsOk;
    assert EventRowOk(s.events[id], s.posts[id], s.refunds, s.endpoints);
  }

  lemma DeliverRunAffords(s: State, id: nat, ok: bool, elapsed: real, jitter: real, cut: DeliveryCut)
    requires Metered(s) && id in s.events && Webhooks.Open(s.events[id]) && s.events[id].attempts < MAX_DELIVERIES
    requires s.q.worker.Busy? && s.q.worker.phase == Started
    ensures Affords(s, DeliverRun(s, id, ok, elapsed, jitter, cut))
  {
    hide Metered, Affords, Spends, Enters, Record, PostsOf;
    if s.events[id].endpoint !in s.endpoints || !s.endpoints[s.events[id].endpoint].active {
      RecordAffords(s, s, id, Undeliverable(s.events[id], s.clock));
    } else if cut == CutAfterPost {
      LostSpends(s, id, ok, elapsed);
      FreeAffords(s, Enters(Sent(s, id, ok, elapsed, false), Raised(Aborted)));
    } else {
      RecordAffords(s, Sent(s, id, ok, elapsed, true), id, AfterPost(s.events[id], ok, jitter, s.clock));
    }
  }

  lemma DeliverAffords(s: State, ok: bool, elapsed: real, jitter: real, cut: DeliveryCut)
    requires Inv(s)
    ensures Affords(s, DeliverStep(s, ok, elapsed, jitter, cut))
  {
    hide Rows, Flow, Metered, Affords, Spends, Enters, DeliverRun;
    MeteredState(s);
    NothingAffords(s);
    match Current(s)
    case Some(DeliverWebhook(id)) =>
      if cut == CutBeforePost {
        LeaveSpends(s, Raised(Aborted));
        FreeAffords(s, Enters(s, Raised(Aborted)));
      } else if id !in s.events {
        LeaveSpends(s, Returned);
        FreeAffords(s, Enters(s, Returned));
      } else {
        PostsLeft(s, id);
        DeliverRunAffords(s, id, ok, elapsed, jitter, cut);
      }
    case _ =>
  }

  // ---------------------------------------------------------------- any background step

  lemma HttpAffords(s: State, id: nat, metadata: Option<string>, outcome: Outcome)
    requires Metered(s)
    ensures Affords(s, Confirm(s, id, metadata, outcome, Http))
  {
    hide Metered, Affords, Settled;
    CountedState(s);
    if id in s.payments && !Payments.Terminal(s.payments[id].status) {
      HttpSpends(s, id, metadata, outcome);
    } else {
      NothingAffords(s);
    }
  }

  lemma HttpSpends(s: State, id: nat, metadata: Option<string>, outcome: Outcome)
    requires Counted(s) && id in s.payments && !Payments.Terminal(s.payments[id].status)
    ensures Affords(s, Confirm(s, id, metadata, outcome, Http))
  {
    hide Budget, Counted, Settled;
    var t, p := Confirm(s, id, metadata, outcome, Http), Settled(s.payments[id], outcome, s.max, metadata, s.clock);
    CallUsesBudget(s.payments[id], outcome, s.max, metadata, s.clock);
    if s.payments[id].retryCount < s.max { ConfirmBudget(s, t, id, p); } else { LateBudget(s, t, id, p); }
  }

  lemma QueueOnlySpends(s: State, q: Queue)
    requires q.jobs == s.q.jobs && q.worker == s.q.worker
    ensures Affords(s, s.(q := q))
  {
    IdleSpends(s, s.(q := q));
  }

  lemma PutAffords(s: State, a: Action)
    requires a.PollJobs? || a.ResumeTail? || a.RestartProcess?
    ensures Affords(s, Next(s, a))
  {
    hide Affords, Selection, Puts;
    NothingAffords(s);
    match a
    case PollJobs(ids) => QueueOnlySpends(s, Poll(s.q, ids));
    case ResumeTail(i) => if i < |s.q.tails| { QueueOnlySpends(s, Resume(s.q, s.clock, i)); }
    case RestartProcess => QueueOnlySpends(s, Restart(s.q));
  }

  lemma FinishAffords(s: State)
    requires QueueInv(s.q, s.clock)
    ensures Affords(s, Next(s, FinishJob))
  {
    hide Affords, Spends, Finish, QueueInv;
    FinishSpends(s);
    FreeAffords(s, s.(q := Finish(s.q, s.clock)));
  }

  lemma QueueActionAffords(s: State, a: Action)
    requires Inv(s) && (a.PollJobs? || a.ResumeTail? || a.RestartProcess? || a.FinishJob?)
    ensures Affords(s, Next(s, a))
  {
    hide Rows, IdsOk, LinkOk, BackoffOk, QueueInv, Affords, Next;
    if a.FinishJob? { FinishAffords(s); } else { PutAffords(s, a); }
  }

  lemma OuterActionAffords(s: State, a: Action)
    requires a.Tick? || a.DeactivateEndpoint?
    ensures Affords(s, Next(s, a))
  {
    hide Affords, Spends;
    NothingAffords(s);
    match a
    case Tick(to) =>
      if to >= s.clock {
        IdleSpends(s, s.(clock := to));
        FreeAffords(s, s.(clock := to));
      }
    case DeactivateEndpoint(e) =>
      if e in s.endpoints {
        var endpoints := s.endpoints[e := s.endpoints[e].(active := false)];
        assert endpoints.Keys == s.endpoints.Keys;
        SameSize(s.endpoints, endpoints);
        IdleSpends(s, s.(endpoints := endpoints));
        FreeAffords(s, s.(endpoints := endpoints));
      }
  }

  lemma SameSize<T, U, V>(m: map<T, U>, n: map<T, V>)
    requires m.Keys == n.Keys
    ensures |m| == |n|
  {
    assert |m| == |m.Keys| && |n| == |n.Keys|;
  }

  lemma HandlerAffords(s: State, a: Action)
    requires Inv(s) && (a.RunPayment? || a.RunSoft? || a.RunRefund? || a.RunDelivery?)
    ensures Affords(s, Next(s, a))
  {
    hide Rows, Flow, Affords, PaymentStep, SoftStep, RefundStep, DeliverStep;
    NothingAffords(s);
    MeteredState(s);
    match a
    case RunPayment(draw, fault) => PaymentAffords(s, draw, fault);
    case RunSoft(jitter, fault) => SoftAffords(s, jitter, fault);
    case RunRefund(draw, ids, cut) => RefundAffords(s, draw, ids, cut);
    case RunDelivery(ok, elapsed, jitter, cut) => DeliverAffords(s, ok, elapsed, jitter, cut);
  }

  lemma BackgroundAffords(s: State, a: Action)
    requires Inv(s) && Background(a) && !a.TakeJob?
    ensures Affords(s, Next(s, a))
  {
    hide Inv, Affords;
    if a.RunPayment? || a.RunSoft? || a.RunRefund? || a.RunDelivery? { hide Next; HandlerAffords(s, a); }
    else if a.Tick? || a.DeactivateEndpoint? { hide Next; OuterActionAffords(s, a); }
    else if a.ConfirmRequest? { ConfirmActionAffords(s, a); }
    else { hide Next; QueueActionAffords(s, a); }
  }

  lemma ConfirmActionAffords(s: State, a: Action)
    requires Inv(s) && a.ConfirmRequest?
    ensures Affords(s, Next(s, a))
  {
    hide Inv, Affords, Confirm;
    MeteredState(s);
    HttpAffords(s, a.payment, a.metadata, Classify(a.draw, a.cutShort));
  }

  // ---------------------------------------------------------------- how often handlers start

  /** The step starts a handler. */
  predicate Starts(s: State, a: Action) {
    a.TakeJob? && s.q.worker == Idle && Take(s.q).worker != Idle
  }

  lemma StepPays(s: State, a: Action)
    requires Inv(s) && Background(a)
    ensures Measure(Next(s, a)) + (if Starts(s, a) then 1 else 0) <= Measure(s)
  {
    hide Rows, LinkOk, BackoffOk, QueueInv, IdsOk, Spends, Take, Measure, Affords;
    var t := s.(q := Take(s.q));
    if a.TakeJob? {
      TakeSpends(s);
      if Starts(s, a) { StartPays(s, t); } else { FreeAffords(s, t); AffordsKeeps(s, t); }
    } else {
      BackgroundAffords(s, a);
      AffordsKeeps(s, Next(s, a));
    }
  }

  lemma LoadsNatural(q: Queue, now: real, n: nat)
    requires QueueInv(q, now)
    ensures Sum(RefundLoad(q), n) >= 0 && Sum(OtherLoad(q), n) >= 0
  {
    hide QueueInv, Sum;
    forall j: nat | j < n ensures RefundLoad(q)(j) >= 0 && OtherLoad(q)(j) >= 0 {
      if j in q.jobs { RunningIsInFlight(q, now, j); }
    }
    SumNonNegative(RefundLoad(q), n);
    SumNonNegative(OtherLoad(q), n);
  }

  /** No part of the measure of a reachable state is negative. */
  lemma PartsAreNatural(s: State)
    requires Inv(s)
    ensures Refunding(s) >= 0 && Working(s) >= 0 && Budget(s) >= 0
  {
    MaxIsPositive(s);
    hide Rows, LinkOk, BackoffOk, QueueInv, IdsOk, Sum, RefundLoad, OtherLoad, CallBudget, PostBudget;
    LoadsNatural(s.q, s.clock, s.next);
    BudgetsNatural(s);
  }

  lemma MeasureIsNatural(s: State)
    requires Inv(s)
    ensures Measure(s) >= 0
  {
    hide Inv, Refunding, Working, Budget;
    PartsAreNatural(s);
    ScaledGrows(FanoutPrice(|s.endpoints|), 0, Refunding(s));
  }

  lemma BudgetsNatural(s: State)
    requires Rows(s) && s.max >= 1
    ensures Budget(s) >= 0
  {
    hide RecordsOk, RefundsOk, Sum;
    forall p: nat | p < s.next ensures CallBudget(s.payments, s.max)(p) >= 0 {
      if p in s.payments { assert Follows(s.payments[p], s.calls[p], s.max); }
    }
    forall e: nat | e < s.next ensures PostBudget(s.events)(e) >= 0 {
      if e in s.events { assert EventRowOk(s.events[e], s.posts[e], s.refunds, s.endpoints); }
    }
    SumNonNegative(CallBudget(s.payments, s.max), s.next);
    SumNonNegative(PostBudget(s.events), s.next);
  }

  ghost function StartsIn(s: State, run: seq<Action>): nat {
    if run == [] then 0
    else StartsIn(s, run[..|run| - 1]) + (if Starts(Exec(s, run[..|run| - 1]), run[|run| - 1]) then 1 else 0)
  }

  lemma {:induction false} StartsArePaid(s: State, run: seq<Action>)
    requires Inv(s) && forall i :: 0 <= i < |run| ==> Background(run[i])
    ensures StartsIn(s, run) + Measure(Exec(s, run)) <= Measure(s)
    decreases |run|
  {
    hide Inv, Measure, Next;
    if run != [] {
      var n := |run| - 1;
      StartsArePaid(s, run[..n]);
      ExecKeeps(s, run[..n]);
      StepPays(Exec(s, run[..n]), run[n]);
    }
  }

  /** Once requests, new endpoints and operator retries stop, at most `Measure` further handlers
      ever start, whatever they return, however often they are aborted, and whoever confirms
      payments over HTTP meanwhile. */
  lemma BoundedWork(max: nat, run: seq<Action>, more: seq<Action>)
    requires max >= 1 && forall i :: 0 <= i < |more| ==> Background(more[i])
    ensures StartsIn(After(max, run), more) <= Measure(After(max, run))
  {
    hide Inv, Measure, Exec;
    var s := After(max, run);
    Reached(max, run);
    StartsArePaid(s, more);
    ExecKeeps(s, more);
    MeasureIsNatural(Exec(s, more));
  }

  // ---------------------------------------------------------------- while endpoints keep registering

  /** Background steps, and new endpoints: nobody asks for a payment, a refund or a retry. */
  predicate Unprompted(a: Action) {
    Background(a) || a.RegisterEndpoint?
  }

  /** What is still to be done apart from refunds. */
  ghost function Chores(s: State): int { 3 * Budget(s) + Working(s) }

  /** The refund jobs weigh less, or no more and neither do the other chores: a fan-out to however
      many endpoints is paid for by the refund job that makes it. */
  ghost predicate Falls(s: State, t: State) {
    Refunding(t) < Refunding(s) || (Refunding(t) <= Refunding(s) && Chores(t) <= Chores(s))
  }

  ghost predicate FallsBelow(s: State, t: State) {
    Refunding(t) < Refunding(s) || (Refunding(t) <= Refunding(s) && Chores(t) < Chores(s))
  }

  lemma NewIdSpends(s: State, t: State)
    requires Steady(s.q, s.next) && t.q == s.q && t.next == s.next + 1
    ensures Refunding(t) <= Refunding(s) && Working(t) <= Working(s)
  {
    SumGrows(RefundLoad(s.q), RefundLoad(t.q), s.next, t.next, 0);
    SumGrows(OtherLoad(s.q), OtherLoad(t.q), s.next, t.next, 0);
  }

  lemma RegisterFalls(s: State, client: string)
    requires Metered(s)
    ensures Falls(s, Next(s, RegisterEndpoint(client)))
  {
    hide Refunding, Working, Budget, Steady, Counted;
    var t := Next(s, RegisterEndpoint(client));
    NewIdSpends(s, t);
    BudgetStays(s, t);
  }

  lemma AffordsFalls(s: State, t: State)
    requires Affords(s, t)
    ensures Falls(s, t)
  {
    hide Refunding, Working, Budget;
  }

  lemma StartFalls(s: State, t: State)
    requires Spends(s, t, -1, 0, 0) || Spends(s, t, 0, 0, -1)
    ensures FallsBelow(s, t) && Falls(s, t)
  {
    hide Refunding, Working, Budget;
  }

  lemma TakeFalls(s: State)
    requires Inv(s)
    ensures var t := Next(s, TakeJob); Falls(s, t) && (Starts(s, TakeJob) ==> FallsBelow(s, t))
  {
    hide Rows, LinkOk, BackoffOk, QueueInv, IdsOk, Take, Spends, Falls, FallsBelow, Affords;
    var t := s.(q := Take(s.q));
    TakeSpends(s);
    if s.q.worker == Idle && t.q.worker != Idle {
      StartFalls(s, t);
    } else {
      FreeAffords(s, t);
      AffordsFalls(s, t);
    }
  }

  lemma StepFalls(s: State, a: Action)
    requires Inv(s) && Unprompted(a)
    ensures Falls(s, Next(s, a)) && (Starts(s, a) ==> FallsBelow(s, Next(s, a)))
  {
    hide Inv, Next, Metered, Affords, Spends, Falls, FallsBelow;
    if a.TakeJob? {
      TakeFalls(s);
    } else if a.RegisterEndpoint? {
      MeteredState(s);
      RegisterFalls(s, a.client);
    } else {
      BackgroundAffords(s, a);
      AffordsFalls(s, Next(s, a));
    }
  }

  lemma {:induction false} RunFalls(s: State, run: seq<Action>)
    requires Inv(s) && forall i :: 0 <= i < |run| ==> Unprompted(run[i])
    ensures Falls(s, Exec(s, run))
    decreases |run|
  {
    hide Inv, Refunding, Chores, Next, Starts, FallsBelow, Unprompted;
    if run != [] {
      var n := |run| - 1;
      RunFalls(s, run[..n]);
      ExecKeeps(s, run[..n]);
      StepFalls(Exec(s, run[..n]), run[n]);
    }
  }

  /** The first `n` steps of an endless run. */
  function Prefix(f: nat -> Action, n: nat): (r: seq<Action>)
    ensures |r| == n && forall i: nat :: i < n ==> r[i] == f(i)
  {
    seq(n, i requires 0 <= i => f(i))
  }

  /** From step `n` on no handler starts. */
  ghost predicate NoneFrom(s: State, f: nat -> Action, n: nat) {
    forall m: nat :: n <= m ==> !Starts(Exec(s, Prefix(f, m)), f(m))
  }

  lemma StartLowers(s: State, f: nat -> Action, n: nat)
    requires Inv(s) && (forall i :: Unprompted(f(i))) && Starts(Exec(s, Prefix(f, n)), f(n))
    ensures var t := Exec(s, Prefix(f, n + 1)); Inv(t) && FallsBelow(s, t)
  {
    hide Inv, Refunding, Chores, Next, Starts, Unprompted;
    var run := Prefix(f, n + 1);
    assert run[..n] == Prefix(f, n);
    RunFalls(s, run[..n]);
    ExecKeeps(s, run[..n]);
    StepFalls(Exec(s, run[..n]), f(n));
    ExecKeeps(s, run);
  }

  lemma PrefixSplits(f: nat -> Action, n: nat, g: nat -> Action, k: nat)
    requires n <= k && forall i: nat :: g(i) == f(n + i)
    ensures Prefix(f, k) == Prefix(f, n) + Prefix(g, k - n)
  {}

  lemma SameLater(s: State, f: nat -> Action, n: nat, g: nat -> Action, k: nat)
    requires n <= k && forall i: nat :: g(i) == f(n + i)
    ensures Exec(s, Prefix(f, k)) == Exec(Exec(s, Prefix(f, n)), Prefix(g, k - n))
  {
    hide Exec, Prefix;
    PrefixSplits(f, n, g, k);
    ExecSplit(s, Prefix(f, n), Prefix(g, k - n));
  }

  lemma LaterNone(s: State, f: nat -> Action, n: nat, g: nat -> Action, m: nat)
    requires (forall i: nat :: g(i) == f(n + i)) && NoneFrom(Exec(s, Prefix(f, n)), g, m)
    ensures NoneFrom(s, f, n + m)
  {
    hide Starts, Exec, Prefix;
    forall k: nat | n + m <= k ensures !Starts(Exec(s, Prefix(f, k)), f(k)) {
      SameLater(s, f, n, g, k);
      assert g(k - n) == f(k);
    }
  }

  /** In an endless run without requests for work and operator retries, however many endpoints
      register, there is a moment after which no handler starts. */
  lemma {:induction false} WorkSettles(s: State, f: nat -> Action)
    requires Inv(s) && forall i :: Unprompted(f(i))
    ensures exists n: nat :: NoneFrom(s, f, n)
    decreases Refunding(s), Chores(s)
  {
    hide Inv, Refunding, Budget, Working, Exec, Starts, Unprompted;
    if n: nat :| Starts(Exec(s, Prefix(f, n)), f(n)) {
      StartLowers(s, f, n);
      var t := Exec(s, Prefix(f, n + 1));
      PartsAreNatural(s);
      PartsAreNatural(t);
      var g: nat -> Action := (m: nat) => f(n + 1 + m);
      WorkSettles(t, g);
      var m: nat :| NoneFrom(t, g, m);
      LaterNone(s, f, n + 1, g, m);
    } else {
      assert NoneFrom(s, f, 0);
    }
  }

  // ---------------------------------------------------------------- rest

  /** No handler runs, no id is waiting in memory, and no poll will ever find a due job again. */
  ghost predicate AtRest(s: State) {
    && s.q.worker == Idle && s.q.dispatch == [] && s.q.tails == []
    && forall to :: to >= s.clock ==> Selection(s.q, to, [])
  }

  /** The one job that carries this piece of work is dead. */
  ghost predicate OnlyDeadWork(q: Queue, t: Target) {
    && (exists j :: Carries(q, j, t))
    && (forall j :: Carries(q, j, t) ==> j in q.jobs && q.jobs[j].status == JobStatus.Dead)
    && (forall j, k :: Carries(q, j, t) && Carries(q, k, t) ==> j == k)
  }

  predicate Over(status: JobStatus) {
    status == JobStatus.Completed || status == JobStatus.Dead
  }

  /** At rest no job is queued or running, and every piece of work that is still open has exactly
      one job, which is dead. */
  lemma AtRestOnlyDeadWork(max: nat, run: seq<Action>)
    requires max >= 1 && AtRest(After(max, run))
    ensures var s := After(max, run);
      && (forall j :: j in s.q.jobs ==> Over(s.q.jobs[j].status))
      && (forall t :: IsOpen(s, t) ==> OnlyDeadWork(s.q, t))
  {
    var s := After(max, run);
    assert LinkOk(s) && QueueInv(s.q, s.clock) by { Reached(max, run); }
    forall j | j in s.q.jobs ensures Over(s.q.jobs[j].status) {
      hide LinkOk;
      RunningIsInFlight(s.q, s.clock, j);
      var to := if s.q.jobs[j].runAt > s.clock then s.q.jobs[j].runAt else s.clock;
      assert Selection(s.q, to, []) && (s.q.jobs[j].status == JobStatus.Queued ==> Due(s.q, to, j));
    }
    forall t | IsOpen(s, t) ensures OnlyDeadWork(s.q, t) {
      hide QueueInv;
      assert Carried(s.q, t);
    }
  }
}
