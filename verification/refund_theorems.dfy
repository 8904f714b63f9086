/** What clients may rely on about refunds and their notifications, in every run. */
module RefundTheorems {
  import opened Common
  import opened Payments
  import opened Jobs
  import opened Refunds
  import opened Webhooks
  import opened System
  import opened Invariants
  import opened Preservation
  import opened HandlerSteps
  import opened Growth
  import opened Runs
  import opened Frames

  // ---------------------------------------------------------------- conservation of money

  /** Refunds only exist for payments that are, and stay, successful; no committed refund is half
      processed; and what may still be refunded is never negative. */
  lemma RefundsAreCovered(max: nat, run: seq<Action>, p: nat)
    requires max >= 1 && p in After(max, run).payments
    ensures Remaining(After(max, run), p) >= 0
    ensures forall r :: r in After(max, run).refunds && After(max, run).refunds[r].payment == p ==>
      After(max, run).payments[p].status == Success && After(max, run).refunds[r].status != RefundStatus.Processing
  {
    Reached(max, run);
  }

  /** The sum of completed refunds is part of what is held back, which is part of the amount. */
  lemma PaidIsHeld(max: nat, run: seq<Action>, p: nat)
    requires max >= 1 && p in After(max, run).payments
    ensures var s := After(max, run);
      0 <= Paid(s.refunds, p, s.next) <= Held(s.refunds, p, s.next) <= s.payments[p].amount
  {
    hide PaymentsOk, RecordsOk, EventsOk, Flow;
    var s := After(max, run);
    assert RefundsOk(s.payments, s.refunds, s.next) by { Reached(max, run); }
    SumMonotone(PaidPart(s.refunds, p), HeldPart(s.refunds, p), s.next);
    SumNonNegative(PaidPart(s.refunds, p), s.next);
  }

  /** Two moments of one run, as far as refunds are concerned. */
  ghost predicate Later(m: map<nat, Refund>, n: nat, m': map<nat, Refund>, n': nat) {
    && RefundsGrow(m, m') && n <= n'
    && (forall r :: r in m ==> r < n)
    && (forall r :: r in m' ==> m'[r].amount >= 0)
  }

  lemma RunIsLater(max: nat, run: seq<Action>, more: seq<Action>)
    requires max >= 1
    ensures var s, t := After(max, run), After(max, run + more);
      Inv(s) && Inv(t) && TablesGrow(s, t) && Later(s.refunds, s.next, t.refunds, t.next)
  {
    hide PaymentsOk, RecordsOk, EventsOk, QueueInv, LinkOk, BackoffOk;
    Reached(max, run);
    Reached(max, run + more);
    ExecSplit(Init(max), run, more);
    ExecGrows(After(max, run), more);
  }

  lemma PaidGrows(m: map<nat, Refund>, n: nat, m': map<nat, Refund>, n': nat, p: nat)
    requires Later(m, n, m', n')
    ensures Paid(m, p, n) <= Paid(m', p, n')
  {
    TotalsExtend(m, p, n, n');
    forall i: nat | i < n' ensures PaidPart(m, p)(i) <= PaidPart(m', p)(i) {
      if i in m { assert RefundGrows(m[i], m'[i]); }
    }
    SumMonotone(PaidPart(m, p), PaidPart(m', p), n');
  }

  ghost predicate NoneFails(m: map<nat, Refund>, m': map<nat, Refund>, p: nat) {
    forall r :: r in m && r in m' && m[r].payment == p && m[r].status != RefundStatus.Failed ==>
        m'[r].status != RefundStatus.Failed
  }

  lemma HeldGrows(m: map<nat, Refund>, n: nat, m': map<nat, Refund>, n': nat, p: nat)
    requires Later(m, n, m', n') && NoneFails(m, m', p)
    ensures Held(m, p, n) <= Held(m', p, n')
  {
    TotalsExtend(m, p, n, n');
    forall i: nat | i < n' ensures HeldPart(m, p)(i) <= HeldPart(m', p)(i) {
      if i in m { assert RefundGrows(m[i], m'[i]); }
    }
    SumMonotone(HeldPart(m, p), HeldPart(m', p), n');
  }

  /** The completed total never goes down. */
  lemma PaidOnlyGrows(max: nat, run: seq<Action>, more: seq<Action>, p: nat)
    requires max >= 1
    ensures var s, t := After(max, run), After(max, run + more);
      Paid(s.refunds, p, s.next) <= Paid(t.refunds, p, t.next)
  {
    var s, t := After(max, run), After(max, run + more);
    RunIsLater(max, run, more);
    PaidGrows(s.refunds, s.next, t.refunds, t.next, p);
  }

  /** What the request asks for is left of the payment. */
  ghost predicate Affordable(s: State, payment: nat, cents: Option<real>)
    requires payment in s.payments
  {
    Remaining(s, payment) > 0 && (cents.Some? ==> cents.value <= Remaining(s, payment) as real)
  }

  /** What the request asks for needs at most ten digits before the point once it is stored. */
  ghost predicate Storable(s: State, payment: nat, cents: Option<real>)
    requires payment in s.payments
  {
    Refunds.Stored(if cents.None? then Remaining(s, payment) as real else cents.value) < 1_000_000_000_000
  }

  lemma FreshKeyResult(s: State, payment: nat, cents: Option<real>, key: string)
    requires (cents.Some? ==> cents.value > 0.0) && forall r :: r in s.refunds ==> s.refunds[r].key != key
    ensures var r := InitiateResultOf(s, payment, cents, key);
      && (r == UnknownPayment <==> payment !in s.payments)
      && (r == NotRefundable <==> payment in s.payments && s.payments[payment].status != Success)
      && (r == Insufficient <==>
            payment in s.payments && s.payments[payment].status == Success && !Affordable(s, payment, cents))
      && (r == Overflow <==>
            payment in s.payments && s.payments[payment].status == Success && Affordable(s, payment, cents)
            && !Storable(s, payment, cents))
      && (r == Initiated(s.next) <==>
            payment in s.payments && s.payments[payment].status == Success && Affordable(s, payment, cents)
            && Storable(s, payment, cents))
  {
    assert forall id :: !RefundKey(s, key, id);
    hide Held;
    if payment in s.payments && Requested(s, payment, cents) >= 0.0 { StoredNonNegative(Requested(s, payment, cents)); }
    hide Stored;
  }

  /** A request with a fresh key creates a refund if and only if the payment exists and succeeded,
      something is left of it, no more than that is asked for, and the amount fits its column; the
      first of these that fails decides the refusal. */
  lemma InitiatesIff(max: nat, run: seq<Action>, payment: nat, cents: Option<real>, key: string)
    requires max >= 1 && (cents.Some? ==> cents.value > 0.0)
    requires forall r :: r in After(max, run).refunds ==> After(max, run).refunds[r].key != key
    ensures var s := After(max, run);
      var t, r := Next(s, RefundRequest(payment, cents, key)), InitiateResultOf(s, payment, cents, key);
      && (s.next in t.refunds <==>
            payment in s.payments && s.payments[payment].status == Success && Affordable(s, payment, cents)
            && Storable(s, payment, cents))
      && (s.next !in t.refunds ==> t == s)
      && (payment !in s.payments ==> r == UnknownPayment)
      && (payment in s.payments ==>
            && (s.payments[payment].status != Success ==> r == NotRefundable)
            && (s.payments[payment].status == Success && !Affordable(s, payment, cents) ==> r == Insufficient)
            && (s.payments[payment].status == Success && Affordable(s, payment, cents) && !Storable(s, payment, cents)
                ==> r == Overflow))
  {
    var s := After(max, run);
    assert s.next !in s.refunds by { hide QueueInv, LinkOk, BackoffOk; Reached(max, run); }
    hide Affordable, Storable, Enqueue, Stored, InitiateResultOf;
    FreshKeyResult(s, payment, cents, key);
  }

  lemma InitiateQueues(s: State, payment: nat, cents: Option<real>, key: string)
    requires InitiateResultOf(s, payment, cents, key).Initiated?
    ensures var q := Initiate(s, payment, cents, key).q;
      && q.jobs == s.q.jobs[s.next + 1 := Job(ProcessRefund(s.next), JobStatus.Queued, 0, 3, s.clock, None)]
      && q.tails == s.q.tails + [Tail(s.next + 1, Some(s.clock))] && q.worker == s.q.worker
  {
    hide InitiateResultOf, Requested, Stored;
  }

  /** A request that is accepted takes exactly the stored amount out of the remainder, which is
      never more than the remainder even if the request names fractions of a cent; one that names
      no amount takes all of it. */
  lemma InitiateTakes(s: State, payment: nat, cents: Option<real>, key: string)
    requires Inv(s) && payment in s.payments && InitiateResultOf(s, payment, cents, key).Initiated?
    requires cents.Some? ==> cents.value > 0.0
    ensures var t := Initiate(s, payment, cents, key);
      && s.next in t.refunds && t.refunds[s.next].status == RefundStatus.Pending
      && t.refunds[s.next].payment == payment && t.refunds[s.next].key == key
      && 0 <= t.refunds[s.next].amount <= Remaining(s, payment)
      && payment in t.payments && Remaining(t, payment) == Remaining(s, payment) - t.refunds[s.next].amount
      && (cents.None? ==> Remaining(t, payment) == 0)
      && (cents.Some? ==> t.refunds[s.next].amount == Refunds.Stored(cents.value))
      && t.q.jobs == s.q.jobs[s.next + 1 := Job(ProcessRefund(s.next), JobStatus.Queued, 0, 3, s.clock, None)]
      && t.q.tails == s.q.tails + [Tail(s.next + 1, Some(s.clock))] && t.q.worker == s.q.worker
  {
    InitiateQueues(s, payment, cents, key);
    hide PaymentsOk, RecordsOk, EventsOk, QueueInv, LinkOk, BackoffOk, Stored, Enqueue, Held;
    var t := Initiate(s, payment, cents, key);
    RequestedFits(s, payment, cents, key);
    HeldInsert(s.refunds, s.next, t.refunds[s.next], payment, s.next, t.next);
    if cents.None? { StoredWhole(Remaining(s, payment)); }
  }

  /** What refund `i` gave back between two moments by failing, and what it took by being requested. */
  function GivenBack(m: map<nat, Refund>, m': map<nat, Refund>, p: nat): nat -> int {
    (i: nat) =>
      if i in m && i in m' && m[i].payment == p
         && m[i].status != RefundStatus.Failed && m'[i].status == RefundStatus.Failed
      then m[i].amount else 0
  }

  function TakenUp(m: map<nat, Refund>, m': map<nat, Refund>, p: nat): nat -> int {
    (i: nat) =>
      if i !in m && i in m' && m'[i].payment == p && m'[i].status != RefundStatus.Failed then m'[i].amount else 0
  }

  lemma HeldMoves(m: map<nat, Refund>, n: nat, m': map<nat, Refund>, n': nat, p: nat)
    requires Later(m, n, m', n')
    ensures Held(m', p, n') + Sum(GivenBack(m, m', p), n') == Held(m, p, n) + Sum(TakenUp(m, m', p), n')
  {
    TotalsExtend(m, p, n, n');
    var both: nat -> int := (i: nat) => HeldPart(m', p)(i) + GivenBack(m, m', p)(i);
    SumAdd(HeldPart(m', p), GivenBack(m, m', p), both, n');
    forall i: nat | i < n' ensures both(i) == HeldPart(m, p)(i) + TakenUp(m, m', p)(i) {
      if i in m { assert RefundGrows(m[i], m'[i]); }
    }
    SumAdd(HeldPart(m, p), TakenUp(m, m', p), both, n');
  }

  /** Over any stretch of a run the refundable remainder changes by exactly what new refunds took
      and what failed ones gave back. */
  lemma MoneyIsConserved(max: nat, run: seq<Action>, more: seq<Action>, p: nat)
    requires max >= 1 && p in After(max, run).payments
    ensures var s, t := After(max, run), After(max, run + more);
      && p in t.payments
      && Remaining(t, p) ==
           Remaining(s, p) + Sum(GivenBack(s.refunds, t.refunds, p), t.next)
           - Sum(TakenUp(s.refunds, t.refunds, p), t.next)
  {
    hide Rows, Flow, RecordsGrow, RefundsGrow, EventsGrow, LogsGrow, Held;
    var s, t := After(max, run), After(max, run + more);
    RunIsLater(max, run, more);
    assert PaymentGrows(s.payments[p], t.payments[p]);
    HeldMoves(s.refunds, s.next, t.refunds, t.next, p);
  }

  // ---------------------------------------------------------------- idempotent requests

  /** A known key finds its refund and nothing else happens. */
  lemma KnownKeyFinds(s: State, id: nat, key: string, payment: nat, cents: Option<real>)
    requires RefundsOk(s.payments, s.refunds, s.next) && RefundKey(s, key, id)
    ensures InitiateResultOf(s, payment, cents, key) == Existing(id)
    ensures Next(s, RefundRequest(payment, cents, key)) == s
  {
    hide Held, Stored, Enqueue;
  }

  lemma KeyStays(max: nat, run: seq<Action>, a: Action, more: seq<Action>, key: string, id: nat)
    requires max >= 1 && RefundKey(Next(After(max, run), a), key, id)
    ensures var t := Exec(Next(After(max, run), a), more);
      RefundKey(t, key, id) && RefundsOk(t.payments, t.refunds, t.next)
  {
    hide Next, RefundsOk, Flow, PaymentsOk, RecordsOk, EventsOk, PaymentsGrow, RecordsGrow, EventsGrow, LogsGrow;
    var s1 := Next(After(max, run), a);
    Reached(max, run);
    NextKeeps(After(max, run), a);
    ExecGrows(s1, more);
    ExecKeeps(s1, more);
    assert RefundGrows(s1.refunds[id], Exec(s1, more).refunds[id]);
  }

  /** Once a key has initiated a refund, every later request with it, for any payment and any
      amount, is a pure read that finds that refund. */
  lemma RepeatedRefund(max: nat, run: seq<Action>, payment: nat, cents: Option<real>, key: string,
                       more: seq<Action>, payment': nat, cents': Option<real>)
    requires max >= 1 && (cents.Some? ==> cents.value > 0.0)
    requires InitiateResultOf(After(max, run), payment, cents, key).Initiated?
    ensures var s := After(max, run);
      var t := Exec(Next(s, RefundRequest(payment, cents, key)), more);
      && InitiateResultOf(t, payment', cents', key) == Existing(s.next)
      && Next(t, RefundRequest(payment', cents', key)) == t
  {
    hide RefundsOk, InitiateResultOf, Exec, Enqueue, Stored;
    var s := After(max, run);
    assert RefundKey(Next(s, RefundRequest(payment, cents, key)), key, s.next);
    KeyStays(max, run, RefundRequest(payment, cents, key), more, key, s.next);
    KnownKeyFinds(Exec(Next(s, RefundRequest(payment, cents, key)), more), s.next, key, payment', cents');
  }

  lemma NothingLeft(s: State, p: nat, cents: Option<real>, key: string)
    requires p in s.payments && s.payments[p].status == Success && Remaining(s, p) <= 0
    requires forall r :: r in s.refunds ==> s.refunds[r].key != key
    ensures InitiateResultOf(s, p, cents, key) == Insufficient
  {
    assert forall id :: !RefundKey(s, key, id);
  }

  /** After a full refund, requests with fresh keys are turned away for as long as no refund of
      the payment that was open or completed then has failed. */
  lemma FullyRefundedRefuses(max: nat, run: seq<Action>, more: seq<Action>, p: nat, cents: Option<real>, key: string)
    requires max >= 1 && p in After(max, run).payments && After(max, run).payments[p].status == Success
    requires Remaining(After(max, run), p) == 0
    requires NoneFails(After(max, run).refunds, After(max, run + more).refunds, p)
    requires forall r :: r in After(max, run + more).refunds ==> After(max, run + more).refunds[r].key != key
    ensures var t := After(max, run + more);
      p in t.payments && Remaining(t, p) == 0 && InitiateResultOf(t, p, cents, key) == Insufficient
  {
    hide Rows, Flow, RecordsGrow, RefundsGrow, EventsGrow, LogsGrow, Held;
    var s, t := After(max, run), After(max, run + more);
    RunIsLater(max, run, more);
    assert PaymentGrows(s.payments[p], t.payments[p]);
    HeldGrows(s.refunds, s.next, t.refunds, t.next, p);
    RefundsAreCovered(max, run + more, p);
    NothingLeft(t, p, cents, key);
  }

  // ---------------------------------------------------------------- exactly-once completion

  /** The event reports the refund to the endpoint. */
  predicate Reports(s: State, e: nat, refund: nat, endpoint: nat) {
    e in s.events && s.events[e].refund == refund && s.events[e].endpoint == endpoint
  }

  predicate IsCompleted(s: State, r: nat) {
    r in s.refunds && s.refunds[r].status == RefundStatus.Completed
  }

  /** Exactly the endpoints that were listening just before are told, each by exactly one event. */
  ghost predicate AnnouncedBy(s: State, t: State, r: nat) {
    && r in s.refunds && s.refunds[r].payment in s.payments
    && (forall e :: e in s.events ==> s.events[e].refund != r)
    && (forall p :: (exists e :: Reports(t, e, r, p)) <==>
          && p in s.endpoints && s.endpoints[p].active
          && s.endpoints[p].client == s.payments[s.refunds[r].payment].customer)
    && (forall e, f, p :: Reports(t, e, r, p) && Reports(t, f, r, p) ==> e == f)
  }

  /** Nothing has been reported about a refund that is not completed. */
  lemma NothingReported(s: State, r: nat)
    requires EventsOk(s.events, s.posts, s.refunds, s.endpoints) && !IsCompleted(s, r)
    ensures forall e :: e in s.events ==> s.events[e].refund != r
  {
    forall e | e in s.events ensures s.events[e].refund != r {
      assert EventRowOk(s.events[e], s.posts[e], s.refunds, s.endpoints);
    }
  }

  /** Event `base + i` tells endpoint `ids[i]`, and nothing else is told. */
  lemma CompleteReports(s: State, id: nat, ids: seq<nat>, e: nat, p: nat)
    requires id in s.refunds && (forall f :: f in s.events ==> s.events[f].refund != id)
    ensures Reports(Complete(s, id, ids), e, id, p) <==> s.next <= e < s.next + |ids| && ids[e - s.next] == p
  {
    hide Insert, FanoutRows, FanoutTails;
    EventsShape(s.next, id, ids);
  }

  /** If event `base + i` tells endpoint `ids[i]`, every listener is told, and nobody else. */
  lemma ReportsAnnounce(s: State, t: State, id: nat, ids: seq<nat>, customer: string)
    requires Audience(s, customer, ids)
    requires forall e: nat, p: nat :: Reports(t, e, id, p) <==> s.next <= e < s.next + |ids| && ids[e - s.next] == p
    ensures forall p :: (exists e :: Reports(t, e, id, p)) <==>
      p in s.endpoints && s.endpoints[p].active && s.endpoints[p].client == customer
    ensures forall e, f, p :: Reports(t, e, id, p) && Reports(t, f, id, p) ==> e == f
  {
    hide Reports;
    forall p | Listening(s, customer, p) ensures exists e :: Reports(t, e, id, p) {
      assert p in s.endpoints by { ListenersExist(s, customer, p); }
      var i :| 0 <= i < |ids| && ids[i] == p;
      assert Reports(t, s.next + i, id, p);
    }
  }

  lemma ListenersExist(s: State, customer: string, p: nat)
    requires Listening(s, customer, p)
    ensures p in s.endpoints
  {}

  lemma CompleteAnnounces(s: State, t: State, id: nat, ids: seq<nat>)
    requires EventsOk(s.events, s.posts, s.refunds, s.endpoints) && id in s.refunds && !IsCompleted(s, id)
    requires s.refunds[id].payment in s.payments && Audience(s, s.payments[s.refunds[id].payment].customer, ids)
    requires t.events == Complete(s, id, ids).events
    ensures AnnouncedBy(s, t, id)
  {
    hide Complete, EventsOk, Audience, Listening;
    NothingReported(s, id);
    forall e: nat, p: nat ensures Reports(t, e, id, p) <==> s.next <= e < s.next + |ids| && ids[e - s.next] == p {
      CompleteReports(s, id, ids, e, p);
    }
    hide Reports;
    ReportsAnnounce(s, t, id, ids, s.payments[s.refunds[id].payment].customer);
  }

  lemma CompletionOfRun(s: State, id: nat, draw: real, ids: seq<nat>, cut: Cut, r: nat)
    requires EventsOk(s.events, s.posts, s.refunds, s.endpoints)
    requires id in s.refunds && s.refunds[id].payment in s.payments && s.refunds[id].status != RefundStatus.Processing
    requires !IsCompleted(s, r) && IsCompleted(RefundRun(s, id, draw, ids, cut), r)
    ensures r == id && s.refunds[r].status == RefundStatus.Pending
    ensures AnnouncedBy(s, RefundRun(s, id, draw, ids, cut), r)
  {
    hide EventsOk, AnnouncedBy, Audience;
    if Refunds.Terminal(s.refunds[id].status) {}
    else if draw >= 0.95 {}
    else if Audience(s, s.payments[s.refunds[id].payment].customer, ids) {
      if !cut.CutDuring? { CompleteAnnounces(s, RefundRun(s, id, draw, ids, cut), id, ids); }
    }
  }

  lemma CompletionOfStep(s: State, draw: real, ids: seq<nat>, cut: Cut, r: nat)
    requires Inv(s) && !IsCompleted(s, r) && IsCompleted(RefundStep(s, draw, ids, cut), r)
    ensures AnnouncedBy(s, RefundStep(s, draw, ids, cut), r)
    ensures Current(s) == Some(ProcessRefund(r)) && s.refunds[r].status == RefundStatus.Pending
  {
    hide PaymentsOk, RecordsOk, RefundsOk, Flow, AnnouncedBy, RefundRun, EventRowOk;
    match Current(s)
    case Some(ProcessRefund(id)) =>
      RefundKnown(s, id);
      CompletionOfRun(s, id, draw, ids, cut, r);
    case _ =>
  }

  /** The refunds and the reports that exist about them are the same. */
  ghost predicate SameReports(s: State, t: State) {
    && t.refunds == s.refunds && t.events.Keys == s.events.Keys
    && forall e :: e in s.events ==>
        t.events[e].refund == s.events[e].refund && t.events[e].endpoint == s.events[e].endpoint
  }

  lemma UntouchedReports(s: State, t: State)
    requires t.refunds == s.refunds && t.events == s.events
    ensures SameReports(s, t)
  {}

  lemma EntersLeavesReports(s: State, t: State, phase: Phase)
    requires SameReports(s, t)
    ensures SameReports(s, Enters(t, phase))
  {
    hide Enter;
  }

  lemma EventLeavesReports(s: State, id: nat, e: Event)
    requires id in s.events && e.refund == s.events[id].refund && e.endpoint == s.events[id].endpoint
    ensures SameReports(s, s.(events := s.events[id := e]))
  {}

  lemma SameAgain(s: State, t: State, u: State)
    requires SameReports(s, t) && SameReports(t, u)
    ensures SameReports(s, u)
  {}

  lemma RecordLeavesReports(s: State, id: nat, e: Event)
    requires id in s.events && e.refund == s.events[id].refund && e.endpoint == s.events[id].endpoint
    ensures SameReports(s, Record(s, id, e))
  {
    hide Enter, Enqueue, SameReports;
    var s1 := s.(events := s.events[id := e]);
    EventLeavesReports(s, id, e);
    UntouchedReports(s1, Record(s, id, e));
    SameAgain(s, s1, Record(s, id, e));
  }

  lemma SentLeavesReports(s: State, t: State, id: nat, e: Event)
    requires SameReports(s, t) && id in s.events && t.events == s.events && e.refund == s.events[id].refund
    requires e.endpoint == s.events[id].endpoint
    ensures SameReports(s, Record(t, id, e))
  {
    hide Record, SameReports;
    RecordLeavesReports(t, id, e);
    SameAgain(s, t, Record(t, id, e));
  }

  lemma RunLeavesReports(s: State, id: nat, ok: bool, elapsed: real, jitter: real, cut: DeliveryCut)
    requires id in s.events
    ensures SameReports(s, DeliverRun(s, id, ok, elapsed, jitter, cut))
  {
    hide SameReports, Record, Enters, PostsOf;
    if s.events[id].endpoint !in s.endpoints || !s.endpoints[s.events[id].endpoint].active {
      RecordLeavesReports(s, id, Undeliverable(s.events[id], s.clock));
    } else if cut == CutAfterPost {
      UntouchedReports(s, Sent(s, id, ok, elapsed, false));
      EntersLeavesReports(s, Sent(s, id, ok, elapsed, false), Raised(Aborted));
    } else {
      UntouchedReports(s, Sent(s, id, ok, elapsed, true));
      SentLeavesReports(s, Sent(s, id, ok, elapsed, true), id, AfterPost(s.events[id], ok, jitter, s.clock));
    }
  }

  lemma DeliveryLeavesReports(s: State, ok: bool, elapsed: real, jitter: real, cut: DeliveryCut)
    ensures SameReports(s, DeliverStep(s, ok, elapsed, jitter, cut))
  {
    hide SameReports, Enters, DeliverRun;
    UntouchedReports(s, s);
    EntersLeavesReports(s, s, Raised(Aborted));
    EntersLeavesReports(s, s, Returned);
    match Current(s)
    case Some(DeliverWebhook(id)) => if id in s.events { RunLeavesReports(s, id, ok, elapsed, jitter, cut); }
    case _ =>
  }

  lemma HandlersLeaveReports(s: State, a: Action)
    requires a.RunPayment? || a.RunSoft? || a.RunDelivery?
    ensures SameReports(s, Next(s, a))
  {
    hide SameReports, DeliverStep, PaymentStep, SoftStep, Moves;
    UntouchedReports(s, s);
    match a
    case RunPayment(draw, fault) => PaymentFrame(s, draw, fault); UntouchedReports(s, PaymentStep(s, draw, fault));
    case RunSoft(jitter, fault) => SoftFrame(s, jitter, fault); UntouchedReports(s, SoftStep(s, jitter, fault));
    case RunDelivery(ok, elapsed, jitter, cut) => DeliveryLeavesReports(s, ok, elapsed, jitter, cut);
  }

  lemma PlainLeavesReports(s: State, a: Action)
    requires QueueAction(a) || OuterAction(a)
    ensures SameReports(s, Next(s, a))
  {
    hide SameReports, Next;
    if QueueAction(a) { QueueFrame(s, a); } else { OuterFrame(s, a); }
    UntouchedReports(s, Next(s, a));
  }

  lemma PaymentRequestsLeaveReports(s: State, a: Action)
    requires a.CreateRequest? || a.ConfirmRequest?
    ensures SameReports(s, Next(s, a))
  {
    hide SameReports, Create, Confirm;
    match a
    case CreateRequest(customer, cents, metadata, key) =>
      CreateFrame(s, customer, cents, metadata, key);
      UntouchedReports(s, Next(s, a));
    case ConfirmRequest(id, metadata, draw, cut) =>
      ConfirmFrame(s, id, metadata, Classify(draw, cut), Http);
      UntouchedReports(s, Next(s, a));
  }

  /** No step but a refund handler's touches a refund or an event's address, but for requests that add one. */
  lemma OthersLeaveReports(s: State, a: Action)
    requires !a.RunRefund? && !a.RefundRequest?
    ensures SameReports(s, Next(s, a))
  {
    hide Next, SameReports;
    if a.RunPayment? || a.RunSoft? || a.RunDelivery? { HandlersLeaveReports(s, a); }
    else if a.CreateRequest? || a.ConfirmRequest? { PaymentRequestsLeaveReports(s, a); }
    else { PlainLeavesReports(s, a); }
  }

  lemma RequestLeavesReports(s: State, a: Action)
    requires a.RefundRequest?
    ensures var t := Next(s, a); t.events == s.events && forall r :: IsCompleted(t, r) ==> IsCompleted(s, r)
  {}

  /** The only step that completes a refund is a commit of its own handler, and it announces it. */
  lemma CompletionAnnounces(s: State, a: Action, r: nat)
    requires Inv(s) && !IsCompleted(s, r) && IsCompleted(Next(s, a), r)
    ensures AnnouncedBy(s, Next(s, a), r)
    ensures Current(s) == Some(ProcessRefund(r)) && s.refunds[r].status == RefundStatus.Pending
  {
    hide Rows, Flow, AnnouncedBy, RefundStep;
    if a.RunRefund? { CompletionOfStep(s, a.draw, a.ids, a.cut, r); }
    else if a.RefundRequest? { RequestLeavesReports(s, a); }
    else { OthersLeaveReports(s, a); }
  }

  // -------- ... and nothing is announced again

  ghost predicate ReportsStand(s: State, t: State, r: nat) {
    IsCompleted(t, r) && forall e, p :: Reports(t, e, r, p) <==> Reports(s, e, r, p)
  }

  lemma OtherCompletion(s: State, t: State, id: nat, ids: seq<nat>, r: nat)
    requires IdsOk(s) && id in s.refunds && r != id && IsCompleted(s, r)
    requires t.events == Complete(s, id, ids).events && t.refunds == Complete(s, id, ids).refunds
    ensures ReportsStand(s, t, r)
  {
    EventsShape(s.next, id, ids);
  }

  lemma RunKeepsReports(s: State, id: nat, draw: real, ids: seq<nat>, cut: Cut, r: nat)
    requires IdsOk(s) && id in s.refunds && s.refunds[id].payment in s.payments
    requires s.refunds[id].status != RefundStatus.Processing
    requires IsCompleted(s, r)
    ensures ReportsStand(s, RefundRun(s, id, draw, ids, cut), r)
  {
    hide Audience, Complete;
    if Refunds.Terminal(s.refunds[id].status) {}
    else if draw >= 0.95 {}
    else if Audience(s, s.payments[s.refunds[id].payment].customer, ids) {
      if !cut.CutDuring? { OtherCompletion(s, RefundRun(s, id, draw, ids, cut), id, ids, r); }
    }
  }

  /** What a refund handler finds. */
  lemma RefundFound(s: State, id: nat)
    requires IdsOk(s) && RefundsOk(s.payments, s.refunds, s.next) && Current(s) == Some(ProcessRefund(id))
    ensures id in s.refunds && s.refunds[id].payment in s.payments && s.refunds[id].status != RefundStatus.Processing
  {
    assert Known(s, ProcessRefund(id));
  }

  lemma StepKeepsReports(s: State, draw: real, ids: seq<nat>, cut: Cut, r: nat)
    requires IdsOk(s) && RefundsOk(s.payments, s.refunds, s.next) && IsCompleted(s, r)
    ensures ReportsStand(s, RefundStep(s, draw, ids, cut), r)
  {
    hide RefundRun, IdsOk, RefundsOk;
    match Current(s)
    case Some(ProcessRefund(id)) =>
      RefundFound(s, id);
      RunKeepsReports(s, id, draw, ids, cut, r);
    case _ =>
  }

  /** A refund's request leaves the completed ones alone. */
  lemma RequestKeepsReports(s: State, a: Action, r: nat)
    requires IdsOk(s) && a.RefundRequest? && IsCompleted(s, r)
    ensures ReportsStand(s, Next(s, a), r)
  {
    hide Stored, Enqueue, Held;
  }

  lemma SameStand(s: State, t: State, r: nat)
    requires SameReports(s, t) && IsCompleted(s, r)
    ensures ReportsStand(s, t, r)
  {}

  lemma RefundActionStands(s: State, draw: real, ids: seq<nat>, cut: Cut, r: nat)
    requires IdsOk(s) && RefundsOk(s.payments, s.refunds, s.next) && IsCompleted(s, r)
    ensures ReportsStand(s, Next(s, RunRefund(draw, ids, cut)), r)
  {
    hide ReportsStand, IdsOk, RefundsOk, RefundStep;
    var t := RefundStep(s, draw, ids, cut);
    assert ReportsStand(s, t, r) by { StepKeepsReports(s, draw, ids, cut, r); }
  }

  lemma OtherActionStands(s: State, a: Action, r: nat)
    requires !a.RunRefund? && !a.RefundRequest? && IsCompleted(s, r)
    ensures ReportsStand(s, Next(s, a), r)
  {
    OthersLeaveReports(s, a);
    SameStand(s, Next(s, a), r);
  }

  lemma ReportsStay(s: State, a: Action, r: nat)
    requires IdsOk(s) && RefundsOk(s.payments, s.refunds, s.next) && IsCompleted(s, r)
    ensures ReportsStand(s, Next(s, a), r)
  {
    if a.RunRefund? { RefundActionStands(s, a.draw, a.ids, a.cut, r); }
    else if a.RefundRequest? { RequestKeepsReports(s, a, r); }
    else { OtherActionStands(s, a, r); }
  }

  /** Step `n` of the run completes the refund: not before, with its announcement, and for good. */
  ghost predicate CompletedBy(max: nat, run: seq<Action>, r: nat, n: nat) {
    && n < |run|
    && (forall k :: 0 <= k <= n ==> !IsCompleted(After(max, run[..k]), r))
    && AnnouncedBy(After(max, run[..n]), After(max, run[..n + 1]), r)
    && (forall k :: n < k <= |run| ==> ReportsStand(After(max, run[..n + 1]), After(max, run[..k]), r))
  }

  lemma CompletedStays(max: nat, run: seq<Action>, more: seq<Action>, r: nat)
    requires max >= 1 && IsCompleted(After(max, run), r)
    ensures IsCompleted(After(max, run + more), r)
  {
    hide Rows, Flow, PaymentsGrow, RecordsGrow, EventsGrow, LogsGrow;
    RunIsLater(max, run, more);
    assert RefundGrows(After(max, run).refunds[r], After(max, run + more).refunds[r]);
  }

  lemma EarlierIsOpen(max: nat, run: seq<Action>, k: nat, r: nat)
    requires max >= 1 && k <= |run| && !IsCompleted(After(max, run), r)
    ensures !IsCompleted(After(max, run[..k]), r)
  {
    hide IsCompleted, After;
    assert run == run[..k] + run[k..];
    if IsCompleted(After(max, run[..k]), r) { CompletedStays(max, run[..k], run[k..], r); }
  }

  lemma Prefixes(run: seq<Action>, k: nat)
    requires run != [] && k < |run|
    ensures run[..|run| - 1][..k] == run[..k] && run[..|run|] == run
  {}

  lemma CompletedNow(max: nat, run: seq<Action>, r: nat)
    requires max >= 1 && run != []
    requires !IsCompleted(After(max, run[..|run| - 1]), r) && IsCompleted(After(max, run), r)
    ensures CompletedBy(max, run, r, |run| - 1)
  {
    hide AnnouncedBy, Next, Rows, Flow;
    var n := |run| - 1;
    Prefixes(run, 0);
    assert AnnouncedBy(After(max, run[..n]), After(max, run[..n + 1]), r) by {
      Reached(max, run[..n]);
      CompletionAnnounces(After(max, run[..n]), run[n], r);
    }
    forall k | 0 <= k <= n ensures !IsCompleted(After(max, run[..k]), r) {
      EarlierIsOpen(max, run[..n], k, r);
      Prefixes(run, k);
    }
  }

  lemma StandLonger(max: nat, run: seq<Action>, r: nat, n: nat)
    requires max >= 1 && n + 1 < |run| && ReportsStand(After(max, run[..n + 1]), After(max, run[..|run| - 1]), r)
    ensures ReportsStand(After(max, run[..n + 1]), After(max, run), r)
  {
    var s := After(max, run[..|run| - 1]);
    assert IdsOk(s) && RefundsOk(s.payments, s.refunds, s.next) by { Reached(max, run[..|run| - 1]); }
    ReportsStay(s, run[|run| - 1], r);
  }

  lemma CompletedBefore(max: nat, run: seq<Action>, r: nat, n: nat)
    requires max >= 1 && run != [] && CompletedBy(max, run[..|run| - 1], r, n)
    ensures CompletedBy(max, run, r, n)
  {
    hide Next, Rows, Flow;
    var m := |run| - 1;
    forall k: nat | k < |run| ensures run[..m][..k] == run[..k] { Prefixes(run, k); }
    Prefixes(run, n);
    assert ReportsStand(After(max, run[..m][..n + 1]), After(max, run[..m][..m]), r);
    assert run[..m][..m] == run[..m] && run[..m][..n + 1] == run[..n + 1];
    StandLonger(max, run, r, n);
    forall k | n < k <= |run| ensures ReportsStand(After(max, run[..n + 1]), After(max, run[..k]), r) {
      if k < |run| { assert ReportsStand(After(max, run[..m][..n + 1]), After(max, run[..m][..k]), r); }
    }
    forall k | 0 <= k <= n ensures !IsCompleted(After(max, run[..k]), r) {
      assert !IsCompleted(After(max, run[..m][..k]), r);
    }
  }

  /** However often its job aborts and is run again, a completed refund was completed by exactly
      one step; that very step created one event for each endpoint active at that moment, there
      was none before, and none has been added or redirected since. */
  lemma {:induction false} CompletedExactlyOnce(max: nat, run: seq<Action>, r: nat)
    requires max >= 1 && IsCompleted(After(max, run), r)
    ensures exists n: nat :: CompletedBy(max, run, r, n)
    decreases |run|
  {
    if run != [] {
      if IsCompleted(After(max, run[..|run| - 1]), r) {
        CompletedExactlyOnce(max, run[..|run| - 1], r);
        var n: nat :| CompletedBy(max, run[..|run| - 1], r, n);
        CompletedBefore(max, run, r, n);
      } else {
        CompletedNow(max, run, r);
      }
    }
  }

  lemma EntersAs(s: State, phase: Phase)
    requires s.q.worker.Busy?
    ensures Enters(s, phase).q.worker == Busy(s.q.worker.job, phase)
  {}

  lemma CompletesAs(s: State, id: nat, ids: seq<nat>, cut: Cut)
    requires id in s.refunds && s.q.worker.Busy?
    ensures var w := CompleteRun(s, id, ids, cut).q.worker;
      w == s.q.worker || w == Busy(s.q.worker.job, Leave(cut)) || w == Busy(s.q.worker.job, Raised(Aborted))
  {
    hide Enters, FanoutRows, FanoutTails, FanoutEvents;
    if !cut.CutDuring? { EntersAs(Complete(s, id, ids), Leave(cut)); }
    else if cut.enqueued <= |ids| { EntersAs(FanoutJobs(s, |ids|, cut.enqueued), Raised(Aborted)); }
  }

  lemma RunNeverInvalid(s: State, id: nat, draw: real, ids: seq<nat>, cut: Cut)
    requires id in s.refunds && s.refunds[id].status != RefundStatus.Processing && s.q.worker.Busy?
    requires s.q.worker.phase == Started
    ensures RefundRun(s, id, draw, ids, cut).q.worker != Busy(s.q.worker.job, Raised(InvalidTransition))
  {
    hide Enters, CompleteRun, Audience;
    EntersAs(s, Leave(cut));
    EntersAs(s, Raised(Aborted));
    EntersAs(Fail(s, id), Leave(cut));
    CompletesAs(s, id, [], cut);
    CompletesAs(s, id, ids, cut);
  }

  /** A rerun of the refund handler finds its refund, finds it pending or terminal, and so never
      fails on its own account: the job can only be aborted from outside. */
  lemma RerunsAreSafe(max: nat, run: seq<Action>, draw: real, ids: seq<nat>, cut: Cut, id: nat)
    requires max >= 1 && Current(After(max, run)) == Some(ProcessRefund(id))
    ensures var s := After(max, run);
      && id in s.refunds && (s.refunds[id].status == RefundStatus.Pending || Refunds.Terminal(s.refunds[id].status))
      && RefundStep(s, draw, ids, cut).q.worker != Busy(s.q.worker.job, Raised(InvalidTransition))
  {
    var s := After(max, run);
    assert id in s.refunds && s.refunds[id].status != RefundStatus.Processing by {
      Reached(max, run); RefundFound(s, id);
    }
    RunNeverInvalid(s, id, draw, ids, cut);
  }
}
