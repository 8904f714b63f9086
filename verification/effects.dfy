/** What each operation does, seen from outside: in every reachable state, and in terms of the
    processor's draws, the clock and the tables. */
module Effects {
  import opened Common
  import opened Payments
  import opened Jobs
  import opened Refunds
  import opened Webhooks
  import opened System
  import opened Invariants
  import opened HandlerSteps
  import opened Growth
  import opened Runs
  import opened Frames
  import opened PaymentTheorems
  import opened Ceiling
  import opened Undisturbances

  // ---------------------------------------------------------------- confirming a payment

  /** The processor draws from the middle band: it fails, but may be asked again. */
  predicate SoftDraw(draw: real) {
    0.85 <= draw < 0.95
  }

  /** Whoever confirms dies between the commit of the answer and the commit at the ceiling. */
  predicate DiesAtCeiling(a: Action)
    requires a.ConfirmRequest? || a.RunPayment?
  {
    if a.ConfirmRequest? then a.cutShort else a.fault == FaultBetween
  }

  function Confirmer(s: State, a: Action): Caller {
    if a.RunPayment? && s.q.worker.Busy? then Worker(s.q.worker.job) else Http
  }

  /** What one draw of the processor at `now` makes of a payment: it succeeds in the lower band, is
      declined in the upper one, and in between goes on processing until its attempts are used up. */
  ghost predicate Decides(p: Payment, p': Payment, draw: real, cut: bool, max: nat, now: real) {
    && p'.retryCount == p.retryCount + 1
    && (p'.status == Success <==> draw < 0.85)
    && p'.confirmedAt == (if draw < 0.85 then Some(now) else None)
    && (draw < 0.85 ==> p'.failureClass == None && p'.failureReason == None)
    && (p'.failureReason == Some(ProcessorDeclined) <==> draw >= 0.95)
    && (draw >= 0.95 ==> p'.status == PaymentStatus.Failed && p'.failureClass == Some(Hard))
    && (SoftDraw(draw) && (p'.retryCount < max || cut) ==>
          p'.status == PaymentStatus.Processing && p'.failureClass == Some(FailureClass.Soft)
          && p'.failureReason == Some(TemporaryUpstreamFailure))
    && (SoftDraw(draw) && p'.retryCount >= max && !cut ==>
          p'.status == PaymentStatus.Failed && p'.failureClass == Some(Hard)
          && p'.failureReason == Some(MaxRetriesExceeded))
    && p.history <= p'.history
    && (forall i :: |p.history| <= i < |p'.history| ==> p'.history[i].at == now)
    && p'.customer == p.customer && p'.amount == p.amount && p'.key == p.key
  }

  lemma SettledDecides(p: Payment, draw: real, cut: bool, max: nat, metadata: Option<string>, now: real)
    requires max >= 1 && !Payments.Terminal(p.status) && p.confirmedAt == None
    ensures var p' := Settled(p, Classify(draw, cut), max, metadata, now);
      && Decides(p, p', draw, cut, max, now)
      && p'.metadata == if metadata.Some? then metadata else p.metadata
  {}

  /** One more call is on record, made now, and soft in its band. */
  ghost predicate CallAdded(calls: seq<Payments.Call>, calls': seq<Payments.Call>, draw: real, now: real, who: Caller) {
    && |calls'| == |calls| + 1 && calls <= calls'
    && calls'[|calls|].at == now && calls'[|calls|].source == who
    && (calls'[|calls|].outcome.SoftFailure? <==> SoftDraw(draw))
  }

  ghost predicate Confirms(s: State, t: State, p: nat, metadata: Option<string>, draw: real, cut: bool, who: Caller) {
    && t == s.(payments := t.payments, calls := t.calls, q := t.q)
    && p in s.payments && p in t.payments && p in t.calls
    && t.payments == s.payments[p := t.payments[p]] && t.calls == s.calls[p := t.calls[p]]
    && Decides(s.payments[p], t.payments[p], draw, cut, s.max, s.clock)
    && t.payments[p].metadata == (if metadata.Some? then metadata else s.payments[p].metadata)
    && CallAdded(CallsOf(s, p), t.calls[p], draw, s.clock, who)
  }

  lemma ConfirmDecides(s: State, p: nat, metadata: Option<string>, draw: real, cut: bool, who: Caller)
    requires s.max >= 1 && Unsettled(s, p) && s.payments[p].confirmedAt == None
    ensures Confirms(s, Confirm(s, p, metadata, Classify(draw, cut), who), p, metadata, draw, cut, who)
  {
    SettledDecides(s.payments[p], draw, cut, s.max, metadata, s.clock);
    hide Settled, Decides;
  }

  lemma ConfirmsOutlives(s: State, t: State, phase: Phase, p: nat, metadata: Option<string>, draw: real, cut: bool,
                         who: Caller)
    requires Confirms(s, t, p, metadata, draw, cut, who)
    ensures Confirms(s, Enters(t, phase), p, metadata, draw, cut, who)
  {
    hide Decides, CallAdded, Enter;
  }

  lemma JobConfirms(s: State, draw: real, fault: Fault, p: nat)
    requires s.max >= 1 && Unsettled(s, p) && s.payments[p].confirmedAt == None
    requires Asks(s, RunPayment(draw, fault), p) || AsksBelow(s, RunPayment(draw, fault), p)
    ensures Confirms(s, PaymentStep(s, draw, fault), p, None, draw, fault == FaultBetween, Worker(s.q.worker.job))
  {
    hide Confirms, Confirm, Enters, ConfirmPhase, ConfirmResultOf, Classify;
    var who := Worker(s.q.worker.job);
    var outcome := Attempt(draw, fault);
    ConfirmDecides(s, p, None, draw, fault == FaultBetween, who);
    ConfirmsOutlives(s, Confirm(s, p, None, outcome, who),
        ConfirmPhase(ConfirmResultOf(s, p, outcome), fault, Returned), p, None, draw, fault == FaultBetween, who);
    ConfirmsOutlives(s, Confirm(s, p, None, outcome, who),
        ConfirmPhase(ConfirmResultOf(s, p, outcome), fault, Raised(RowMissing)), p, None, draw, fault == FaultBetween,
        who);
  }

  lemma OpenIsUnconfirmed(max: nat, run: seq<Action>, p: nat)
    requires max >= 1 && Unsettled(After(max, run), p)
    ensures After(max, run).max == max && After(max, run).payments[p].confirmedAt == None
  {
    MaxIsFixed(max, run);
    RowFact(max, run, p);
  }

  /** In every run, whoever confirms an open payment, over HTTP or as its job, and however that ends:
      the processor is called exactly once, and its draw alone decides what becomes of the payment. */
  lemma ConfirmMeans(max: nat, run: seq<Action>, a: Action, p: nat)
    requires max >= 1 && Unsettled(After(max, run), p)
    requires Asks(After(max, run), a, p) || AsksBelow(After(max, run), a, p)
    ensures var s := After(max, run);
      Confirms(s, Next(s, a), p, if a.ConfirmRequest? then a.metadata else None, a.draw, DiesAtCeiling(a),
               Confirmer(s, a))
  {
    var s := After(max, run);
    OpenIsUnconfirmed(max, run, p);
    hide Confirms, Confirm, PaymentStep, Classify;
    if a.ConfirmRequest? {
      ConfirmDecides(s, p, a.metadata, a.draw, a.cutShort, Http);
    } else {
      JobConfirms(s, a.draw, a.fault, p);
    }
  }

  /** How a confirm answers, by what is in the tables afterwards; one that finds the payment unknown
      or at its end changes nothing. */
  lemma ConfirmReplies(max: nat, run: seq<Action>, p: nat, metadata: Option<string>, draw: real, cut: bool)
    requires max >= 1
    ensures var s := After(max, run);
      var t, r := Next(s, ConfirmRequest(p, metadata, draw, cut)), ConfirmResultOf(s, p, Classify(draw, cut));
      && (r == PaymentNotFound <==> p !in s.payments)
      && (r == AlreadyProcessed <==>
            p in s.payments && s.payments[p].status in {Success, PaymentStatus.Failed})
      && (r == PaymentNotFound || r == AlreadyProcessed ==> t == s)
      && (r.SoftRaised? || r == CutShort ==>
            p in t.payments && t.payments[p].status == PaymentStatus.Processing && SoftDraw(draw))
      && (r.SoftRaised? ==> r.count == t.payments[p].retryCount < max)
      && (r == CutShort ==> t.payments[p].retryCount >= max && cut)
      && (r == Confirmed ==>
            p in s.payments && p in t.payments && t.payments[p] != s.payments[p]
            && t.payments[p].status in {Success, PaymentStatus.Failed})
  {
    var s := After(max, run);
    if Unsettled(s, p) {
      OpenIsUnconfirmed(max, run, p);
      ConfirmMeans(max, run, ConfirmRequest(p, metadata, draw, cut), p);
      hide Next, Confirm, CallAdded, After;
    } else {
      hide After;
    }
  }

  // -------- how the payment's job goes on from there

  /** The phase in which a job that has called leaves `confirm_payment`. */
  lemma AnswerLeads(max: nat, run: seq<Action>, a: Action, p: nat)
    requires max >= 1 && Unsettled(After(max, run), p) && a.RunPayment?
    requires Asks(After(max, run), a, p) || AsksBelow(After(max, run), a, p)
    ensures var s := After(max, run); var t := Next(s, a);
      && p in t.payments
      && t.q == s.q.(worker := Busy(s.q.worker.job,
           if SoftDraw(a.draw) && t.payments[p].retryCount < max then Phase.Soft(t.payments[p].retryCount)
           else if a.fault == FaultAfter || (a.fault == FaultBetween && SoftDraw(a.draw)) then Raised(Aborted)
           else Returned))
  {
    var s := After(max, run);
    OpenIsUnconfirmed(max, run, p);
    ConfirmMeans(max, run, a, p);
    hide CallAdded, After, Settled, CallsOf;
  }

  /** The row was failed at `now` because its attempts are used up. */
  ghost predicate GaveUp(p: Payment, p': Payment, now: real) {
    && p'.status == PaymentStatus.Failed && p'.failureClass == Some(Hard)
    && p'.failureReason == Some(MaxRetriesExceeded) && p'.retryCount == p.retryCount
    && p.history <= p'.history && (forall i :: |p.history| <= i < |p'.history| ==> p'.history[i].at == now)
    && p'.customer == p.customer && p'.amount == p.amount && p'.key == p.key && p'.metadata == p.metadata
  }

  lemma ExhaustedGaveUp(p: Payment, now: real)
    ensures GaveUp(p, Exhausted(p, now), now)
  {}

  /** The handler in flight is at its end, and nothing else has happened. */
  function LeftAs(s: State, phase: Phase): State
    requires s.q.worker.Busy?
  {
    s.(q := s.q.(worker := Busy(s.q.worker.job, phase)))
  }

  /** A retry job that finds its payment at the ceiling makes up for the missed commit, without
      calling the processor again. */
  lemma CeilingMeans(s: State, draw: real, fault: Fault, p: nat)
    requires Current(s) == Some(RetryPayment(p)) && Unsettled(s, p) && s.payments[p].retryCount >= s.max
    requires fault != FaultBefore
    ensures var t := Next(s, RunPayment(draw, fault));
      && p in t.payments && GaveUp(s.payments[p], t.payments[p], s.clock)
      && t == LeftAs(s.(payments := s.payments[p := t.payments[p]]),
                     if fault == FaultAfter then Raised(Aborted) else Returned)
  {
    ExhaustedGaveUp(s.payments[p], s.clock);
    hide Exhausted, Confirm, GaveUp;
  }

  /** A job never touches a payment that is at its end: it raises, unless it is a retry job that
      finds the payment failed with its attempts used up. */
  lemma SettledMeans(s: State, draw: real, fault: Fault, p: nat)
    requires Current(s) == Some(ProcessPayment(p)) || Current(s) == Some(RetryPayment(p))
    requires p in s.payments && s.payments[p].status in {Success, PaymentStatus.Failed} && fault != FaultBefore
    ensures var row := s.payments[p];
      var calm := Current(s) == Some(RetryPayment(p)) && row.retryCount >= s.max && row.status == PaymentStatus.Failed;
      Next(s, RunPayment(draw, fault)) ==
        LeftAs(s, if !calm then Raised(AlreadyTerminal) else if fault == FaultAfter then Raised(Aborted) else Returned)
  {
    hide Exhausted, Settled, CallsOf, Attempt;
    assert Payments.Terminal(s.payments[p].status);
    if s.payments[p].retryCount >= s.max {}
  }

  /** A payment handler is cut short before its call, or between a soft failure and its retry. */
  predicate CutsHandler(s: State, a: Action) {
    if a.RunSoft? then
      && a.fault != NoFault && 0.0 <= a.jitter < 1.0
      && SoftTask(s).Some? && TargetOf(SoftTask(s).value.0).PaymentTarget?
    else
      a.RunPayment? && a.fault == FaultBefore && Current(s).Some? && TargetOf(Current(s).value).PaymentTarget?
  }

  /** ... which then does nothing but raise. */
  lemma CutMeans(s: State, a: Action)
    requires CutsHandler(s, a)
    ensures Next(s, a) == LeftAs(s, Raised(Aborted))
  {
    hide Confirm, MarkExhausted, ScheduleRetry, ConfirmPhase, MarkPhase;
    if a.RunSoft? { assert SoftStep(s, a.jitter, a.fault) == Enters(s, Raised(Aborted)); }
    else { assert PaymentStep(s, a.draw, a.fault) == Enters(s, Raised(Aborted)); }
    hide SoftStep, PaymentStep;
  }

  // ---------------------------------------------------------------- jobs that follow up

  /** The handler came to its end and left exactly one more job, queued for `earliest` or up to a
      second later, with its put still to come. */
  ghost predicate FollowedUp(s: State, t: State, task: Task, earliest: real) {
    && s.q.worker.Busy? && s.next !in s.q.jobs && s.next in t.q.jobs && t.next == s.next + 1
    && var job := t.q.jobs[s.next];
      && t.q.jobs == s.q.jobs[s.next := job]
      && job.task == task && job.status == JobStatus.Queued && job.attempts == 0 && job.maxAttempts == 3
      && earliest <= job.runAt < earliest + 1.0
      && t.q.tails == s.q.tails + [Tail(s.next, Some(job.runAt))] && t.q.dispatch == s.q.dispatch
      && t.q.worker == Busy(s.q.worker.job, Returned)
  }

  lemma EnqueueShape(q: Queue, id: nat, task: Task, runAt: real)
    requires q.worker.Busy?
    ensures var r := Enter(Enqueue(q, id, task, runAt), Returned);
      && r.jobs == q.jobs[id := Job(task, JobStatus.Queued, 0, 3, runAt, None)]
      && r.tails == q.tails + [Tail(id, Some(runAt))] && r.dispatch == q.dispatch
      && r.worker == Busy(q.worker.job, Returned)
  {}

  lemma EnqueueFollows(s: State, t: State, task: Task, runAt: real, earliest: real)
    requires s.q.worker.Busy? && s.next !in s.q.jobs && earliest <= runAt < earliest + 1.0
    requires t.next == s.next + 1 && t.q == Enter(Enqueue(s.q, s.next, task, runAt), Returned)
    ensures FollowedUp(s, t, task, earliest)
  {
    EnqueueShape(s.q, s.next, task, runAt);
    hide Enter, Enqueue;
  }

  lemma ScheduleFollows(s: State, id: nat, count: nat, jitter: real)
    requires s.q.worker.Busy? && s.next !in s.q.jobs && 0.0 <= jitter < 1.0
    ensures var t := ScheduleRetry(s, id, count, jitter);
      t == s.(next := t.next, q := t.q) && FollowedUp(s, t, RetryPayment(id), s.clock + Pow2(count))
  {
    hide Enter, Enqueue, FollowedUp;
    var runAt := NextRetryAt(s.clock, count, jitter);
    EnqueueFollows(s, ScheduleRetry(s, id, count, jitter), RetryPayment(id), runAt, s.clock + Pow2(count));
  }

  lemma SoftFacts(s: State)
    requires Inv(s) && s.q.worker.Busy? && s.q.worker.phase.Soft?
    ensures s.q.worker.job in s.q.jobs && TargetOf(s.q.jobs[s.q.worker.job].task).PaymentTarget? && s.next !in s.q.jobs
    ensures var p := TargetOf(s.q.jobs[s.q.worker.job].task).id; var n := s.q.worker.phase.count;
      && p in s.payments && p in s.calls && 1 <= n <= |s.calls[p]| && s.calls[p][n - 1].source == Worker(s.q.worker.job)
  {
    hide LinkOk, RecordsOk, RefundsOk, EventsOk;
    assert SoftOk(s);
  }

  lemma SoftStepFollows(s: State, jitter: real)
    requires 0.0 <= jitter < 1.0 && SoftBelow(s) && s.q.worker.Busy? && s.q.worker.phase.Soft?
    requires s.q.worker.job in s.q.jobs && TargetOf(s.q.jobs[s.q.worker.job].task).PaymentTarget? && s.next !in s.q.jobs
    ensures var t := Next(s, RunSoft(jitter, NoFault));
      && t == s.(next := t.next, q := t.q)
      && FollowedUp(s, t, RetryPayment(TargetOf(s.q.jobs[s.q.worker.job].task).id),
                    s.clock + Pow2(s.q.worker.phase.count))
  {
    hide MarkExhausted, ScheduleRetry, FollowedUp;
    ScheduleFollows(s, TargetOf(s.q.jobs[s.q.worker.job].task).id, s.q.worker.phase.count, jitter);
  }

  /** In every run, a job that remembers the soft failure of call `n`, which it made itself, schedules
      exactly one retry, two to the `n` seconds from now and up to a second more. */
  lemma SoftMeans(max: nat, run: seq<Action>, jitter: real)
    requires max >= 1 && 0.0 <= jitter < 1.0
    requires After(max, run).q.worker.Busy? && After(max, run).q.worker.phase.Soft?
    ensures var s := After(max, run);
      var t, j, n := Next(s, RunSoft(jitter, NoFault)), s.q.worker.job, s.q.worker.phase.count;
      && t == s.(next := t.next, q := t.q)
      && j in s.q.jobs && TargetOf(s.q.jobs[j].task).PaymentTarget?
      && var p := TargetOf(s.q.jobs[j].task).id;
        && p in s.calls && 1 <= n <= |s.calls[p]| && s.calls[p][n - 1].source == Worker(j)
        && FollowedUp(s, t, RetryPayment(p), s.clock + Pow2(n))
  {
    hide Inv, After, FollowedUp, SoftBelow, Next;
    var s := After(max, run);
    Reached(max, run);
    AlwaysBelow(max, run);
    SoftFacts(s);
    SoftStepFollows(s, jitter);
  }

  // ---------------------------------------------------------------- processing a refund

  /** An active endpoint of the customer who paid. */
  ghost predicate Told(s: State, r: nat, e: nat) {
    && r in s.refunds && s.refunds[r].payment in s.payments
    && e in s.endpoints && s.endpoints[e].active
    && s.endpoints[e].client == s.payments[s.refunds[r].payment].customer
  }

  /** Event `base + i` is queued for endpoint `ids[i]`, and a job is due that delivers it. */
  ghost predicate Fanned(s: State, t: State, r: nat, ids: seq<nat>, i: nat)
    requires i < |ids|
  {
    var e, j := s.next + i, s.next + |ids| + i;
    && e !in s.events && e in t.events && t.events[e] == Event(ids[i], r, EventStatus.Queued, 0, None, None)
    && PostsOf(t, e) == []
    && j !in s.q.jobs && j in t.q.jobs
    && t.q.jobs[j] == Job(DeliverWebhook(e), JobStatus.Queued, 0, 3, s.clock, None)
    && Tail(j, Some(s.clock)) in t.q.tails
  }

  /** Everything there was is still there, and nothing else is new. */
  ghost predicate OnlyAdds(s: State, t: State, n: nat) {
    && t == s.(refunds := t.refunds, events := t.events, posts := t.posts, next := s.next + 2 * n, q := t.q)
    && (forall e :: e in s.events ==> e in t.events && t.events[e] == s.events[e] && PostsOf(t, e) == PostsOf(s, e))
    && (forall e :: e in t.events && e !in s.events ==> s.next <= e < s.next + n)
    && (forall j :: j in s.q.jobs ==> j in t.q.jobs && t.q.jobs[j] == s.q.jobs[j])
    && (forall j :: j in t.q.jobs && j !in s.q.jobs ==> s.next + n <= j < s.next + 2 * n)
  }

  lemma FanoutAdds(s: State, n: nat)
    ensures var q := FanoutJobs(s, n, n).q;
      && (forall j :: j in q.jobs <==> j in s.q.jobs || s.next + n <= j < s.next + 2 * n)
      && (forall j :: s.next + n <= j < s.next + 2 * n ==>
            q.jobs[j] == Job(DeliverWebhook(j - n), JobStatus.Queued, 0, 3, s.clock, None))
      && (forall j :: j in s.q.jobs && !(s.next + n <= j < s.next + 2 * n) ==> q.jobs[j] == s.q.jobs[j])
      && |q.tails| == |s.q.tails| + n
      && (forall i :: |s.q.tails| <= i < |q.tails| ==>
            q.tails[i] == Tail(s.next + n + (i - |s.q.tails|), Some(s.clock)))
      && q.worker == s.q.worker
  {
    FanoutShape(s.next, n, n, s.clock);
    hide FanoutRows, FanoutTails;
  }

  ghost predicate NumberedBelow(s: State) {
    && s.posts.Keys == s.events.Keys
    && (forall e :: e in s.events ==> e < s.next)
    && (forall j :: j in s.q.jobs ==> j < s.next)
  }

  lemma EventsAdded(events: map<nat, Event>, posts: map<nat, seq<Post>>, base: nat, r: nat, ids: seq<nat>)
    requires posts.Keys == events.Keys && forall e :: e in events ==> e < base
    ensures var es, n := events + FanoutEvents(base, r, ids), |ids|;
      var ps := posts + (map e | e in Range(base, n) :: []);
      && (forall e :: e in es <==> e in events || base <= e < base + n)
      && ps.Keys == es.Keys
      && (forall e :: e in events ==> es[e] == events[e] && ps[e] == posts[e])
      && (forall e :: base <= e < base + n ==>
            es[e] == Event(ids[e - base], r, EventStatus.Queued, 0, None, None) && ps[e] == [])
  {
    EventsShape(base, r, ids);
    hide FanoutEvents;
  }

  /** The tables after a refund has been completed, row by row. */
  lemma CompleteShape(s: State, r: nat, ids: seq<nat>)
    requires r in s.refunds && NumberedBelow(s)
    ensures var t, n := Complete(s, r, ids), |ids|;
      && t == s.(refunds := s.refunds[r := s.refunds[r].(status := RefundStatus.Completed)],
                 events := t.events, posts := t.posts, next := s.next + 2 * n, q := FanoutJobs(s, n, n).q)
      && (forall e :: e in t.events <==> e in s.events || s.next <= e < s.next + n)
      && t.posts.Keys == t.events.Keys
      && (forall e :: e in s.events ==> t.events[e] == s.events[e] && t.posts[e] == s.posts[e])
      && (forall e :: s.next <= e < s.next + n ==>
            t.events[e] == Event(ids[e - s.next], r, EventStatus.Queued, 0, None, None) && t.posts[e] == [])
  {
    EventsAdded(s.events, s.posts, s.next, r, ids);
    hide FanoutEvents, FanoutRows, FanoutTails, Insert;
  }

  lemma NothingPosted(s: State, e: nat)
    requires e in s.posts && s.posts[e] == []
    ensures PostsOf(s, e) == []
  {}

  lemma CompleteFans(s: State, r: nat, ids: seq<nat>, i: nat)
    requires r in s.refunds && NumberedBelow(s) && i < |ids|
    ensures Fanned(s, Complete(s, r, ids), r, ids, i)
  {
    hide FanoutJobs, Complete, PostsOf;
    var t, e, j := Complete(s, r, ids), s.next + i, s.next + |ids| + i;
    assert e !in s.events && j !in s.q.jobs;
    CompleteShape(s, r, ids);
    assert PostsOf(t, e) == [] by { NothingPosted(t, e); }
    hide NumberedBelow;
    assert j in t.q.jobs && t.q.jobs[j] == Job(DeliverWebhook(e), JobStatus.Queued, 0, 3, s.clock, None)
        && Tail(j, Some(s.clock)) in t.q.tails by
    {
      FanoutAdds(s, |ids|);
      assert t.q.tails[|s.q.tails| + i] == Tail(j, Some(s.clock));
    }
  }

  lemma CompleteOnlyAdds(s: State, r: nat, ids: seq<nat>)
    requires r in s.refunds && NumberedBelow(s)
    ensures var t := Complete(s, r, ids);
      && t.refunds == s.refunds[r := s.refunds[r].(status := RefundStatus.Completed)]
      && t.q.worker == s.q.worker && OnlyAdds(s, t, |ids|)
  {
    CompleteShape(s, r, ids);
    FanoutAdds(s, |ids|);
    hide FanoutJobs, Complete;
  }

  lemma EntersAdds(s: State, t: State, phase: Phase, n: nat)
    requires OnlyAdds(s, t, n)
    ensures OnlyAdds(s, Enters(t, phase), n)
  {}

  lemma EntersFanned(s: State, t: State, phase: Phase, r: nat, ids: seq<nat>, i: nat)
    requires i < |ids| && Fanned(s, t, r, ids, i)
    ensures Fanned(s, Enters(t, phase), r, ids, i)
  {}

  lemma ToldIsAudience(s: State, r: nat, ids: seq<nat>)
    requires r in s.refunds && s.refunds[r].payment in s.payments
    requires (forall e :: e in ids <==> Told(s, r, e)) && forall i, k :: 0 <= i < k < |ids| ==> ids[i] != ids[k]
    ensures Audience(s, s.payments[s.refunds[r].payment].customer, ids)
  {
    var customer := s.payments[s.refunds[r].payment].customer;
    forall i | 0 <= i < |ids| ensures Listening(s, customer, ids[i]) { assert Told(s, r, ids[i]); }
    forall e | e in s.endpoints && Listening(s, customer, e) ensures e in ids { assert Told(s, r, e); }
  }

  /** What the refund handler made of a pending refund: below 0.95 of the draw it is completed, and
      every active endpoint of the customer is told; from there on it has failed, and nobody is. */
  ghost predicate RefundDecided(s: State, t: State, r: nat, draw: real, ids: seq<nat>) {
    && r in s.refunds
    && (draw < 0.95 ==>
          && t.refunds == s.refunds[r := s.refunds[r].(status := RefundStatus.Completed)]
          && OnlyAdds(s, t, |ids|) && forall i: nat :: i < |ids| ==> Fanned(s, t, r, ids, i))
    && (draw >= 0.95 ==>
          t == s.(refunds := s.refunds[r := s.refunds[r].(status := RefundStatus.Failed)],
                  q := s.q.(worker := t.q.worker)))
  }

  lemma PendingDecided(s: State, r: nat, draw: real, ids: seq<nat>, cut: Cut)
    requires r in s.refunds && s.refunds[r].status == RefundStatus.Pending && s.refunds[r].payment in s.payments
    requires NumberedBelow(s) && s.q.worker.Busy? && !cut.CutDuring?
    requires Audience(s, s.payments[s.refunds[r].payment].customer, ids)
    ensures var t := RefundRun(s, r, draw, ids, cut);
      RefundDecided(s, t, r, draw, ids) && t.q.worker == Busy(s.q.worker.job, Leave(cut))
  {
    if draw < 0.95 {
      hide Audience, Complete, OnlyAdds, Fanned, NumberedBelow;
      var t := Complete(s, r, ids);
      CompleteOnlyAdds(s, r, ids);
      EntersAdds(s, t, Leave(cut), |ids|);
      forall i: nat | i < |ids| ensures Fanned(s, Enters(t, Leave(cut)), r, ids, i) {
        CompleteFans(s, r, ids, i);
        EntersFanned(s, t, Leave(cut), r, ids, i);
      }
    }
  }

  /** In every run, a refund job that is not cut short before its commit decides a pending refund by
      the draw alone. */
  lemma RefundMeans(max: nat, run: seq<Action>, r: nat, draw: real, ids: seq<nat>, cut: Cut)
    requires max >= 1 && Current(After(max, run)) == Some(ProcessRefund(r)) && (cut == NoCut || cut == CutAfter)
    requires r in After(max, run).refunds && After(max, run).refunds[r].status == RefundStatus.Pending
    requires forall e :: e in ids <==> Told(After(max, run), r, e)
    requires forall i, k :: 0 <= i < k < |ids| ==> ids[i] != ids[k]
    ensures var s := After(max, run); var t := Next(s, RunRefund(draw, ids, cut));
      && RefundDecided(s, t, r, draw, ids)
      && t.q.worker == Busy(s.q.worker.job, if cut == NoCut then Returned else Raised(Aborted))
  {
    hide Inv, After, RefundRun, RefundDecided, NumberedBelow, Told, Audience, Next;
    var s := After(max, run);
    Reached(max, run);
    RefundKnown(s, r);
    NumberedState(s);
    ToldIsAudience(s, r, ids);
    RefundRuns(s, r, draw, ids, cut);
    PendingDecided(s, r, draw, ids, cut);
  }

  lemma RefundRuns(s: State, r: nat, draw: real, ids: seq<nat>, cut: Cut)
    requires Current(s) == Some(ProcessRefund(r)) && r in s.refunds
    ensures Next(s, RunRefund(draw, ids, cut)) == RefundRun(s, r, draw, ids, cut)
  {
    hide RefundRun;
  }

  lemma NumberedState(s: State)
    requires Inv(s)
    ensures NumberedBelow(s)
  {
    hide QueueInv, LinkOk, BackoffOk, PaymentsOk, RecordsOk, RefundsOk, EventRowOk, Known;
  }

  /** A refund job that finds its refund decided only comes to its end. */
  lemma DecidedStays(s: State, r: nat, draw: real, ids: seq<nat>)
    requires Current(s) == Some(ProcessRefund(r)) && r in s.refunds
    requires s.refunds[r].status in {RefundStatus.Completed, RefundStatus.Failed}
    ensures Next(s, RunRefund(draw, ids, NoCut)) == LeftAs(s, Returned)
  {}
}
