/** Runs in which nobody confirms over HTTP and no payment handler is cut short: in them the backoff
    between the calls of every payment holds from end to end. */
module Undisturbances {
  import opened Common
  import opened Payments
  import opened Jobs
  import opened Refunds
  import opened System
  import opened Invariants
  import opened Growth
  import opened Runs
  import opened Frames
  import opened WorkTheorems
  import opened BackoffTheorems
  import opened Ceiling

  /** No confirm over HTTP, and no fault in a payment handler. Restarts, operator retries and faults
      in other handlers may go on. */
  predicate Peaceful(a: Action) {
    && !a.ConfirmRequest?
    && (a.RunPayment? ==> a.fault == NoFault)
    && (a.RunSoft? ==> a.fault == NoFault)
  }

  // ---------------------------------------------------------------- a job that has called never calls again

  /** The job is done, or its handler only has to come to its end. */
  predicate Spent(q: Queue, j: nat) {
    && j in q.jobs
    && (q.jobs[j].status == JobStatus.Completed
        || (q.worker.Busy? && q.worker.job == j && (q.worker.phase.Soft? || q.worker.phase == Returned)))
  }

  /** The handler that remembers a soft failure remembers one below the ceiling. */
  predicate SoftBelow(s: State) {
    s.q.worker.Busy? && s.q.worker.phase.Soft? ==> s.q.worker.phase.count < s.max
  }

  /** Every call was made by a job that is spent, and no two in a row by the same. */
  ghost predicate Made(s: State, p: nat) {
    var calls := CallsOf(s, p);
    && Undisturbed(calls)
    && (forall i :: 0 <= i < |calls| ==> Spent(s.q, calls[i].source.job))
  }

  // -------- what a handler that has called does next

  lemma CallEnds(s: State, phase: Phase)
    requires s.q.worker.Busy? && s.q.worker.job in s.q.jobs && (phase.Soft? || phase == Returned)
    ensures Spent(Enters(s, phase).q, s.q.worker.job)
  {}

  lemma AnswerPhase(s: State, id: nat, draw: real, missing: Phase)
    requires Unsettled(s, id)
    ensures var phase := ConfirmPhase(ConfirmResultOf(s, id, Attempt(draw, NoFault)), NoFault, missing);
      phase == Returned || (phase.Soft? && phase.count < s.max)
  {}

  lemma ConfirmAppends(s: State, id: nat, outcome: Outcome, source: Caller, p: nat)
    ensures var t := Confirm(s, id, None, outcome, source);
      && t.q == s.q && t.max == s.max
      && CallsOf(t, p) ==
           if Unsettled(s, id) && p == id
           then CallsOf(s, p) + [Payments.Call(outcome, s.clock, source)]
           else CallsOf(s, p)
  {
    hide Settled;
  }

  /** The handler called, or nothing of interest happened. */
  ghost predicate CalledBy(s: State, t: State, p: nat) {
    || CallsOf(t, p) == CallsOf(s, p)
    || (&& s.q.worker.Busy? && s.q.worker.phase == Started && s.q.worker.job in s.q.jobs
        && |CallsOf(t, p)| == |CallsOf(s, p)| + 1 && CallsOf(t, p)[..|CallsOf(s, p)|] == CallsOf(s, p)
        && CallsOf(t, p)[|CallsOf(s, p)|].source == Worker(s.q.worker.job)
        && Spent(t.q, s.q.worker.job))
  }

  lemma NotCalled(s: State, t: State, p: nat)
    requires t.calls == s.calls
    ensures CalledBy(s, t, p)
  {}

  lemma AttemptCalls(s: State, id: nat, draw: real, missing: Phase, p: nat)
    requires s.q.worker.Busy? && s.q.worker.phase == Started && s.q.worker.job in s.q.jobs
    ensures var t := Confirm(s, id, None, Attempt(draw, NoFault), Worker(s.q.worker.job));
      CalledBy(s, Enters(t, ConfirmPhase(ConfirmResultOf(s, id, Attempt(draw, NoFault)), NoFault, missing)), p)
  {
    hide Confirm, Attempt, ConfirmPhase, ConfirmResultOf, Enters, Spent, CallsOf;
    var t := Confirm(s, id, None, Attempt(draw, NoFault), Worker(s.q.worker.job));
    var phase := ConfirmPhase(ConfirmResultOf(s, id, Attempt(draw, NoFault)), NoFault, missing);
    ConfirmAppends(s, id, Attempt(draw, NoFault), Worker(s.q.worker.job), p);
    SameLog(t, phase, p);
    if Unsettled(s, id) {
      AnswerPhase(s, id, draw, missing);
      CallEnds(t, phase);
    }
  }

  lemma SameLog(s: State, phase: Phase, p: nat)
    ensures CallsOf(Enters(s, phase), p) == CallsOf(s, p)
  {}

  lemma RunCalls(s: State, draw: real, p: nat)
    ensures CalledBy(s, PaymentStep(s, draw, NoFault), p)
  {
    hide Confirm, Attempt, ConfirmPhase, ConfirmResultOf, Enters, CalledBy, MarkExhausted, MarkPhase;
    match Current(s)
    case Some(ProcessPayment(id)) => AttemptCalls(s, id, draw, Returned, p);
    case Some(RetryPayment(id)) =>
      MarkFrame(s, id);
      CallsOutlive(MarkExhausted(s, id), MarkPhase(s, id, NoFault));
      NotCalled(s, Enters(MarkExhausted(s, id), MarkPhase(s, id, NoFault)), p);
      AttemptCalls(s, id, draw, Raised(RowMissing), p);
    case _ => NotCalled(s, s, p);
  }

  lemma NextCalledBy(s: State, a: Action, p: nat)
    requires s.next !in s.calls && Peaceful(a)
    ensures CalledBy(s, Next(s, a), p)
  {
    hide CalledBy;
    if a.RunPayment? {
      hide PaymentStep;
      RunCalls(s, a.draw, p);
    } else {
      NextCounted(s, a, p);
      hide Next;
      SameCalled(s, Next(s, a), p);
    }
  }

  lemma SameCalled(s: State, t: State, p: nat)
    ensures CallsOf(t, p) == CallsOf(s, p) ==> CalledBy(s, t, p)
  {}

  // -------- spent jobs stay spent

  lemma EntersBelow(s: State, phase: Phase)
    requires phase.Soft? ==> phase.count < s.max
    ensures SoftBelow(Enters(s, phase))
  {}

  lemma AnswerBelow(s: State, id: nat, outcome: Outcome, fault: Fault, missing: Phase)
    requires !missing.Soft?
    ensures var phase := ConfirmPhase(ConfirmResultOf(s, id, outcome), fault, missing);
      phase.Soft? ==> phase.count < s.max
  {}

  lemma MarkedBelow(s: State, id: nat, fault: Fault)
    ensures !MarkPhase(s, id, fault).Soft?
  {}

  lemma PaymentBelow(s: State, draw: real, fault: Fault)
    requires SoftBelow(s)
    ensures SoftBelow(PaymentStep(s, draw, fault))
  {
    hide SoftBelow, Enters, Confirm, MarkExhausted, ConfirmPhase, ConfirmResultOf, MarkPhase, Attempt;
    EntersBelow(s, Raised(Aborted));
    match Current(s)
    case Some(ProcessPayment(id)) =>
      var t := Confirm(s, id, None, Attempt(draw, fault), Worker(s.q.worker.job));
      ConfirmFrame(s, id, None, Attempt(draw, fault), Worker(s.q.worker.job));
      AnswerBelow(s, id, Attempt(draw, fault), fault, Returned);
      EntersBelow(t, ConfirmPhase(ConfirmResultOf(s, id, Attempt(draw, fault)), fault, Returned));
    case Some(RetryPayment(id)) =>
      var t := Confirm(s, id, None, Attempt(draw, fault), Worker(s.q.worker.job));
      ConfirmFrame(s, id, None, Attempt(draw, fault), Worker(s.q.worker.job));
      AnswerBelow(s, id, Attempt(draw, fault), fault, Raised(RowMissing));
      EntersBelow(t, ConfirmPhase(ConfirmResultOf(s, id, Attempt(draw, fault)), fault, Raised(RowMissing)));
      MarkedBelow(s, id, fault);
      EntersBelow(MarkExhausted(s, id), MarkPhase(s, id, fault));
    case _ =>
  }

  lemma ScheduleReturns(s: State, id: nat, count: nat, jitter: real)
    requires s.q.worker.Busy?
    ensures ScheduleRetry(s, id, count, jitter).q.worker == Busy(s.q.worker.job, Returned)
  {
    hide NextRetryAt;
  }

  lemma SoftReturns(s: State, jitter: real)
    requires SoftBelow(s) && s.q.worker.Busy? && s.q.worker.phase.Soft? && SoftTask(s).Some?
    requires TargetOf(SoftTask(s).value.0).PaymentTarget?
    ensures SoftStep(s, jitter, NoFault).q.worker == Busy(s.q.worker.job, Returned)
  {
    hide ScheduleRetry, Enters, MarkExhausted, MarkPhase;
    match SoftTask(s)
    case Some((ProcessPayment(id), n)) => ScheduleReturns(s, id, n, jitter);
    case Some((RetryPayment(id), n)) => ScheduleReturns(s, id, n, jitter);
    case _ =>
  }

  lemma SoftIsPayment(s: State)
    requires Inv(s) && s.q.worker.Busy? && s.q.worker.phase.Soft?
    ensures SoftTask(s).Some? && TargetOf(SoftTask(s).value.0).PaymentTarget?
  {
    hide Rows, IdsOk, LinkOk;
  }

  /** In a peaceful run the worker moves from a call only to the end of its handler. */
  lemma EndsInPeace(s: State, a: Action)
    requires Inv(s) && SoftBelow(s) && Peaceful(a)
    requires s.q.worker.Busy? && (s.q.worker.phase.Soft? || s.q.worker.phase == Returned)
    requires !a.TakeJob? && !a.FinishJob?
    ensures var w := Next(s, a).q.worker; w == s.q.worker || w == Busy(s.q.worker.job, Returned)
  {
    hide Inv;
    if s.q.worker.phase.Soft? { SoftIsPayment(s); }
    if a.RunSoft? && s.q.worker.phase.Soft? {
      hide SoftStep;
      SoftReturns(s, a.jitter);
    } else if a.RunPayment? || a.RunRefund? || a.RunDelivery? {
      NotStarted(s, a);
    } else {
      hide Next;
      NextMoves(s, a);
      if s.q.worker.phase.Soft? { OthersKeepWorker(s, a); }
    }
  }

  lemma NotStarted(s: State, a: Action)
    requires s.q.worker.Busy? && s.q.worker.phase != Started && (a.RunPayment? || a.RunRefund? || a.RunDelivery?)
    ensures Next(s, a) == s
  {
    hide Confirm, MarkExhausted, RefundRun, DeliverRun;
    assert Current(s) == None;
  }

  lemma OthersKeepWorker(s: State, a: Action)
    requires !a.RunPayment? && !a.RunSoft? && !a.RunRefund? && !a.RunDelivery? && !a.TakeJob? && !a.FinishJob?
    ensures Next(s, a).q.worker == s.q.worker
  {
    hide Next;
    if a.CreateRequest? || a.ConfirmRequest? || a.RefundRequest? { RequestMoves(s, a); } else { PutMoves(s, a); }
  }

  lemma FinishedIsSpent(q: Queue, now: real, j: nat)
    requires Spent(q, j) && q.jobs[j].status != JobStatus.Completed
    ensures Spent(Finish(q, now), j)
  {
    if q.worker.phase == Returned {}
  }

  lemma EndedNotSoft(q: Queue, now: real)
    ensures var w := Finish(q, now).worker; w == q.worker || w == Idle
    ensures var w := Take(q).worker; w == q.worker || (w.Busy? && w.phase == Started)
    ensures q.worker.Busy? ==> Take(q) == q
  {}

  lemma TakenOrFinished(s: State, a: Action)
    requires a.TakeJob? || a.FinishJob?
    ensures var q := s.q;
      forall j :: Spent(q, j) && q.jobs[j].status != JobStatus.Completed ==> Spent(Next(s, a).q, j)
    ensures SoftBelow(s) ==> SoftBelow(Next(s, a))
  {
    QueueFrame(s, a);
    assert Next(s, a).q == if a.TakeJob? then Take(s.q) else Finish(s.q, s.clock);
    hide Next, Take, Finish;
    EndedNotSoft(s.q, s.clock);
    forall j | Spent(s.q, j) && s.q.jobs[j].status != JobStatus.Completed ensures Spent(Next(s, a).q, j) {
      FinishedIsSpent(s.q, s.clock, j);
    }
  }

  lemma DoneStaysDone(s: State, a: Action, j: nat)
    requires Inv(s) && j in s.q.jobs
    ensures j in Next(s, a).q.jobs
    ensures s.q.jobs[j].status == JobStatus.Completed ==> Next(s, a).q.jobs[j].status == JobStatus.Completed
  {
    assert j in s.q.starts by { hide Rows, IdsOk, LinkOk, BackoffOk; }
    hide Rows, Flow, Next;
    NextJobsGrow(s, a);
  }

  lemma StillSpent(s: State, a: Action, j: nat)
    requires Inv(s) && SoftBelow(s) && Peaceful(a) && Spent(s.q, j)
    ensures Spent(Next(s, a).q, j)
  {
    hide Inv;
    DoneStaysDone(s, a, j);
    if s.q.jobs[j].status != JobStatus.Completed {
      if a.TakeJob? || a.FinishJob? { hide Next; TakenOrFinished(s, a); } else { EndsInPeace(s, a); hide Next; }
    }
  }

  lemma RefundOrDeliveryBelow(s: State, a: Action)
    requires (a.RunRefund? || a.RunDelivery?) && SoftBelow(s) && Next(s, a).max == s.max
    ensures SoftBelow(Next(s, a))
  {
    hide RefundStep, DeliverStep, Moves;
    match a
    case RunRefund(draw, ids, cut) => RefundFrame(s, draw, ids, cut);
    case RunDelivery(ok, elapsed, jitter, cut) => DeliverFrame(s, ok, elapsed, jitter, cut);
  }

  /** Only an answer below the ceiling makes a handler remember a soft failure, peaceful run or not. */
  lemma StillBelow(s: State, a: Action)
    requires Inv(s) && SoftBelow(s)
    ensures SoftBelow(Next(s, a))
  {
    assert Next(s, a).max == s.max by { hide Flow; KeyedState(s); NextGrows(s, a); }
    hide Inv;
    if a.TakeJob? || a.FinishJob? {
      TakenOrFinished(s, a);
    } else if a.RunPayment? {
      hide PaymentStep;
      PaymentBelow(s, a.draw, a.fault);
    } else if a.RunSoft? {
      hide SoftStep;
      SoftStepBelow(s, a.jitter, a.fault);
    } else if a.RunRefund? || a.RunDelivery? {
      hide Next;
      RefundOrDeliveryBelow(s, a);
    } else {
      hide Next;
      OthersKeepWorker(s, a);
    }
  }

  lemma ScheduleBelow(s: State, id: nat, count: nat, jitter: real)
    requires s.q.worker.Busy?
    ensures SoftBelow(ScheduleRetry(s, id, count, jitter))
  {
    hide ScheduleRetry;
    ScheduleReturns(s, id, count, jitter);
  }

  lemma SoftStepBelow(s: State, jitter: real, fault: Fault)
    requires SoftBelow(s)
    ensures SoftBelow(SoftStep(s, jitter, fault))
  {
    hide SoftBelow, ScheduleRetry, MarkExhausted, MarkPhase, Enters;
    EntersBelow(s, Raised(Aborted));
    match SoftTask(s)
    case Some((ProcessPayment(id), n)) => ScheduleBelow(s, id, n, jitter);
    case Some((RetryPayment(id), n)) =>
      ScheduleBelow(s, id, n, jitter);
      MarkedBelow(s, id, fault);
      EntersBelow(MarkExhausted(s, id), MarkPhase(s, id, fault));
    case _ =>
  }

  lemma {:induction false} AlwaysBelow(max: nat, run: seq<Action>)
    requires max >= 1
    ensures SoftBelow(After(max, run))
    decreases |run|
  {
    hide Next;
    if run != [] {
      hide SoftBelow, Inv;
      var n := |run| - 1;
      AlwaysBelow(max, run[..n]);
      Reached(max, run[..n]);
      StillBelow(After(max, run[..n]), run[n]);
    }
  }

  // -------- so chains are undisturbed

  lemma UndisturbedSnoc(calls: seq<Payments.Call>, c: Payments.Call)
    requires Undisturbed(calls) && c.source.Worker?
    requires calls != [] ==> calls[|calls| - 1].source != c.source
    ensures Undisturbed(calls + [c])
  {}

  lemma StillMade(s: State, a: Action, p: nat)
    requires Inv(s) && SoftBelow(s) && Peaceful(a) && Made(s, p)
    ensures Made(Next(s, a), p)
  {
    hide Inv, Next, Spent, Undisturbed, Keyed, CallsOf;
    KeyedState(s);
    var t := Next(s, a);
    var calls, more := CallsOf(s, p), CallsOf(t, p);
    CallersAreJobs(calls);
    forall i | 0 <= i < |calls| ensures Spent(t.q, calls[i].source.job) { StillSpent(s, a, calls[i].source.job); }
    NextCalledBy(s, a, p);
    if more != calls {
      var j := s.q.worker.job;
      assert more == calls + [more[|calls|]];
      StartedRuns(s);
      NotSpentYet(s.q, j);
      assert forall i :: 0 <= i < |calls| ==> calls[i].source.job != j;
      UndisturbedSnoc(calls, more[|calls|]);
    }
  }

  lemma CallersAreJobs(calls: seq<Payments.Call>)
    requires Undisturbed(calls)
    ensures forall i :: 0 <= i < |calls| ==> calls[i].source.Worker?
  {}

  lemma StartedRuns(s: State)
    requires Inv(s) && s.q.worker.Busy? && s.q.worker.job in s.q.jobs
    ensures s.q.jobs[s.q.worker.job].status == Running
  {
    hide Rows, IdsOk, LinkOk, BackoffOk;
    assert JobOk(s.q, s.clock, s.q.worker.job);
  }

  lemma NotSpentYet(q: Queue, j: nat)
    requires q.worker == Busy(j, Started) && j in q.jobs && q.jobs[j].status == Running
    ensures !Spent(q, j)
  {}

  lemma {:induction false} RunIsPeaceful(max: nat, run: seq<Action>, p: nat)
    requires max >= 1 && forall i :: 0 <= i < |run| ==> Peaceful(run[i])
    ensures SoftBelow(After(max, run)) && Made(After(max, run), p)
    decreases |run|
  {
    hide Next;
    if run != [] {
      hide SoftBelow, Made, Peaceful, Inv;
      var n := |run| - 1;
      RunIsPeaceful(max, run[..n], p);
      Reached(max, run[..n]);
      StillBelow(After(max, run[..n]), run[n]);
      StillMade(After(max, run[..n]), run[n], p);
    }
  }

  /** If nobody confirms over HTTP and no payment handler is cut short, call `k + 1` of every payment
      comes at least two to the `k + 1` seconds after call `k`, counted from zero. */
  lemma BackoffHolds(max: nat, run: seq<Action>, p: nat, k: nat)
    requires max >= 1 && (forall i :: 0 <= i < |run| ==> Peaceful(run[i]))
    requires k + 1 < |CallsOf(After(max, run), p)|
    ensures var calls := CallsOf(After(max, run), p); calls[k + 1].at >= calls[k].at + Pow2(k + 1)
  {
    hide Peaceful, Undisturbed;
    RunIsPeaceful(max, run, p);
    CallsBackOff(max, run, p, k);
  }

  /** ... and its `m` calls span at least two to the `m`, minus two, seconds. */
  lemma ChainIsSlow(max: nat, run: seq<Action>, p: nat)
    requires max >= 1 && (forall i :: 0 <= i < |run| ==> Peaceful(run[i]))
    requires CallsOf(After(max, run), p) != []
    ensures var calls := CallsOf(After(max, run), p);
      calls[|calls| - 1].at - calls[0].at >= Pow2(|calls|) - 2.0
  {
    hide Peaceful, Undisturbed;
    RunIsPeaceful(max, run, p);
    ChainTakesTime(max, run, p);
  }
}
