/** The retry ceiling is enforced by a second commit. What a caller that dies between the two
    commits can do to the number of processor calls, exactly. */
module Ceiling {
  import opened Common
  import opened Payments
  import opened Jobs
  import opened Refunds
  import opened System
  import opened Invariants
  import opened Growth
  import opened Runs
  import opened Frames
  import opened PaymentTheorems
  import opened Scenarios

  // ---------------------------------------------------------------- who calls the processor, exactly

  predicate Unsettled(s: State, p: nat) {
    p in s.payments && !Payments.Terminal(s.payments[p].status)
  }

  /** The step asks for a processor call for the payment without looking at the ceiling first: a
      confirm over HTTP, or the payment's first job, as long as it is not cut before its work. */
  predicate Asks(s: State, a: Action, p: nat) {
    || (a.ConfirmRequest? && a.payment == p)
    || (a.RunPayment? && a.fault != FaultBefore && Current(s) == Some(ProcessPayment(p)))
  }

  /** A retry job asks, too, but only below the ceiling. */
  predicate AsksBelow(s: State, a: Action, p: nat) {
    && a.RunPayment? && a.fault != FaultBefore && Current(s) == Some(RetryPayment(p))
    && p in s.payments && s.payments[p].retryCount < s.max
  }

  /** One call more for an open payment that the step asks for, and no change otherwise. */
  ghost predicate Counted(s: State, a: Action, t: State, p: nat) {
    if Unsettled(s, p) && (Asks(s, a, p) || AsksBelow(s, a, p))
    then |CallsOf(t, p)| == |CallsOf(s, p)| + 1
    else CallsOf(t, p) == CallsOf(s, p)
  }

  lemma NoneCounted(s: State, a: Action, t: State, p: nat)
    requires t.calls == s.calls && !(Unsettled(s, p) && (Asks(s, a, p) || AsksBelow(s, a, p)))
    ensures Counted(s, a, t, p)
  {}

  lemma ConfirmCalls(s: State, t: State, id: nat, metadata: Option<string>, outcome: Outcome, source: Caller, p: nat)
    requires t.calls == Confirm(s, id, metadata, outcome, source).calls
    ensures
      if Unsettled(s, p) && p == id then |CallsOf(t, p)| == |CallsOf(s, p)| + 1 else CallsOf(t, p) == CallsOf(s, p)
  {
    hide Settled;
  }

  lemma CreateCalls(s: State, customer: string, cents: real, metadata: Option<string>, key: string, p: nat)
    requires s.next !in s.calls
    ensures CallsOf(Create(s, customer, cents, metadata, key), p) == CallsOf(s, p)
  {
    hide CreateResultOf, NewPayment, Refunds.Stored, Enqueue;
  }

  lemma CallsOutlive(s: State, phase: Phase)
    ensures Enters(s, phase).calls == s.calls
  {}

  /** What a payment handler does to the log of calls. */
  lemma StepCalls(s: State, draw: real, fault: Fault)
    ensures var t := PaymentStep(s, draw, fault);
      match Current(s)
      case Some(ProcessPayment(id)) =>
        if fault == FaultBefore then t.calls == s.calls
        else t.calls == Confirm(s, id, None, Attempt(draw, fault), Worker(s.q.worker.job)).calls
      case Some(RetryPayment(id)) =>
        if fault == FaultBefore || (id in s.payments && s.payments[id].retryCount >= s.max) then t.calls == s.calls
        else t.calls == Confirm(s, id, None, Attempt(draw, fault), Worker(s.q.worker.job)).calls
      case _ => t.calls == s.calls
  {
    hide Enters, Confirm, MarkExhausted, ConfirmPhase, ConfirmResultOf, MarkPhase, Attempt;
    match Current(s)
    case Some(ProcessPayment(id)) =>
      CallsOutlive(Confirm(s, id, None, Attempt(draw, fault), Worker(s.q.worker.job)),
                   ConfirmPhase(ConfirmResultOf(s, id, Attempt(draw, fault)), fault, Returned));
      CallsOutlive(s, Raised(Aborted));
    case Some(RetryPayment(id)) =>
      CallsOutlive(Confirm(s, id, None, Attempt(draw, fault), Worker(s.q.worker.job)),
                   ConfirmPhase(ConfirmResultOf(s, id, Attempt(draw, fault)), fault, Raised(RowMissing)));
      CallsOutlive(s, Raised(Aborted));
      CallsOutlive(MarkExhausted(s, id), MarkPhase(s, id, fault));
      MarkFrame(s, id);
    case _ =>
  }

  lemma PaymentCounted(s: State, draw: real, fault: Fault, p: nat)
    ensures Counted(s, RunPayment(draw, fault), PaymentStep(s, draw, fault), p)
  {
    StepCalls(s, draw, fault);
    hide PaymentStep, Confirm, Attempt, CallsOf;
    var a, t := RunPayment(draw, fault), PaymentStep(s, draw, fault);
    match Current(s)
    case Some(ProcessPayment(id)) =>
      if fault == FaultBefore { NoneCounted(s, a, t, p); }
      else { ConfirmCalls(s, t, id, None, Attempt(draw, fault), Worker(s.q.worker.job), p); }
    case Some(RetryPayment(id)) =>
      if fault == FaultBefore || (id in s.payments && s.payments[id].retryCount >= s.max) { NoneCounted(s, a, t, p); }
      else { ConfirmCalls(s, t, id, None, Attempt(draw, fault), Worker(s.q.worker.job), p); }
    case _ => NoneCounted(s, a, t, p);
  }

  lemma HandlerCounted(s: State, a: Action, p: nat)
    requires a.RunPayment? || a.RunSoft? || a.RunRefund? || a.RunDelivery?
    ensures Counted(s, a, Next(s, a), p)
  {
    hide Counted, PaymentStep, SoftStep, RefundStep, DeliverStep, Moves;
    match a
    case RunPayment(draw, fault) => PaymentCounted(s, draw, fault, p);
    case RunSoft(jitter, fault) =>
      SoftFrame(s, jitter, fault);
      NoneCounted(s, a, Next(s, a), p);
    case RunRefund(draw, ids, cut) =>
      RefundFrame(s, draw, ids, cut);
      NoneCounted(s, a, Next(s, a), p);
    case RunDelivery(ok, elapsed, jitter, cut) =>
      DeliverFrame(s, ok, elapsed, jitter, cut);
      NoneCounted(s, a, Next(s, a), p);
  }

  lemma RequestCounted(s: State, a: Action, p: nat)
    requires s.next !in s.calls && (a.CreateRequest? || a.ConfirmRequest? || a.RefundRequest?)
    ensures Counted(s, a, Next(s, a), p)
  {
    hide Create, Confirm, Initiate, CallsOf;
    match a
    case CreateRequest(customer, cents, metadata, key) => CreateCalls(s, customer, cents, metadata, key, p);
    case ConfirmRequest(id, metadata, draw, cut) =>
      ConfirmCalls(s, Next(s, a), id, metadata, Classify(draw, cut), Http, p);
    case RefundRequest(id, cents, key) =>
      InitiateFrame(s, id, cents, key);
      NoneCounted(s, a, Next(s, a), p);
  }

  /** Every step calls the processor for a payment at most once, and exactly if it asks for it. */
  lemma NextCounted(s: State, a: Action, p: nat)
    requires s.next !in s.calls
    ensures Counted(s, a, Next(s, a), p)
  {
    hide Counted, Next;
    if a.CreateRequest? || a.ConfirmRequest? || a.RefundRequest? { RequestCounted(s, a, p); }
    else if a.RunPayment? || a.RunSoft? || a.RunRefund? || a.RunDelivery? { HandlerCounted(s, a, p); }
    else if QueueAction(a) { QueueFrame(s, a); NoneCounted(s, a, Next(s, a), p); }
    else { OuterFrame(s, a); NoneCounted(s, a, Next(s, a), p); }
  }

  // ---------------------------------------------------------------- more than MAX calls

  /** Step `n` of the run asks for a call for a payment that has used up its attempts and is still
      processing, because the commit that fails it was missed. */
  ghost predicate AskedOverdue(max: nat, run: seq<Action>, p: nat, n: nat) {
    && n < |run| && p in After(max, run[..n]).payments && Overdue(After(max, run[..n]).payments[p], max)
    && Asks(After(max, run[..n]), run[n], p)
  }

  lemma CallsPersist(max: nat, run: seq<Action>, n: nat, p: nat)
    requires max >= 1 && n <= |run|
    ensures |CallsOf(After(max, run[..n]), p)| <= |CallsOf(After(max, run), p)|
  {
    hide Rows, Flow, PaymentsGrow, RecordsGrow, RefundsGrow, EventsGrow;
    assert run == run[..n] + run[n..];
    Reached(max, run[..n]);
    ExecSplit(Init(max), run[..n], run[n..]);
    ExecGrows(After(max, run[..n]), run[n..]);
  }

  lemma OverdueCount(max: nat, run: seq<Action>, p: nat)
    requires max >= 1 && p in After(max, run).payments
    ensures var s := After(max, run); var row := s.payments[p];
      && row.retryCount == |CallsOf(s, p)|
      && (Overdue(row, max) <==> !Payments.Terminal(row.status) && |CallsOf(s, p)| >= max)
  {
    RowFact(max, run, p);
    RowShape(After(max, run).payments[p], After(max, run).calls[p], max);
  }

  lemma StepCounted(max: nat, run: seq<Action>, p: nat, n: nat)
    requires max >= 1 && n < |run|
    ensures Counted(After(max, run[..n]), run[n], After(max, run[..n + 1]), p)
    ensures After(max, run[..n]).max == max
  {
    hide Counted;
    var s := After(max, run[..n]);
    assert run[..n + 1][..n] == run[..n];
    assert s.next !in s.calls by { hide QueueInv, LinkOk, BackoffOk; Reached(max, run[..n]); }
    MaxIsFixed(max, run[..n]);
    hide Next;
    NextCounted(s, run[n], p);
  }

  /** The first step beyond the ceiling. */
  lemma StepBeyond(max: nat, run: seq<Action>, p: nat)
    requires max >= 1 && run != []
    requires |CallsOf(After(max, run[..|run| - 1]), p)| <= max < |CallsOf(After(max, run), p)|
    ensures AskedOverdue(max, run, p, |run| - 1)
  {
    hide Exec, CallsOf;
    var n := |run| - 1;
    assert run[..n + 1] == run;
    StepCounted(max, run, p, n);
    OverdueCount(max, run[..n], p);
  }

  lemma {:induction false} SomeStepBeyond(max: nat, run: seq<Action>, p: nat)
    requires max >= 1 && |CallsOf(After(max, run), p)| > max
    ensures exists n: nat :: AskedOverdue(max, run, p, n)
    decreases |run|
  {
    hide Next, AskedOverdue;
    if run != [] {
      var m := |run| - 1;
      if |CallsOf(After(max, run[..m]), p)| > max {
        SomeStepBeyond(max, run[..m], p);
        var n: nat :| AskedOverdue(max, run[..m], p, n);
        SameStep(max, run, p, n);
      } else {
        StepBeyond(max, run, p);
      }
    }
  }

  lemma SameStep(max: nat, run: seq<Action>, p: nat, n: nat)
    requires run != [] && AskedOverdue(max, run[..|run| - 1], p, n)
    ensures AskedOverdue(max, run, p, n)
  {
    hide Exec;
    assert run[..|run| - 1][..n] == run[..n];
  }

  /** A payment is sent to the processor more than MAX times exactly if, at some moment at which it
      is overdue, somebody confirms it over HTTP or its first job runs. Its retry jobs never do it. */
  lemma MoreThanMaxIff(max: nat, run: seq<Action>, p: nat)
    requires max >= 1
    ensures |CallsOf(After(max, run), p)| > max <==> exists n: nat :: AskedOverdue(max, run, p, n)
  {
    hide Exec, CallsOf;
    if |CallsOf(After(max, run), p)| > max { SomeStepBeyond(max, run, p); }
    if n: nat :| AskedOverdue(max, run, p, n) {
      OverdueCount(max, run[..n], p);
      StepCounted(max, run, p, n);
      CallsPersist(max, run, n + 1, p);
    }
  }

  // ---------------------------------------------------------------- it does happen

  /** With MAX = 1: a confirm fails softly and dies before its second commit, which leaves the
      payment overdue with a row that is no verdict; the next confirm makes call number two. */
  lemma MissedCommitCallsAgain(customer: string, key: string)
    ensures var first := [CreateRequest(customer, 100.0, None, key), ConfirmRequest(0, None, 0.9, true)];
      var s, t := After(1, first), After(1, first + [ConfirmRequest(0, None, 0.9, false)]);
      && 0 in s.payments && Overdue(s.payments[0], 1) && SummaryOf(s.payments[0]) != Verdict(CallsOf(s, 0), 1)
      && 0 in t.payments && |CallsOf(t, 0)| == 2 && t.payments[0].failureReason == Some(MaxRetriesExceeded)
  {
    var create := [CreateRequest(customer, 100.0, None, key)];
    var a, b := ConfirmRequest(0, None, 0.9, true), ConfirmRequest(0, None, 0.9, false);
    FirstCreation(1, customer, key);
    OneMore(1, create, a);
    assert create + [a] == [CreateRequest(customer, 100.0, None, key), a];
    OneMore(1, create + [a], b);
    hide Exec;
  }

  const BETWEEN := RunPayment(0.9, FaultBetween)

  /** With MAX = 1, a job fails softly and dies before its second commit, and is queued again. */
  lemma DiesBetween(s: State, p: nat)
    requires Scenarios.Running(s.q, 1, ProcessPayment(p)) && s.max == 1 && CallsOf(s, p) == []
    requires p in s.payments && s.payments[p].status == PaymentStatus.Pending && s.payments[p].retryCount == 0
    requires s.q.jobs[1].attempts + 1 < s.q.jobs[1].maxAttempts
    ensures var t := Next(Next(s, BETWEEN), FinishJob);
      && t.max == 1 && t.clock == s.clock && Lined(t, 1, ProcessPayment(p)) && |CallsOf(t, p)| == 1
      && p in t.payments && Overdue(t.payments[p], 1)
  {}

  lemma CallsAgain(s: State, j: nat, p: nat)
    requires Scenarios.Running(s.q, j, ProcessPayment(p)) && Unsettled(s, p)
    ensures |CallsOf(Next(s, SOFT), p)| == |CallsOf(s, p)| + 1
  {
    hide Settled;
  }

  /** No confirm over HTTP is needed: the payment's own first job makes call number two. */
  lemma FirstJobCallsAgain(customer: string, key: string)
    ensures var s := After(1, [CreateRequest(customer, 100.0, None, key)] + PICK + [BETWEEN] + [FinishJob]
                              + PICK + [SOFT]);
      |CallsOf(s, 0)| == 2
  {
    var create := [CreateRequest(customer, 100.0, None, key)];
    var again := create + PICK + [BETWEEN] + [FinishJob];
    FirstCreation(1, customer, key);
    OneMore(1, create + PICK, BETWEEN);
    OneMore(1, create + PICK + [BETWEEN], FinishJob);
    OneMore(1, again + PICK, SOFT);
    hide Exec, Next;
    PickedUp(1, create, 1, ProcessPayment(0));
    DiesBetween(After(1, create + PICK), 0);
    PickedUp(1, again, 1, ProcessPayment(0));
    CallsAgain(After(1, again + PICK), 1, 0);
  }
}
