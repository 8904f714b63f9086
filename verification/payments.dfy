/** Payment rows, the guarded state machine, one processor attempt, and the outcome the whole
    asynchronous chain must reach (pulsepay/payments). */
module Payments {
  import opened Common

  datatype PaymentStatus = Pending | Processing | Success | Failed

  datatype FailureClass = Soft | Hard

  /** The fixed texts that rows and their histories carry. */
  datatype Reason =
    | PaymentCreated | ProcessorStarted | ProcessorAuthorized | ProcessorHardFailure
    | MaxRetriesExceeded | TemporaryUpstreamFailure | ProcessorDeclined

  datatype Entry = Entry(state: PaymentStatus, at: real, reason: Reason)

  /** A committed row of the payments table; the amount is in cents. */
  datatype Payment = Payment(
    customer: string, amount: int, status: PaymentStatus, failureReason: Option<Reason>,
    failureClass: Option<FailureClass>, retryCount: nat, key: string, metadata: Option<string>,
    history: seq<Entry>, confirmedAt: Option<real>)

  // ---------------------------------------------------------------- the state machine

  predicate Allowed(current: PaymentStatus, target: PaymentStatus) {
    match current
    case Pending => target == Processing
    case Processing => target == Success || target == Failed
    case _ => false
  }

  predicate Terminal(status: PaymentStatus) {
    status == Success || status == Failed
  }

  function Moved(p: Payment, target: PaymentStatus, reason: Reason, now: real): Payment {
    p.(status := target, history := p.history + [Entry(target, now, reason)])
  }

  function NewPayment(customer: string, amount: int, key: string, metadata: Option<string>, now: real): Payment {
    Payment(customer, amount, Pending, None, None, 0, key, metadata, [Entry(Pending, now, PaymentCreated)], None)
  }

  // ---------------------------------------------------------------- one processor attempt

  /** What came of an attempt. A soft failure is committed before the retry ceiling is looked at,
      and at the ceiling the payment is failed by a second commit; `cut` says that the caller was
      cut short between the two. Below the ceiling there is no second commit to miss. */
  datatype Outcome = Authorized | SoftFailure(cut: bool) | Declined

  /** The bands of the simulated processor over a draw from [0, 1). */
  function Classify(draw: real, cut: bool): Outcome {
    if draw < 0.85 then Authorized else if draw < 0.95 then SoftFailure(cut) else Declined
  }

  /** The row once an attempt has begun and been counted, before the processor answers. */
  function Attempted(p: Payment, metadata: Option<string>, now: real): Payment {
    var p1 := if p.status == Pending then Moved(p, Processing, ProcessorStarted, now) else p;
    var p2 := if metadata.Some? then p1.(metadata := metadata) else p1;
    p2.(retryCount := p2.retryCount + 1)
  }

  /** The row after `mark_payment_failed_max_retries`. */
  function Exhausted(p: Payment, now: real): Payment {
    var p1 := if p.status == Pending then Moved(p, Processing, ProcessorStarted, now) else p;
    Moved(p1, Failed, MaxRetriesExceeded, now).(failureClass := Some(Hard), failureReason := Some(MaxRetriesExceeded))
  }

  /** The row once the processor has answered an attempt. */
  function Answered(q: Payment, outcome: Outcome, max: nat, now: real): Payment {
    match outcome
    case Authorized =>
      Moved(q, Success, ProcessorAuthorized, now).(failureReason := None, failureClass := None,
          confirmedAt := Some(now))
    case SoftFailure(cut) =>
      var soft := q.(failureClass := Some(Soft), failureReason := Some(TemporaryUpstreamFailure));
      if soft.retryCount >= max && !cut then Exhausted(soft, now) else soft
    case Declined =>
      Moved(q, Failed, ProcessorHardFailure, now).(failureClass := Some(Hard), failureReason := Some(ProcessorDeclined))
  }

  /** The row after one whole `confirm_payment` on a payment that was not terminal. */
  function Settled(p: Payment, outcome: Outcome, max: nat, metadata: Option<string>, now: real): Payment {
    Answered(Attempted(p, metadata, now), outcome, max, now)
  }

  // ---------------------------------------------------------------- what a chain must come to

  datatype Caller = Http | Worker(job: nat)

  /** One call of the processor: its answer, when, and on whose behalf. */
  datatype Call = Call(outcome: Outcome, at: real, source: Caller)

  /** Everything about a payment that its outcomes decide. */
  datatype Summary = Summary(
    status: PaymentStatus, retryCount: nat, failureClass: Option<FailureClass>,
    failureReason: Option<Reason>, trail: seq<(PaymentStatus, Reason)>)

  function Trail(h: seq<Entry>): seq<(PaymentStatus, Reason)> {
    seq(|h|, i requires 0 <= i < |h| => (h[i].state, h[i].reason))
  }

  function SummaryOf(p: Payment): Summary {
    Summary(p.status, p.retryCount, p.failureClass, p.failureReason, Trail(p.history))
  }

  const CREATED := (Pending, PaymentCreated)
  const STARTED := (Processing, ProcessorStarted)

  /** Still processing, after `n` soft failures. */
  function Retrying(n: nat): Summary {
    Summary(Processing, n, Some(Soft), Some(TemporaryUpstreamFailure), [CREATED, STARTED])
  }

  /** The verdict on a chain of answers, read off its last answer and its length. */
  function Verdict(calls: seq<Call>, max: nat): Summary {
    var n := |calls|;
    if n == 0 then Summary(Pending, 0, None, None, [CREATED])
    else match calls[n - 1].outcome
      case Authorized =>
        Summary(Success, n, None, None, [CREATED, STARTED, (Success, ProcessorAuthorized)])
      case Declined =>
        Summary(Failed, n, Some(Hard), Some(ProcessorDeclined), [CREATED, STARTED, (Failed, ProcessorHardFailure)])
      case SoftFailure(_) =>
        if n >= max
        then Summary(Failed, n, Some(Hard), Some(MaxRetriesExceeded), [CREATED, STARTED, (Failed, MaxRetriesExceeded)])
        else Retrying(n)
  }

  /** Call `i` reached the ceiling, and its caller was cut short before it could fail the payment. */
  predicate Missed(calls: seq<Call>, i: nat, max: nat)
    requires i < |calls|
  {
    i + 1 >= max && calls[i].outcome == SoftFailure(true)
  }

  /** Nothing follows a decisive answer, and nothing follows the ceiling unless its commit was missed. */
  ghost predicate Chain(calls: seq<Call>, max: nat) {
    && (forall i :: 0 <= i < |calls| - 1 ==> calls[i].outcome.SoftFailure?)
    && (forall i: nat :: i < |calls| - 1 && i + 1 >= max ==> Missed(calls, i, max))
  }

  /** The payment has used up its attempts and nobody has failed it yet. */
  predicate Overdue(p: Payment, max: nat) {
    p.status == Processing && p.retryCount >= max
  }

  /** The row is the verdict on its chain of processor calls, and on nothing else, unless the commit
      of that verdict was missed and is still to be made up for. */
  ghost predicate Follows(p: Payment, calls: seq<Call>, max: nat) {
    && Chain(calls, max)
    && (if Overdue(p, max)
        then calls != [] && Missed(calls, |calls| - 1, max) && SummaryOf(p) == Retrying(|calls|)
        else SummaryOf(p) == Verdict(calls, max))
    && p.confirmedAt == (if p.status == Success && calls != [] then Some(calls[|calls| - 1].at) else None)
  }

  lemma TrailSnoc(h: seq<Entry>, e: Entry)
    ensures Trail(h + [e]) == Trail(h) + [(e.state, e.reason)]
  {}

  /** A new row follows the empty chain. */
  lemma NewFollows(customer: string, amount: int, key: string, metadata: Option<string>, now: real, max: nat)
    ensures Follows(NewPayment(customer, amount, key, metadata, now), [], max)
  {
    assert Trail([Entry(Pending, now, PaymentCreated)]) == [CREATED];
  }

  lemma AttemptedTrail(p: Payment, calls: seq<Call>, max: nat, metadata: Option<string>, now: real)
    requires Follows(p, calls, max) && !Terminal(p.status)
    ensures var q := Attempted(p, metadata, now);
      && q.status == Processing && q.retryCount == |calls| + 1 && q.confirmedAt == None
      && Trail(q.history) == [CREATED, STARTED]
    ensures calls != [] ==> calls[|calls| - 1].outcome.SoftFailure?
    ensures calls != [] && |calls| >= max ==> Missed(calls, |calls| - 1, max)
  {
    TrailSnoc(p.history, Entry(Processing, now, ProcessorStarted));
  }

  lemma ChainSnoc(calls: seq<Call>, max: nat, c: Call)
    requires Chain(calls, max)
    requires calls != [] ==> calls[|calls| - 1].outcome.SoftFailure?
    requires calls != [] && |calls| >= max ==> Missed(calls, |calls| - 1, max)
    ensures Chain(calls + [c], max)
  {
    var longer := calls + [c];
    forall i: nat | i < |longer| - 1 && i + 1 >= max ensures Missed(longer, i, max) {
      assert longer[i] == calls[i] && Missed(calls, i, max);
    }
  }

  /** What an answer makes of a row whose attempt has been counted. */
  lemma AnsweredSummary(q: Payment, calls: seq<Call>, max: nat, c: Call)
    requires max >= 1 && q.status == Processing && q.retryCount == |calls| + 1 && Trail(q.history) == [CREATED, STARTED]
    ensures var p := Answered(q, c.outcome, max, c.at); var longer := calls + [c];
      if Overdue(p, max) then Missed(longer, |calls|, max) && SummaryOf(p) == Retrying(|longer|)
      else SummaryOf(p) == Verdict(longer, max)
  {
    var longer := calls + [c];
    assert longer[|calls|] == c;
    TrailSnoc(q.history, Entry(Success, c.at, ProcessorAuthorized));
    TrailSnoc(q.history, Entry(Failed, c.at, ProcessorHardFailure));
    TrailSnoc(q.history, Entry(Failed, c.at, MaxRetriesExceeded));
    match c.outcome
    case Authorized =>
    case Declined =>
    case SoftFailure(cut) =>
  }

  /** One more processor call takes the row from the verdict on the chain so far to the verdict
      on the longer chain, or to the ceiling that nobody has acted upon yet. */
  lemma SettledFollows(p: Payment, calls: seq<Call>, max: nat, metadata: Option<string>, c: Call)
    requires max >= 1 && Follows(p, calls, max) && !Terminal(p.status)
    ensures Follows(Settled(p, c.outcome, max, metadata, c.at), calls + [c], max)
  {
    AttemptedTrail(p, calls, max, metadata, c.at);
    ChainSnoc(calls, max, c);
    AnsweredSummary(Attempted(p, metadata, c.at), calls, max, c);
    ConfirmedWhen(Attempted(p, metadata, c.at), c, max);
    hide Chain, Attempted, Answered, Verdict, SummaryOf, Overdue, Missed;
    assert (calls + [c])[|calls + [c]| - 1] == c;
  }

  lemma ConfirmedWhen(q: Payment, c: Call, max: nat)
    requires q.status == Processing && q.confirmedAt == None
    ensures var p := Answered(q, c.outcome, max, c.at);
      p.confirmedAt == if p.status == Success then Some(c.at) else None
  {}

  /** Whoever finds a payment at the ceiling makes up for the missed commit. */
  lemma ExhaustedFollows(p: Payment, calls: seq<Call>, max: nat, now: real)
    requires max >= 1 && Follows(p, calls, max) && !Terminal(p.status) && p.retryCount >= max
    ensures Follows(Exhausted(p, now), calls, max)
  {
    TrailSnoc(p.history, Entry(Failed, now, MaxRetriesExceeded));
  }

  ghost predicate Path(trail: seq<(PaymentStatus, Reason)>) {
    && 1 <= |trail| <= 3 && trail[0].0 == Pending
    && forall i :: 0 <= i < |trail| - 1 ==> Allowed(trail[i].0, trail[i + 1].0)
  }

  /** What a reader of a single row may rely on. */
  lemma RowShape(p: Payment, calls: seq<Call>, max: nat)
    requires max >= 1 && Follows(p, calls, max)
    ensures Path(Trail(p.history)) && p.history != [] && p.history[|p.history| - 1].state == p.status
    ensures p.confirmedAt.Some? <==> p.status == Success
    ensures p.status == Processing ==> p.failureClass == Some(Soft) && p.retryCount >= 1
    ensures p.status == Failed ==> p.failureClass == Some(Hard)
    ensures p.retryCount == |calls|
    ensures p.failureReason == Some(MaxRetriesExceeded) <==>
      |calls| >= max && (forall i :: 0 <= i < |calls| ==> calls[i].outcome.SoftFailure?) && !Overdue(p, max)
  {
    var t := Trail(p.history);
    assert |t| == |p.history| && t[|t| - 1] == (p.history[|t| - 1].state, p.history[|t| - 1].reason);
  }

  /** A call beyond the ceiling follows a missed commit. */
  lemma BeyondIsMissed(calls: seq<Call>, max: nat)
    requires max >= 1 && Chain(calls, max)
    ensures |calls| > max ==> Missed(calls, max - 1, max)
  {}

  /** If no commit is ever missed, the row is the verdict and there are at most `max` calls. */
  lemma NoneMissed(p: Payment, calls: seq<Call>, max: nat)
    requires max >= 1 && Follows(p, calls, max)
    requires forall i: nat :: i < |calls| ==> !Missed(calls, i, max)
    ensures SummaryOf(p) == Verdict(calls, max) && !Overdue(p, max) && |calls| <= max
  {
    BeyondIsMissed(calls, max);
  }

  // ---------------------------------------------------------------- spacing of the attempts

  /** The index of the latest processor call made by a job, or -1. */
  function LastByJob(calls: seq<Call>): (i: int)
    ensures -1 <= i < |calls|
    ensures i >= 0 ==> calls[i].source.Worker?
  {
    if calls == [] then -1
    else if calls[|calls| - 1].source.Worker? then |calls| - 1
    else LastByJob(calls[..|calls| - 1])
  }

  /** `job` may not call the processor before the backoff after the latest call of another job is over. */
  ghost predicate Waits(calls: seq<Call>, job: nat, at: real) {
    var i := LastByJob(calls);
    i >= 0 && calls[i].source != Worker(job) ==> at >= calls[i].at + Pow2(i + 1)
  }

  /** A call made by a job comes no earlier than two to the `i + 1` seconds after call `i`, where
      call `i` is the latest earlier one that another job made. */
  ghost predicate Spaced(calls: seq<Call>) {
    forall k :: 0 <= k < |calls| && calls[k].source.Worker? ==> Waits(calls[..k], calls[k].source.job, calls[k].at)
  }

  ghost predicate Timed(calls: seq<Call>, now: real) {
    && (forall i :: 0 <= i < |calls| ==> calls[i].at <= now)
    && (forall i, k :: 0 <= i <= k < |calls| ==> calls[i].at <= calls[k].at)
  }

  lemma TimedSnoc(calls: seq<Call>, c: Call, now: real)
    requires Timed(calls, now) && c.at == now
    ensures Timed(calls + [c], now)
  {
    var longer := calls + [c];
    forall i, k | 0 <= i <= k < |longer| ensures longer[i].at <= longer[k].at {
      if i < |calls| { assert calls[i].at <= now; }
    }
  }

  lemma LastSnoc(calls: seq<Call>, c: Call)
    ensures LastByJob(calls + [c]) == if c.source.Worker? then |calls| else LastByJob(calls)
  {
    assert (calls + [c])[..|calls|] == calls;
  }

  lemma SpacedSnoc(calls: seq<Call>, c: Call)
    requires Spaced(calls)
    requires c.source.Worker? ==> Waits(calls, c.source.job, c.at)
    ensures Spaced(calls + [c])
  {
    var longer := calls + [c];
    forall k | 0 <= k < |longer| && longer[k].source.Worker?
      ensures Waits(longer[..k], longer[k].source.job, longer[k].at)
    {
      if k < |calls| { assert longer[..k] == calls[..k]; } else { assert longer[..k] == calls; }
    }
  }
}
