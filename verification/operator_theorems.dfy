/** `retry_dead_job` never looks at the status of the job it resets. When that is safe, exactly. */
module OperatorTheorems {
  import opened Common
  import opened Payments
  import opened Jobs
  import opened Refunds
  import opened Webhooks
  import opened System
  import opened Invariants
  import opened Runs
  import Scenarios

  /** The job stands for an event whose retry time has not come yet. */
  predicate EarlyDelivery(s: State, t: Target) {
    t.EventTarget? && t.id in s.events && s.events[t.id].nextRetryAt.Some? && s.events[t.id].nextRetryAt.value > s.clock
  }

  /** The job stands for a payment, and the backoff after the latest call of another job is not over. */
  predicate EarlyCall(s: State, j: nat, t: Target) {
    t.PaymentTarget? && t.id in s.calls
    && var calls := s.calls[t.id]; var i := LastByJob(calls);
       i >= 0 && calls[i].source != Worker(j) && s.clock < calls[i].at + Pow2(i + 1)
  }

  /** The job is done, but its target is worked for by another job, or is an event that exists. */
  ghost predicate Redone(s: State, j: nat, t: Target)
    requires j in s.q.jobs
  {
    s.q.jobs[j].status == JobStatus.Completed && (Carried(s.q, t) || (t.EventTarget? && t.id in s.events))
  }

  /** The job is not running, is not done over, and does not come early. */
  ghost predicate MayRetry(s: State, j: nat)
    requires j in s.q.jobs
  {
    var t := TargetOf(s.q.jobs[j].task);
    && s.q.jobs[j].status != Running
    && !Redone(s, j, t)
    && !(s.q.jobs[j].status != JobStatus.Completed && EarlyDelivery(s, t))
    && !EarlyCall(s, j, t)
  }

  // ---------------------------------------------------------------- what a reset does to the rules

  ghost predicate NotRunning(q: Queue, j: nat) {
    && j in q.jobs && q.jobs[j].status != Running && q.jobs[j].status != JobStatus.Failed
    && !(q.worker.Busy? && q.worker.job == j)
  }

  lemma ResetCarries(q: Queue, now: real, j: nat, k: nat, t: Target)
    requires NotRunning(q, j)
    ensures Carries(Reset(q, now, j), k, t) <==> if k == j then TargetOf(q.jobs[j].task) == t else Carries(q, k, t)
  {}

  lemma ResetRow(q: Queue, now: real, j: nat)
    requires j in q.jobs
    ensures var r := Reset(q, now, j);
      && r.jobs == q.jobs[j := q.jobs[j].(status := JobStatus.Queued, lastError := None, attempts := 0, runAt := now)]
      && r.worker == q.worker
  {}

  /** What was open and carried is still carried, and what was due in time is still in time. */
  lemma LinkSurvives(s: State, s': State, j: nat)
    requires LinkOk(s) && j in s.q.jobs && s' == s.(q := s'.q)
    requires forall k, u :: Carries(s.q, k, u) ==> Carries(s'.q, k, u)
    requires forall k, u :: Carries(s'.q, k, u) && k != j ==> Carries(s.q, k, u)
    requires forall k, l, u :: Carries(s'.q, k, u) && Carries(s'.q, l, u) ==> k == l
    requires s'.q.jobs.Keys == s.q.jobs.Keys && forall k :: k in s.q.jobs && k != j ==> s'.q.jobs[k] == s.q.jobs[k]
    requires forall e :: Carries(s'.q, j, EventTarget(e)) && e in s.events ==> DeliveryOk(s', j, e)
    ensures LinkOk(s')
  {
    forall u | IsOpen(s', u) ensures Carried(s'.q, u) {
      assert IsOpen(s, u);
      var k :| Carries(s.q, k, u);
      assert Carries(s'.q, k, u);
    }
    forall k, e | Carries(s'.q, k, EventTarget(e)) && e in s'.events ensures DeliveryOk(s', k, e) {
      if k != j { assert DeliveryOk(s, k, e); }
    }
  }

  lemma ResetCompleted(s: State, j: nat)
    requires LinkOk(s) && NotRunning(s.q, j) && s.q.jobs[j].status == JobStatus.Completed
    ensures LinkOk(s.(q := Reset(s.q, s.clock, j))) <==> !Redone(s, j, TargetOf(s.q.jobs[j].task))
  {
    hide Reset;
    var t, r := TargetOf(s.q.jobs[j].task), Reset(s.q, s.clock, j);
    var s' := s.(q := r);
    forall k, u ensures Carries(r, k, u) <==> if k == j then t == u else Carries(s.q, k, u) {
      ResetCarries(s.q, s.clock, j, k, u);
    }
    ResetRow(s.q, s.clock, j);
    assert Carries(r, j, t);
    if Carried(s.q, t) {
      var k :| Carries(s.q, k, t);
      assert Carries(r, k, t) && k != j;
    } else if t.EventTarget? && t.id in s.events {
      assert !IsOpen(s, t);
      assert !DeliveryOk(s', j, t.id);
    } else {
      LinkSurvives(s, s', j);
    }
  }

  lemma ResetLive(s: State, j: nat)
    requires LinkOk(s) && NotRunning(s.q, j) && s.q.jobs[j].status != JobStatus.Completed
    ensures LinkOk(s.(q := Reset(s.q, s.clock, j))) <==> !EarlyDelivery(s, TargetOf(s.q.jobs[j].task))
  {
    hide Reset;
    var t, r := TargetOf(s.q.jobs[j].task), Reset(s.q, s.clock, j);
    var s' := s.(q := r);
    ResetRow(s.q, s.clock, j);
    forall k, u ensures Carries(r, k, u) <==> Carries(s.q, k, u) { ResetCarries(s.q, s.clock, j, k, u); }
    assert Carries(r, j, t);
    if EarlyDelivery(s, t) {
      assert !DeliveryOk(s', j, t.id);
    } else {
      assert t.EventTarget? && t.id in s.events ==> DeliveryOk(s, j, t.id);
      LinkSurvives(s, s', j);
    }
  }

  lemma ResetBackoff(s: State, j: nat)
    requires BackoffOk(s) && NotRunning(s.q, j)
    ensures BackoffOk(s.(q := Reset(s.q, s.clock, j))) <==> !EarlyCall(s, j, TargetOf(s.q.jobs[j].task))
  {
    hide Reset, Spaced, Timed;
    var t, r := TargetOf(s.q.jobs[j].task), Reset(s.q, s.clock, j);
    var s' := s.(q := r);
    ResetRow(s.q, s.clock, j);
    forall k, u ensures Carries(r, k, u) <==> if k == j then t == u else Carries(s.q, k, u) {
      ResetCarries(s.q, s.clock, j, k, u);
    }
    assert Carries(r, j, t);
    assert SoftTask(s') == SoftTask(s);
    if EarlyCall(s, j, t) {
      assert !Waits(s.calls[t.id], j, s.clock);
    } else {
      forall k, p | Carries(r, k, PaymentTarget(p)) && p in s.calls ensures Waits(s.calls[p], k, r.jobs[k].runAt) {
        if k != j { assert Carries(s.q, k, PaymentTarget(p)) && Waits(s.calls[p], k, s.q.jobs[k].runAt); }
      }
    }
  }

  lemma ResetIds(s: State, j: nat)
    requires IdsOk(s) && j in s.q.jobs
    ensures IdsOk(s.(q := Reset(s.q, s.clock, j)))
  {
    var s' := s.(q := Reset(s.q, s.clock, j));
    forall k | k in s'.q.jobs ensures Known(s', s'.q.jobs[k].task) { assert Known(s, s.q.jobs[k].task); }
  }

  lemma IdleOrElse(s: State, j: nat)
    requires QueueInv(s.q, s.clock) && j in s.q.jobs
    ensures s.q.jobs[j].status != Running <==> NotRunning(s.q, j)
    ensures s.q.jobs[j].status != JobStatus.Queued ==> s.q.jobs[j].runAt <= s.clock
  {
    assert JobOk(s.q, s.clock, j);
  }

  lemma ResetFlowIff(s: State, j: nat)
    requires Flow(s) && j in s.q.jobs
    ensures Flow(s.(q := Reset(s.q, s.clock, j))) <==> MayRetry(s, j)
  {
    IdleOrElse(s, j);
    ResetKeepsQueueIff(s.q, s.clock, j);
    ResetIds(s, j);
    hide Reset, IdsOk, QueueInv, NotRunning, LinkOk, BackoffOk, EarlyCall, EarlyDelivery, Redone;
    if s.q.jobs[j].status != Running {
      ResetBackoff(s, j);
      if s.q.jobs[j].status == JobStatus.Completed {
        ResetCompleted(s, j);
      } else {
        ResetLive(s, j);
        assert !Redone(s, j, TargetOf(s.q.jobs[j].task)) by { OnlyDoneIsRedone(s, j); }
      }
    }
  }

  lemma OnlyDoneIsRedone(s: State, j: nat)
    requires j in s.q.jobs && s.q.jobs[j].status != JobStatus.Completed
    ensures !Redone(s, j, TargetOf(s.q.jobs[j].task))
  {}

  /** A dead job has waited long enough. */
  lemma DeadIsDue(s: State, j: nat)
    requires LinkOk(s) && BackoffOk(s) && NotRunning(s.q, j)
    requires s.q.jobs[j].status == JobStatus.Dead && s.q.jobs[j].runAt <= s.clock
    ensures MayRetry(s, j)
  {
    hide SoftOk, Spaced, Timed;
    var t := TargetOf(s.q.jobs[j].task);
    assert Carries(s.q, j, t);
    if t.EventTarget? && t.id in s.events { assert DeliveryOk(s, j, t.id); }
    if t.PaymentTarget? && t.id in s.calls { assert Waits(s.calls[t.id], j, s.q.jobs[j].runAt); }
  }

  /** In every run, beside a handler in flight or not, resetting a job keeps the invariant if and only
      if the job is not running, is not done over, and does not come early; a dead job never does. */
  lemma RetryIsSafeIff(max: nat, run: seq<Action>, j: nat)
    requires max >= 1 && j in After(max, run).q.jobs
    ensures var s := After(max, run);
      && (Inv(s.(q := Reset(s.q, s.clock, j))) <==> MayRetry(s, j))
      && (s.q.jobs[j].status == JobStatus.Dead ==> MayRetry(s, j))
  {
    var s := After(max, run);
    Reached(max, run);
    IdleOrElse(s, j);
    hide Rows, IdsOk, QueueInv, Reset, MayRetry, NotRunning;
    ResetFlowIff(s, j);
    if s.q.jobs[j].status == JobStatus.Dead { DeadIsDue(s, j); }
  }

  /** For instance, the retry of the first payment, reset while it waits in the job table: it is
      neither running nor done, and yet the reset lets it call the processor too early. */
  lemma EarlyRetryIsUnsafe(customer: string, key: string)
    ensures var s := After(3, [CreateRequest(customer, 100.0, None, key)] + Scenarios.PICK + [Scenarios.SOFT]
                              + [RunSoft(0.0, NoFault)] + [FinishJob]);
      && 2 in s.q.jobs && s.q.jobs[2].status == JobStatus.Queued
      && EarlyCall(s, 2, TargetOf(s.q.jobs[2].task)) && !Inv(s.(q := Reset(s.q, s.clock, 2)))
  {
    var run := [CreateRequest(customer, 100.0, None, key)] + Scenarios.PICK + [Scenarios.SOFT]
               + [RunSoft(0.0, NoFault)] + [FinishJob];
    Scenarios.RetryWaits(customer, key);
    var s := After(3, run);
    assert CallsOf(s, 0) == s.calls[0];
    hide Exec, Inv, Reset;
    RetryIsSafeIff(3, run, 2);
  }
}
