/** Delivery jobs left over from refund completions that were rolled back: an aborted fan-out leaves
    them, their events never come to exist, and their handlers touch nothing but their own row. */
module Leftovers {
  import opened Common
  import opened Payments
  import opened Jobs
  import opened Refunds
  import opened Webhooks
  import opened System
  import opened Invariants
  import opened HandlerSteps
  import opened Growth
  import opened Runs
  import opened RefundTheorems

  /** The id was handed out, and no event with it exists. */
  predicate Unborn(s: State, e: nat) {
    e < s.next && e !in s.events
  }

  // ---------------------------------------------------------------- aborted fan-outs leave jobs without events

  /** What an aborted fan-out adds to the job table: `k` delivery jobs, for ids that name no event. */
  ghost predicate Strays(s: State, t: State, n: nat, k: nat) {
    && t == s.(next := t.next, q := t.q)
    && (forall j :: j in s.q.jobs ==> j in t.q.jobs && t.q.jobs[j] == s.q.jobs[j])
    && (forall j :: j in t.q.jobs && j !in s.q.jobs <==> s.next + n <= j < s.next + n + k)
    && (forall j :: j in t.q.jobs && j !in s.q.jobs ==>
          t.q.jobs[j] == NewJob(DeliverWebhook(j - n), s.clock) && Unborn(t, j - n))
  }

  lemma FanoutStrays(s: State, n: nat, k: nat, phase: Phase)
    requires IdsOk(s) && k <= n
    ensures Strays(s, Enters(FanoutJobs(s, n, k), phase), n, k)
  {
    hide FanoutRows, FanoutTails, Known;
    FanoutShape(s.next, n, k, s.clock);
    var t := Enters(FanoutJobs(s, n, k), phase);
    assert t.q.jobs == s.q.jobs + FanoutRows(s.next, n, k, s.clock);
  }

  lemma CutRun(s: State, id: nat, draw: real, ids: seq<nat>, k: nat)
    requires Current(s) == Some(ProcessRefund(id)) && draw < 0.95 && k <= |ids|
    requires id in s.refunds && s.refunds[id].status == RefundStatus.Pending && s.refunds[id].payment in s.payments
    requires Audience(s, s.payments[s.refunds[id].payment].customer, ids)
    ensures Next(s, RunRefund(draw, ids, CutDuring(k))) == Enters(FanoutJobs(s, |ids|, k), Raised(Aborted))
  {
    hide Audience, Enters, FanoutJobs, Complete;
  }

  /** A refund handler cut after `k` enqueued deliveries has rolled back everything else. */
  lemma AbortLeavesStrays(max: nat, run: seq<Action>, id: nat, draw: real, ids: seq<nat>, k: nat)
    requires max >= 1 && Current(After(max, run)) == Some(ProcessRefund(id)) && draw < 0.95 && k <= |ids|
    requires id in After(max, run).refunds && After(max, run).refunds[id].status == RefundStatus.Pending
    requires After(max, run).refunds[id].payment in After(max, run).payments
    requires Audience(After(max, run), After(max, run).payments[After(max, run).refunds[id].payment].customer, ids)
    ensures Strays(After(max, run), After(max, run + [RunRefund(draw, ids, CutDuring(k))]), |ids|, k)
  {
    var s := After(max, run);
    assert IdsOk(s) by { hide Rows, QueueInv, LinkOk, BackoffOk; Reached(max, run); }
    OneMore(max, run, RunRefund(draw, ids, CutDuring(k)));
    hide Strays, IdsOk, Audience, Exec, Next, Enters, FanoutJobs;
    CutRun(s, id, draw, ids, k);
    FanoutStrays(s, |ids|, k, Raised(Aborted));
  }

  // ---------------------------------------------------------------- ... that never come to exist

  lemma CompleteBirths(s: State, id: nat, ids: seq<nat>, cut: Cut, e: nat)
    requires id in s.refunds && Unborn(s, e)
    ensures e !in CompleteRun(s, id, ids, cut).events
  {
    EventsShape(s.next, id, ids);
    hide Enters, FanoutRows, FanoutTails, FanoutEvents;
    EntersKeepsEvents(Complete(s, id, ids), Leave(cut));
    if cut.CutDuring? && cut.enqueued <= |ids| {
      EntersKeepsEvents(FanoutJobs(s, |ids|, cut.enqueued), Raised(Aborted));
    }
  }

  lemma EntersKeepsEvents(s: State, phase: Phase)
    ensures Enters(s, phase).events == s.events
  {}

  lemma RefundBirths(s: State, draw: real, ids: seq<nat>, cut: Cut, e: nat)
    requires Unborn(s, e)
    ensures e !in RefundStep(s, draw, ids, cut).events
  {
    hide Enters, CompleteRun, Audience;
    match Current(s)
    case Some(ProcessRefund(id)) =>
      EntersKeepsEvents(s, Raised(RowMissing));
      if id in s.refunds { RefundRunBirths(s, id, draw, ids, cut, e); }
    case _ =>
  }

  lemma RefundRunBirths(s: State, id: nat, draw: real, ids: seq<nat>, cut: Cut, e: nat)
    requires Unborn(s, e) && id in s.refunds
    ensures e !in RefundRun(s, id, draw, ids, cut).events
  {
    hide Enters, CompleteRun, Audience;
    EntersKeepsEvents(s, Leave(cut));
    EntersKeepsEvents(s, Raised(InvalidTransition));
    EntersKeepsEvents(s, Raised(Aborted));
    EntersKeepsEvents(Fail(s, id), Leave(cut));
    CompleteBirths(s, id, [], cut, e);
    CompleteBirths(s, id, ids, cut, e);
  }

  /** New events have new ids. */
  lemma NextBirths(s: State, a: Action, e: nat)
    requires Keyed(s) && Unborn(s, e)
    ensures Unborn(Next(s, a), e)
  {
    assert s.next <= Next(s, a).next by { NextGrows(s, a); }
    hide Keyed, Create, Confirm, Initiate, PaymentStep, SoftStep, RefundStep, DeliverStep;
    if a.RunRefund? { RefundBirths(s, a.draw, a.ids, a.cut, e); }
    else if a.RefundRequest? { RequestLeavesReports(s, a); }
    else { hide Next; OthersLeaveReports(s, a); }
  }

  /** An event that was rolled back stays away for the rest of every run. */
  lemma {:induction false} StaysUnborn(max: nat, run: seq<Action>, more: seq<Action>, e: nat)
    requires max >= 1 && Unborn(After(max, run), e)
    ensures Unborn(After(max, run + more), e)
    decreases |more|
  {
    hide Next, Unborn;
    if more == [] {
      assert run + more == run;
    } else {
      var n := |more| - 1;
      StaysUnborn(max, run, more[..n], e);
      assert Keyed(After(max, run + more[..n])) by { hide QueueInv, LinkOk, BackoffOk; Reached(max, run + more[..n]); }
      assert (run + more)[..|run + more| - 1] == run + more[..n];
      NextBirths(After(max, run + more[..n]), more[n], e);
    }
  }

  // ---------------------------------------------------------------- ... and whose jobs do nothing

  /** The steps a handler in flight, and the worker after it, may take. */
  predicate HandlerAction(a: Action) {
    a.RunPayment? || a.RunSoft? || a.RunRefund? || a.RunDelivery? || a.FinishJob?
  }

  /** Nothing has changed but the row of job `j`, the worker, and perhaps one more put of the job's id. */
  ghost predicate OwnRowOnly(s: State, t: State, j: nat) {
    && t == s.(q := t.q) && t.q.jobs.Keys == s.q.jobs.Keys
    && (forall k :: k in s.q.jobs && k != j ==> t.q.jobs[k] == s.q.jobs[k])
    && t.q.dispatch == s.q.dispatch && t.q.starts == s.q.starts
    && (t.q.tails == s.q.tails || t.q.tails == s.q.tails + [Tail(j, None)])
  }

  /** The handler in flight works for an event that does not exist. */
  predicate OnStray(s: State) {
    && s.q.worker.Busy? && s.q.worker.job in s.q.jobs && s.q.jobs[s.q.worker.job].task.DeliverWebhook?
    && s.q.jobs[s.q.worker.job].task.event !in s.events
  }

  lemma OwnPhase(s: State, phase: Phase)
    requires OnStray(s)
    ensures OwnRowOnly(s, Enters(s, phase), s.q.worker.job) && OwnRowOnly(s, s, s.q.worker.job)
  {}

  lemma StrayHandler(s: State, a: Action)
    requires OnStray(s) && (a.RunPayment? || a.RunSoft? || a.RunRefund? || a.RunDelivery?)
    ensures Next(s, a) == s || Next(s, a) == Enters(s, Returned) || Next(s, a) == Enters(s, Raised(Aborted))
  {
    hide Confirm, MarkExhausted, ScheduleRetry, RefundRun, DeliverRun, Enters;
    match a
    case RunPayment(_, _) =>
    case RunSoft(_, _) =>
    case RunRefund(_, _, _) =>
    case RunDelivery(_, _, _, _) =>
  }

  lemma StrayFinish(s: State)
    requires OnStray(s)
    ensures OwnRowOnly(s, s.(q := Finish(s.q, s.clock)), s.q.worker.job)
  {
    match s.q.worker.phase
    case Returned =>
    case Raised(_) =>
    case _ =>
  }

  lemma StrayStep(s: State, a: Action)
    requires OnStray(s) && HandlerAction(a)
    ensures OwnRowOnly(s, Next(s, a), s.q.worker.job)
  {
    hide OwnRowOnly, Enters, Finish, OnStray, Confirm, Create, Initiate;
    OwnPhase(s, Returned);
    OwnPhase(s, Raised(Aborted));
    if a.FinishJob? { StrayFinish(s); } else { hide Next; StrayHandler(s, a); }
  }

  /** In every run, once an event's id has been rolled back, every step of a handler of one of its
      delivery jobs, at any later time, changes that job's own row and nothing else. */
  lemma LeftoversDoNothing(max: nat, run: seq<Action>, more: seq<Action>, e: nat, a: Action)
    requires max >= 1 && Unborn(After(max, run), e) && HandlerAction(a)
    ensures var s := After(max, run + more); var w := s.q.worker;
      w.Busy? && w.job in s.q.jobs && s.q.jobs[w.job].task == DeliverWebhook(e) ==>
        OwnRowOnly(s, After(max, run + more + [a]), w.job)
  {
    hide OwnRowOnly, Exec, Next;
    StaysUnborn(max, run, more, e);
    OneMore(max, run + more, a);
    var s := After(max, run + more);
    if s.q.worker.Busy? && s.q.worker.job in s.q.jobs && s.q.jobs[s.q.worker.job].task == DeliverWebhook(e) {
      StrayStep(s, a);
    }
  }
}
