/** Theorems over every run of the back end. */
module Runs {
  import opened Common
  import opened Payments
  import opened Jobs
  import opened Refunds
  import opened Webhooks
  import opened System
  import opened Invariants
  import opened Preservation
  import opened HandlerSteps
  import opened Growth

  // ---------------------------------------------------------------- the invariant holds in every run

  lemma RequestKeeps(s: State, a: Action)
    requires Inv(s) && (a.CreateRequest? || a.ConfirmRequest? || a.RefundRequest?)
    ensures Inv(Next(s, a))
  {
    hide Rows, Flow;
    match a
    case CreateRequest(customer, cents, metadata, key) =>
      if cents > 0.0 && CreateResultOf(s, cents, key).Created? { CreateKeeps(s, customer, cents, metadata, key); }
    case ConfirmRequest(id, metadata, draw, cut) => ConfirmKeeps(s, id, metadata, Classify(draw, cut), Http);
    case RefundRequest(id, cents, key) =>
      if (cents.Some? ==> cents.value > 0.0) && InitiateResultOf(s, id, cents, key).Initiated? {
        InitiateKeeps(s, id, cents, key);
      }
    case _ =>
  }

  lemma RegisterKeeps(s: State, client: string)
    requires Inv(s)
    ensures Inv(s.(next := s.next + 1, endpoints := s.endpoints[s.next := Endpoint(client, true)]))
  {
    hide Rows, QueueInv, LinkOk, BackoffOk;
    EndpointsKeep(s, s.(next := s.next + 1, endpoints := s.endpoints[s.next := Endpoint(client, true)]));
  }

  lemma DeactivateKeeps(s: State, e: nat)
    requires Inv(s) && e in s.endpoints
    ensures Inv(s.(endpoints := s.endpoints[e := s.endpoints[e].(active := false)]))
  {
    hide Rows, QueueInv, LinkOk, BackoffOk;
    EndpointsKeep(s, s.(endpoints := s.endpoints[e := s.endpoints[e].(active := false)]));
  }

  lemma EndpointKeeps(s: State, a: Action)
    requires Inv(s) && (a.RegisterEndpoint? || a.DeactivateEndpoint? || a.Tick?)
    ensures Inv(Next(s, a))
  {
    hide Rows, Flow;
    match a
    case Tick(to) => if to >= s.clock { TickKeeps(s, to); }
    case RegisterEndpoint(client) => RegisterKeeps(s, client);
    case DeactivateEndpoint(e) => if e in s.endpoints { DeactivateKeeps(s, e); }
  }

  lemma QueueKeeps(s: State, a: Action)
    requires Inv(s) && (a.OperatorRetry? || a.PollJobs? || a.ResumeTail?)
    ensures Inv(Next(s, a))
  {
    hide Rows, Flow;
    match a
    case OperatorRetry(j) => if j in s.q.jobs && s.q.jobs[j].status == JobStatus.Dead { ResetKeeps(s, j); }
    case PollJobs(ids) => if Selection(s.q, s.clock, ids) { PollKeeps(s, ids); }
    case ResumeTail(i) => if i < |s.q.tails| { ResumeKeeps(s, i); }
    case _ =>
  }

  lemma WorkerKeeps(s: State, a: Action)
    requires Inv(s) && (a.RestartProcess? || a.TakeJob? || a.FinishJob?)
    ensures Inv(Next(s, a))
  {
    hide Rows, Flow;
    match a
    case RestartProcess => RestartKeeps(s);
    case TakeJob => TakeKeeps(s);
    case FinishJob => FinishKeeps(s);
    case _ =>
  }

  lemma PaymentRunKeeps(s: State, draw: real, fault: Fault)
    requires Inv(s)
    ensures Inv(Next(s, RunPayment(draw, fault)))
  {
    hide Rows, Flow, PaymentStep;
    var t := PaymentStep(s, draw, fault);
    assert Inv(t) by { PaymentStepKeeps(s, draw, fault); }
  }

  lemma SoftRunKeeps(s: State, a: Action)
    requires Inv(s) && a.RunSoft?
    ensures Inv(Next(s, a))
  {
    hide Rows, Flow, SoftStep;
    if Jitter(a.jitter) { SoftStepKeeps(s, a.jitter, a.fault); }
  }

  lemma RefundRunKeeps(s: State, draw: real, ids: seq<nat>, cut: Cut)
    requires Inv(s)
    ensures Inv(Next(s, RunRefund(draw, ids, cut)))
  {
    hide Rows, Flow, RefundStep;
    var t := RefundStep(s, draw, ids, cut);
    assert Inv(t) by { RefundStepKeeps(s, draw, ids, cut); }
  }

  lemma DeliveryRunKeeps(s: State, a: Action)
    requires Inv(s) && a.RunDelivery?
    ensures Inv(Next(s, a))
  {
    hide Rows, Flow, DeliverStep;
    if Jitter(a.jitter) && a.elapsed >= 0.0 { DeliverStepKeeps(s, a.ok, a.elapsed, a.jitter, a.deliveryCut); }
  }

  /** Every step, whoever takes it and however it is cut short, keeps the invariant. */
  lemma NextKeeps(s: State, a: Action)
    requires Inv(s)
    ensures Inv(Next(s, a))
  {
    hide Rows, Flow;
    if a.CreateRequest? || a.ConfirmRequest? || a.RefundRequest? { RequestKeeps(s, a); }
    else if a.RegisterEndpoint? || a.DeactivateEndpoint? || a.Tick? { EndpointKeeps(s, a); }
    else if a.OperatorRetry? || a.PollJobs? || a.ResumeTail? { QueueKeeps(s, a); }
    else if a.RestartProcess? || a.TakeJob? || a.FinishJob? { WorkerKeeps(s, a); }
    else if a.RunPayment? { PaymentRunKeeps(s, a.draw, a.fault); }
    else if a.RunSoft? { SoftRunKeeps(s, a); }
    else if a.RunRefund? { RefundRunKeeps(s, a.draw, a.ids, a.cut); }
    else { DeliveryRunKeeps(s, a); }
  }

  lemma {:induction false} ExecKeeps(s: State, run: seq<Action>)
    requires Inv(s)
    ensures Inv(Exec(s, run))
    decreases |run|
  {
    if run != [] {
      ExecKeeps(s, run[..|run| - 1]);
      NextKeeps(Exec(s, run[..|run| - 1]), run[|run| - 1]);
    }
  }

  /** A state some run of requests, jobs, faults and operator actions leads to from an empty database. */
  ghost function After(max: nat, run: seq<Action>): State {
    Exec(Init(max), run)
  }

  lemma Reached(max: nat, run: seq<Action>)
    requires max >= 1
    ensures Inv(After(max, run))
  {
    InitInv(max);
    ExecKeeps(Init(max), run);
  }

  lemma {:induction false} ExecGrows(s: State, run: seq<Action>)
    requires Inv(s)
    ensures TablesGrow(s, Exec(s, run))
    decreases |run|
  {
    if run == [] {
      NothingGrows(s, s);
    } else {
      var t := Exec(s, run[..|run| - 1]);
      var u := Exec(s, run);
      assert Keyed(t) by { ExecKeeps(s, run[..|run| - 1]); }
      ExecGrows(s, run[..|run| - 1]);
      NextGrows(t, run[|run| - 1]);
      GrowthComposes(s, t, u);
    }
  }

  lemma {:induction false} ExecSplit(s: State, first: seq<Action>, more: seq<Action>)
    ensures Exec(s, first + more) == Exec(Exec(s, first), more)
    decreases |more|
  {
    if more == [] {
      assert first + more == first;
    } else {
      var n := |more| - 1;
      assert (first + more)[..|first + more| - 1] == first + more[..n];
      ExecSplit(s, first, more[..n]);
    }
  }

  lemma OneStep(s: State, a: Action)
    ensures Exec(s, [a]) == Next(s, a)
  {
    assert [a][..0] == [] && Exec(s, []) == s;
  }

  lemma OneMore(max: nat, run: seq<Action>, a: Action)
    ensures After(max, run + [a]) == Next(After(max, run), a)
  {
    assert (run + [a])[..|run|] == run;
  }

  lemma KeyedState(s: State)
    requires Inv(s)
    ensures Keyed(s) && s.next !in s.calls
  {
    hide QueueInv, LinkOk, BackoffOk, RefundsOk;
  }
}
