/** In every fair endless run on which nobody asks for anything, the back end does come to rest. */
module Fairness {
  import opened Common
  import opened Payments
  import opened Jobs
  import opened Refunds
  import opened Webhooks
  import opened System
  import opened Invariants
  import opened Growth
  import opened Runs
  import opened Frames
  import opened Termination
  import opened Rest

  /** The state after `m` steps. */
  ghost function At(s: State, f: nat -> Action, m: nat): State {
    Exec(s, Prefix(f, m))
  }

  lemma AtNext(s: State, f: nat -> Action, m: nat)
    ensures At(s, f, m + 1) == Next(At(s, f, m), f(m))
  {
    assert Prefix(f, m + 1)[..m] == Prefix(f, m);
  }

  // ---------------------------------------------------------------- fairness

  ghost predicate Late(s: State, f: nat -> Action, m: nat, x: real) {
    At(s, f, m).clock >= x
  }

  /** The poller runs, and gets the answer that the table gives. */
  ghost predicate Polls(s: State, f: nat -> Action, m: nat) {
    f(m).PollJobs? && Selection(At(s, f, m).q, At(s, f, m).clock, f(m).ids)
  }

  /** The coroutine that has waited longest goes on, or none waits. */
  ghost predicate Resumes(s: State, f: nat -> Action, m: nat) {
    f(m) == ResumeTail(0) || At(s, f, m).q.tails == []
  }

  /** The consumer takes an id, or it is busy, or there is none. */
  ghost predicate Takes(s: State, f: nat -> Action, m: nat) {
    f(m) == TakeJob || At(s, f, m).q.worker != Idle || At(s, f, m).q.dispatch == []
  }

  ghost predicate Rests(s: State, f: nat -> Action, m: nat) {
    At(s, f, m).q.worker == Idle
  }

  ghost predicate NeverRestarts(f: nat -> Action, n: nat) {
    forall m: nat :: n <= m ==> f(m) != RestartProcess
  }

  ghost predicate GetsLate(s: State, f: nat -> Action, x: real) { exists m: nat :: Late(s, f, m, x) }

  ghost predicate PollsAgain(s: State, f: nat -> Action, n: nat) { exists m: nat :: n <= m && Polls(s, f, m) }

  ghost predicate ResumesAgain(s: State, f: nat -> Action, n: nat) { exists m: nat :: n <= m && Resumes(s, f, m) }

  ghost predicate TakesAgain(s: State, f: nat -> Action, n: nat) { exists m: nat :: n <= m && Takes(s, f, m) }

  ghost predicate RestsAgain(s: State, f: nat -> Action, n: nat) { exists m: nat :: n <= m && Rests(s, f, m) }

  /** Time goes on, polls recur, suspended coroutines go on, ids are taken, handlers come to their
      ends, and the process is not restarted for ever. */
  ghost predicate Fair(s: State, f: nat -> Action) {
    && (forall x: real :: GetsLate(s, f, x))
    && (forall n: nat :: PollsAgain(s, f, n))
    && (forall n: nat :: ResumesAgain(s, f, n))
    && (forall n: nat :: TakesAgain(s, f, n))
    && (forall n: nat :: RestsAgain(s, f, n))
    && (exists n: nat :: NeverRestarts(f, n))
  }

  // ---------------------------------------------------------------- steps while no handler runs

  /** What steps do to the queue while the worker is idle. */
  ghost predicate IdleMove(s: State, a: Action, t: State) {
    && t.q.worker == Idle && t.q.jobs == s.q.jobs && t.clock >= s.clock
    && (if a.TakeJob? && s.q.dispatch != [] then t.q.dispatch == s.q.dispatch[1..] else s.q.dispatch <= t.q.dispatch)
    && (if a.ResumeTail? && a.i < |s.q.tails| then t.q == Resume(s.q, s.clock, a.i) else s.q.tails <= t.q.tails)
  }

  lemma SameQueueMove(s: State, a: Action, t: State)
    requires s.q.worker == Idle && t.q == s.q && t.clock >= s.clock && !a.TakeJob? && !a.ResumeTail?
    ensures IdleMove(s, a, t)
  {}

  lemma IdleHandlers(s: State, a: Action)
    requires s.q.worker == Idle && (a.RunPayment? || a.RunSoft? || a.RunRefund? || a.RunDelivery?)
    ensures Next(s, a) == s
  {
    assert Current(s) == None && SoftTask(s) == None;
    hide Current, SoftTask, Confirm, MarkExhausted, ScheduleRetry, RefundRun, DeliverRun;
    match a
    case RunPayment(_, _) =>
    case RunSoft(_, _) =>
    case RunRefund(_, _, _) =>
    case RunDelivery(_, _, _, _) =>
  }

  lemma IdleOuter(s: State, a: Action)
    requires OuterAction(a)
    ensures Next(s, a).q == s.q && Next(s, a).clock >= s.clock
  {
    OuterFrame(s, a);
    hide Create, Confirm, Initiate, PaymentStep, SoftStep, RefundStep, DeliverStep;
  }

  lemma ResumeShape(q: Queue, now: real, i: nat)
    requires i < |q.tails|
    ensures var r := Resume(q, now, i); r.worker == q.worker && r.jobs == q.jobs && q.dispatch <= r.dispatch
  {}

  lemma PutSteps(s: State, a: Action)
    requires a.PollJobs? || a.ResumeTail?
    ensures var q, t := s.q, Next(s, a);
      && t.clock == s.clock
      && (a.PollJobs? ==> t.q == q || t.q == Poll(q, a.ids))
      && (a.ResumeTail? ==> t.q == if a.i < |q.tails| then Resume(q, s.clock, a.i) else q)
  {
    QueueFrame(s, a);
    hide Selection, Poll, Resume, Create, Confirm, Initiate, PaymentStep, SoftStep, RefundStep, DeliverStep;
  }

  lemma IdlePut(s: State, a: Action)
    requires s.q.worker == Idle && (a.PollJobs? || a.ResumeTail?)
    ensures IdleMove(s, a, Next(s, a))
  {
    PutSteps(s, a);
    hide Next, Resume, Puts;
    if a.ResumeTail? && a.i < |s.q.tails| { ResumeShape(s.q, s.clock, a.i); }
  }

  lemma IdleWorker(s: State, a: Action)
    requires s.q.worker == Idle && (a.TakeJob? || a.FinishJob?) && !Starts(s, a)
    ensures IdleMove(s, a, Next(s, a))
  {
    QueueFrame(s, a);
    assert Next(s, a).q == if a.TakeJob? then Take(s.q) else Finish(s.q, s.clock);
    hide Next;
  }

  lemma IdleConfirm(s: State, a: Action)
    requires a.ConfirmRequest?
    ensures Next(s, a).q == s.q && Next(s, a).clock == s.clock
  {
    hide Confirm;
    ConfirmFrame(s, a.payment, a.metadata, Classify(a.draw, a.cutShort), Http);
  }

  lemma IdleStep(s: State, a: Action)
    requires s.q.worker == Idle && Unprompted(a) && a != RestartProcess && !Starts(s, a)
    ensures IdleMove(s, a, Next(s, a))
  {
    hide Next, IdleMove, Starts;
    if a.RunPayment? || a.RunSoft? || a.RunRefund? || a.RunDelivery? {
      IdleHandlers(s, a);
      SameQueueMove(s, a, s);
    } else if OuterAction(a) {
      IdleOuter(s, a);
      SameQueueMove(s, a, Next(s, a));
    } else if a.ConfirmRequest? {
      IdleConfirm(s, a);
      SameQueueMove(s, a, Next(s, a));
    } else if a.PollJobs? || a.ResumeTail? {
      IdlePut(s, a);
    } else {
      IdleWorker(s, a);
    }
  }

  // ---------------------------------------------------------------- a queued job is started

  /** Nobody asks for anything, and nothing restarts from step `n` on. */
  ghost predicate Calm(f: nat -> Action, n: nat) {
    (forall i :: Unprompted(f(i))) && NeverRestarts(f, n)
  }

  ghost predicate Waiting(s: State, j: nat) {
    s.q.worker == Idle && j in s.q.jobs && s.q.jobs[j].status == JobStatus.Queued
  }

  lemma OneOn(s: State, f: nat -> Action, n: nat, c: nat, j: nat)
    requires Calm(f, c) && c <= n && Waiting(At(s, f, n), j) && !Starts(At(s, f, n), f(n))
    ensures IdleMove(At(s, f, n), f(n), At(s, f, n + 1)) && Waiting(At(s, f, n + 1), j)
  {
    hide Starts, Next, At, Unprompted;
    AtNext(s, f, n);
    IdleStep(At(s, f, n), f(n));
  }

  /** An id on the dispatch queue comes up, unless another handler starts before it. */
  lemma {:induction false} ComesUp(s: State, f: nat -> Action, n: nat, c: nat, j: nat, k: nat, goal: nat)
    returns (m: nat)
    requires Fair(s, f) && Calm(f, c) && c <= n <= goal && Takes(s, f, goal) && Waiting(At(s, f, n), j)
    requires k < |At(s, f, n).q.dispatch| && At(s, f, n).q.dispatch[k] == j
    ensures n <= m && Starts(At(s, f, m), f(m))
    decreases k, goal - n
  {
    hide Fair, At, Unprompted;
    if Starts(At(s, f, n), f(n)) {
      m := n;
    } else {
      OneOn(s, f, n, c, j);
      if f(n) == TakeJob {
        HeadStarts(At(s, f, n), j);
        var next := NextTake(s, f, n + 1);
        m := ComesUp(s, f, n + 1, c, j, k - 1, next);
      } else {
        m := ComesUp(s, f, n + 1, c, j, k, goal);
      }
    }
  }

  lemma HeadStarts(s: State, j: nat)
    requires Waiting(s, j) && s.q.dispatch != []
    ensures s.q.dispatch[0] == j ==> Starts(s, TakeJob)
  {}

  lemma NextTake(s: State, f: nat -> Action, n: nat) returns (m: nat)
    requires Fair(s, f)
    ensures n <= m && Takes(s, f, m)
  {
    assert TakesAgain(s, f, n);
    m :| n <= m && Takes(s, f, m);
  }

  lemma NextResume(s: State, f: nat -> Action, n: nat) returns (m: nat)
    requires Fair(s, f)
    ensures n <= m && Resumes(s, f, m)
  {
    assert ResumesAgain(s, f, n);
    m :| n <= m && Resumes(s, f, m);
  }

  /** A suspended put goes through, and then the id comes up. */
  lemma {:induction false} GoesThrough(s: State, f: nat -> Action, n: nat, c: nat, j: nat, i: nat, goal: nat)
    returns (m: nat)
    requires Fair(s, f) && Calm(f, c) && c <= n <= goal && Resumes(s, f, goal) && Waiting(At(s, f, n), j)
    requires i < |At(s, f, n).q.tails| && At(s, f, n).q.tails[i] == Tail(j, None)
    ensures n <= m && Starts(At(s, f, m), f(m))
    decreases i, goal - n
  {
    hide Fair, At, Unprompted, Starts;
    if Starts(At(s, f, n), f(n)) {
      m := n;
    } else {
      OneOn(s, f, n, c, j);
      var q, r := At(s, f, n).q, At(s, f, n + 1).q;
      if f(n).ResumeTail? && f(n).i == i {
        var goal' := NextTake(s, f, n + 1);
        assert r.dispatch[|q.dispatch|] == j;
        m := ComesUp(s, f, n + 1, c, j, |q.dispatch|, goal');
      } else if f(n).ResumeTail? && f(n).i < i {
        var goal' := NextResume(s, f, n + 1);
        assert r.tails[i - 1] == q.tails[i];
        m := GoesThrough(s, f, n + 1, c, j, i - 1, goal');
      } else {
        assert r.tails[i] == q.tails[i];
        m := GoesThrough(s, f, n + 1, c, j, i, goal);
      }
    }
  }

  /** The clock never goes back. */
  lemma {:induction false} ClockGoesOn(s: State, f: nat -> Action, n: nat, m: nat)
    requires Inv(s) && n <= m
    ensures At(s, f, n).clock <= At(s, f, m).clock
    decreases m
  {
    hide Rows, Flow, Next;
    if n < m {
      ClockGoesOn(s, f, n, m - 1);
      ExecKeeps(s, Prefix(f, m - 1));
      AtNext(s, f, m - 1);
      StepClock(At(s, f, m - 1), f(m - 1));
    }
  }

  lemma StepClock(s: State, a: Action)
    requires Inv(s)
    ensures s.clock <= Next(s, a).clock
  {
    KeyedState(s);
    hide Inv, Keyed, Next;
    NextGrows(s, a);
  }

  /** Steps go on one after the other until a poll finds the job or a handler starts. */
  lemma {:induction false} FoundByPoll(s: State, f: nat -> Action, n: nat, c: nat, j: nat, goal: nat) returns (m: nat)
    requires Fair(s, f) && Calm(f, c) && c <= n <= goal && Polls(s, f, goal) && Waiting(At(s, f, n), j)
    requires At(s, f, goal).clock >= At(s, f, n).q.jobs[j].runAt
    ensures n <= m && Starts(At(s, f, m), f(m))
    decreases goal - n
  {
    hide Fair, At, Unprompted, Starts, Selection;
    if Starts(At(s, f, n), f(n)) {
      m := n;
    } else {
      OneOn(s, f, n, c, j);
      if n == goal {
        var i := PutByPoll(s, f, n, j);
        var goal' := NextResume(s, f, n + 1);
        m := GoesThrough(s, f, n + 1, c, j, i, goal');
      } else {
        m := FoundByPoll(s, f, n + 1, c, j, goal);
      }
    }
  }

  lemma PutByPoll(s: State, f: nat -> Action, n: nat, j: nat) returns (i: nat)
    requires Polls(s, f, n) && Waiting(At(s, f, n), j) && At(s, f, n).clock >= At(s, f, n).q.jobs[j].runAt
    ensures i < |At(s, f, n + 1).q.tails| && At(s, f, n + 1).q.tails[i] == Tail(j, None)
  {
    AtNext(s, f, n);
    var t, ids := At(s, f, n), f(n).ids;
    assert Due(t.q, t.clock, j);
    var k :| 0 <= k < |ids| && ids[k] == j;
    assert Next(t, f(n)).q == Poll(t.q, ids) by { QueueFrame(t, f(n)); }
    hide Next, At, Selection;
    i := |t.q.tails| + k;
  }

  /** In a fair run a queued job does not wait for ever: its handler starts, or another one before it. */
  lemma QueuedStarts(s: State, f: nat -> Action, n: nat, c: nat, j: nat) returns (m: nat)
    requires Inv(s) && Fair(s, f) && Calm(f, c) && c <= n && Waiting(At(s, f, n), j)
    ensures n <= m && Starts(At(s, f, m), f(m))
  {
    hide Inv, At, Unprompted, Starts, Polls;
    var x := At(s, f, n).q.jobs[j].runAt;
    assert GetsLate(s, f, x);
    var late: nat :| Late(s, f, late, x);
    var from := if late > n then late else n;
    assert PollsAgain(s, f, from);
    var goal: nat :| from <= goal && Polls(s, f, goal);
    ClockGoesOn(s, f, late, goal);
    m := FoundByPoll(s, f, n, c, j, goal);
  }

  // ---------------------------------------------------------------- rest

  /** Every job is completed or dead. */
  ghost predicate AllOver(q: Queue) {
    q.worker == Idle && forall j :: j in q.jobs ==> Over(q.jobs[j].status)
  }

  lemma StaysIdle(s: State, f: nat -> Action, c: nat, n: nat, m: nat)
    requires Calm(f, c) && NoneFrom(s, f, c) && c <= n <= m && AllOver(At(s, f, n).q)
    ensures AllOver(At(s, f, m).q)
    decreases m
  {
    hide At, Unprompted, Starts, Next;
    if n < m {
      StaysIdle(s, f, c, n, m - 1);
      AtNext(s, f, m - 1);
      AtIs(s, f, m - 1);
      IdleStep(At(s, f, m - 1), f(m - 1));
    }
  }

  lemma AtIs(s: State, f: nat -> Action, m: nat)
    ensures At(s, f, m) == Exec(s, Prefix(f, m))
  {}

  /** Once no handler starts any more, and none runs, every job is over. */
  lemma IdleIsOver(s: State, f: nat -> Action, c: nat, n: nat)
    requires Inv(s) && Fair(s, f) && Calm(f, c) && NoneFrom(s, f, c) && c <= n && At(s, f, n).q.worker == Idle
    ensures AllOver(At(s, f, n).q)
  {
    ExecKeeps(s, Prefix(f, n));
    hide Rows, IdsOk, LinkOk, BackoffOk, QueueInv, Fair, Unprompted, Starts;
    var q := At(s, f, n).q;
    forall j | j in q.jobs ensures Over(q.jobs[j].status) {
      RunningIsInFlight(q, At(s, f, n).clock, j);
      if q.jobs[j].status == JobStatus.Queued { var m := QueuedStarts(s, f, n, c, j); }
    }
  }

  /** In a fair endless run on which nobody asks for work or retries a job, from some moment on every
      job is completed or dead, and whatever work is still open has one job, which is dead. */
  lemma FairRunsRest(s: State, f: nat -> Action)
    requires Inv(s) && Fair(s, f) && forall i :: Unprompted(f(i))
    ensures exists n: nat :: RestsFrom(s, f, n)
  {
    hide Inv, Unprompted, At, Starts;
    WorkSettles(s, f);
    var settled: nat :| NoneFrom(s, f, settled);
    var restarted: nat :| NeverRestarts(f, restarted);
    var c := if settled > restarted then settled else restarted;
    assert RestsAgain(s, f, c);
    var n: nat :| c <= n && Rests(s, f, n);
    hide Fair;
    assert Calm(f, c) && NoneFrom(s, f, c);
    IdleIsOver(s, f, c, n);
    forall m: nat | n <= m ensures Resting(At(s, f, m)) {
      StaysIdle(s, f, c, n, m);
      ExecKeeps(s, Prefix(f, m));
      AtIs(s, f, m);
      OverIsResting(At(s, f, m));
    }
    assert RestsFrom(s, f, n);
  }

  ghost predicate Resting(s: State) {
    AllOver(s.q) && forall t :: IsOpen(s, t) ==> OnlyDeadWork(s.q, t)
  }

  ghost predicate RestsFrom(s: State, f: nat -> Action, n: nat) {
    forall m: nat :: n <= m ==> Resting(At(s, f, m))
  }

  lemma OverIsResting(s: State)
    requires Inv(s) && AllOver(s.q)
    ensures Resting(s)
  {
    hide Rows, IdsOk, QueueInv, BackoffOk;
    forall t | IsOpen(s, t) ensures OnlyDeadWork(s.q, t) { assert Carried(s.q, t); }
  }

  // ---------------------------------------------------------------- fair runs exist

  /** First `lead`, then the clock and the poller by turns. */
  function Idling(lead: seq<Action>, base: real): nat -> Action {
    (m: nat) => if m < |lead| then lead[m] else if m % 2 == 0 then Tick(base + m as real) else PollJobs([])
  }

  /** At rest, at the time that so many steps of the clock can have brought. */
  ghost predicate StillAtRest(s: State, base: real, m: nat) {
    AtRest(s) && base <= s.clock <= base + m as real
  }

  lemma PollsNothing(q: Queue)
    ensures Poll(q, []) == q
  {}

  lemma IdlingStep(s: State, lead: seq<Action>, base: real, m: nat)
    requires |lead| <= m && StillAtRest(s, base, m)
    ensures StillAtRest(Next(s, Idling(lead, base)(m)), base, m + 1)
    ensures m % 2 == 0 ==> Next(s, Idling(lead, base)(m)).clock == base + m as real
  {
    var a := Idling(lead, base)(m);
    if m % 2 == 0 {
      assert Next(s, a) == s.(clock := base + m as real);
    } else {
      PutSteps(s, a);
      QueueFrame(s, a);
      PollsNothing(s.q);
      hide Next;
    }
  }

  lemma IdlingLeads(s: State, lead: seq<Action>, base: real)
    ensures At(s, Idling(lead, base), |lead|) == Exec(s, lead)
  {
    assert Prefix(Idling(lead, base), |lead|) == lead;
  }

  lemma {:induction false} IdlingRests(s: State, lead: seq<Action>, base: real, m: nat)
    requires |lead| <= m && StillAtRest(Exec(s, lead), base, |lead|)
    ensures StillAtRest(At(s, Idling(lead, base), m), base, m)
    ensures m > |lead| && (m - 1) % 2 == 0 ==> At(s, Idling(lead, base), m).clock == base + (m - 1) as real
    decreases m
  {
    hide At, StillAtRest, Next;
    if m == |lead| {
      IdlingLeads(s, lead, base);
    } else {
      IdlingRests(s, lead, base, m - 1);
      AtNext(s, Idling(lead, base), m - 1);
      IdlingStep(At(s, Idling(lead, base), m - 1), lead, base, m - 1);
    }
  }

  /** An odd number of steps, not before `n`. */
  function OddFrom(n: nat): nat {
    if n % 2 == 0 then n + 1 else n
  }

  lemma IdlingIsLate(s: State, lead: seq<Action>, base: real, x: real)
    requires StillAtRest(Exec(s, lead), base, |lead|)
    ensures GetsLate(s, Idling(lead, base), x)
  {
    var steps: nat := if x - base > 0.0 then (x - base).Floor + 1 else 0;
    var m := OddFrom(|lead| + 1 + steps + 1);
    IdlingRests(s, lead, base, m);
    hide At, StillAtRest;
    assert Late(s, Idling(lead, base), m, x);
  }

  lemma RestIsFair(s: State, f: nat -> Action, base: real, m: nat)
    requires StillAtRest(At(s, f, m), base, m) && f(m) == PollJobs([])
    ensures Polls(s, f, m) && Resumes(s, f, m) && Takes(s, f, m) && Rests(s, f, m)
  {
    hide At, Selection;
    assert Selection(At(s, f, m).q, At(s, f, m).clock, []);
  }

  lemma IdlingRecurs(s: State, lead: seq<Action>, base: real, n: nat)
    requires StillAtRest(Exec(s, lead), base, |lead|)
    ensures var f := Idling(lead, base);
      PollsAgain(s, f, n) && ResumesAgain(s, f, n) && TakesAgain(s, f, n) && RestsAgain(s, f, n)
  {
    hide At, Exec, StillAtRest, Polls, Resumes, Takes, Rests;
    var m := OddFrom(n + |lead|);
    IdlingRests(s, lead, base, m);
    RestIsFair(s, Idling(lead, base), base, m);
  }

  lemma IdlingIsFair(s: State, lead: seq<Action>, base: real)
    requires StillAtRest(Exec(s, lead), base, |lead|)
    ensures Fair(s, Idling(lead, base))
  {
    hide StillAtRest, GetsLate, PollsAgain, ResumesAgain, TakesAgain, RestsAgain;
    var f := Idling(lead, base);
    forall x: real ensures GetsLate(s, f, x) { IdlingIsLate(s, lead, base, x); }
    forall n: nat ensures PollsAgain(s, f, n) && ResumesAgain(s, f, n) && TakesAgain(s, f, n) && RestsAgain(s, f, n) {
      IdlingRecurs(s, lead, base, n);
    }
    assert NeverRestarts(f, |lead|);
  }

  /** Every reachable state has a fair run ahead of it, on which no handler is ever cut short. */
  lemma FairRunsExist(max: nat, run: seq<Action>)
    requires max >= 1
    ensures exists f: nat -> Action :: Fair(After(max, run), f) && forall i :: Unprompted(f(i))
  {
    hide Inv, AtRest, Exec;
    Reached(max, run);
    var s := After(max, run);
    var lead := WayToRest(s);
    SmoothIsBackground(lead);
    var base := Exec(s, lead).clock;
    var f := Idling(lead, base);
    IdlingIsFair(s, lead, base);
    hide Fair;
    assert forall i :: Unprompted(f(i));
  }
}
