/** How far apart the processor calls of one payment are, in every run. */
module BackoffTheorems {
  import opened Common
  import opened Payments
  import opened Jobs
  import opened System
  import opened Invariants
  import opened Runs

  /** The chain runs on jobs alone, and each call is made by another job than the one before:
      no HTTP confirm intervened, and no handler was run again after it had called. */
  ghost predicate Undisturbed(calls: seq<Payments.Call>) {
    && (forall i :: 0 <= i < |calls| ==> calls[i].source.Worker?)
    && (forall i :: 0 <= i < |calls| - 1 ==> calls[i].source != calls[i + 1].source)
  }

  lemma CallsAreSpaced(max: nat, run: seq<Action>, p: nat)
    requires max >= 1 && p in After(max, run).calls
    ensures Spaced(After(max, run).calls[p])
  {
    hide Rows, IdsOk, QueueInv, LinkOk;
    Reached(max, run);
  }

  lemma StepApart(calls: seq<Payments.Call>, k: nat)
    requires Spaced(calls) && Undisturbed(calls) && k + 1 < |calls|
    ensures calls[k + 1].at >= calls[k].at + Pow2(k + 1)
  {
    assert Waits(calls[..k + 1], calls[k + 1].source.job, calls[k + 1].at);
    assert calls[..k + 1][|calls[..k + 1]| - 1] == calls[k];
  }

  /** Call `k + 1` of an undisturbed chain comes at least two to the `k + 1` seconds after call
      `k`, counted from zero, however the worker, the poller, restarts and operators interleave. */
  lemma CallsBackOff(max: nat, run: seq<Action>, p: nat, k: nat)
    requires max >= 1 && p in After(max, run).calls
    requires Undisturbed(After(max, run).calls[p]) && k + 1 < |After(max, run).calls[p]|
    ensures var calls := After(max, run).calls[p]; calls[k + 1].at >= calls[k].at + Pow2(k + 1)
  {
    CallsAreSpaced(max, run, p);
    StepApart(After(max, run).calls[p], k);
  }

  lemma {:induction false} Span(calls: seq<Payments.Call>, k: nat)
    requires Spaced(calls) && Undisturbed(calls) && k < |calls|
    ensures calls[k].at - calls[0].at >= Pow2(k + 1) - 2.0
  {
    if k > 0 {
      Span(calls, k - 1);
      StepApart(calls, k - 1);
    } else {
      assert Pow2(1) == 2.0 * Pow2(0);
    }
  }

  /** `m` undisturbed calls take at least two to the `m`, minus two, seconds. */
  lemma ChainTakesTime(max: nat, run: seq<Action>, p: nat)
    requires max >= 1 && p in After(max, run).calls
    requires Undisturbed(After(max, run).calls[p]) && After(max, run).calls[p] != []
    ensures var calls := After(max, run).calls[p];
      calls[|calls| - 1].at - calls[0].at >= Pow2(|calls|) - 2.0
  {
    CallsAreSpaced(max, run, p);
    Span(After(max, run).calls[p], |After(max, run).calls[p]| - 1);
  }

  // ---------------------------------------------------------------- the schedule itself

  /** When attempt `|jitters| + 1` is due, if attempt 1 is made at `start` and every later attempt
      is made exactly when it is due. */
  function DueAt(start: real, jitters: seq<real>): real {
    if jitters == [] then start
    else NextRetryAt(DueAt(start, jitters[..|jitters| - 1]), |jitters|, jitters[|jitters| - 1])
  }

  ghost predicate Jitters(jitters: seq<real>) {
    forall i :: 0 <= i < |jitters| ==> Jitter(jitters[i])
  }

  /** A schedule of `m` attempts takes between `2^m - 2` and `2^m + m - 3` seconds. */
  lemma {:induction false} ScheduleBounds(start: real, jitters: seq<real>)
    requires Jitters(jitters)
    ensures var m := |jitters| + 1; var total := DueAt(start, jitters) - start;
      && Pow2(m) - 2.0 <= total <= Pow2(m) + m as real - 3.0
      && (m >= 2 ==> total < Pow2(m) + m as real - 3.0)
  {
    if jitters == [] {
      assert Pow2(1) == 2.0 * Pow2(0);
    } else {
      ScheduleBounds(start, jitters[..|jitters| - 1]);
      assert Jitter(jitters[|jitters| - 1]);
    }
  }

  /** Every scheduled delay is longer than the one before it, whatever the jitter. */
  lemma DelaysIncrease(count: nat, now: real, later: real, jitter: real, jitter': real)
    requires Jitter(jitter) && Jitter(jitter')
    ensures NextRetryAt(now, count, jitter) - now < NextRetryAt(later, count + 1, jitter') - later
  {
    assert Pow2(count + 1) == 2.0 * Pow2(count);
  }
}
