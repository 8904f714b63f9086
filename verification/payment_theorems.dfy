/** What clients may rely on about payments, in every run. */
module PaymentTheorems {
  import opened Common
  import opened Payments
  import opened Jobs
  import opened Refunds
  import opened System
  import opened Invariants
  import opened Growth
  import opened Runs

  lemma MaxIsFixed(max: nat, run: seq<Action>)
    requires max >= 1
    ensures After(max, run).max == max
  {
    InitInv(max);
    ExecGrows(Init(max), run);
  }

  lemma RowFact(max: nat, run: seq<Action>, p: nat)
    requires max >= 1 && p in After(max, run).payments
    ensures p in After(max, run).calls && Follows(After(max, run).payments[p], After(max, run).calls[p], max)
  {
    Reached(max, run);
    MaxIsFixed(max, run);
  }

  /** Whatever mixture of jobs, retries, faults and HTTP confirms produced the run, the payment's
      row is a function of its processor answers and the retry ceiling alone: the answers are soft
      up to the last one, which decides. The one exception is a payment that has used up its
      attempts and still processes, because whoever made the last call was cut short before the
      commit that fails it; and only a missed commit of call number `max` lets there be more calls. */
  lemma RowFollowsAnswers(max: nat, run: seq<Action>, p: nat)
    requires max >= 1 && p in After(max, run).payments
    ensures var s := After(max, run); var row := s.payments[p]; var calls := CallsOf(s, p);
      && (SummaryOf(row) == Verdict(calls, max) <==> !Overdue(row, max))
      && (forall i :: 0 <= i < |calls| - 1 ==> calls[i].outcome.SoftFailure?)
      && (Overdue(row, max) ==> calls != [] && Missed(calls, |calls| - 1, max))
      && (|calls| > max ==> Missed(calls, max - 1, max))
  {
    RowFact(max, run, p);
    BeyondIsMissed(After(max, run).calls[p], max);
  }

  /** If no commit was missed, the row is the verdict on its answers, and there are at most `max`. */
  lemma RowIsVerdict(max: nat, run: seq<Action>, p: nat)
    requires max >= 1 && p in After(max, run).payments
    requires forall i: nat :: i < |CallsOf(After(max, run), p)| ==> !Missed(CallsOf(After(max, run), p), i, max)
    ensures var s := After(max, run);
      SummaryOf(s.payments[p]) == Verdict(CallsOf(s, p), max) && |CallsOf(s, p)| <= max
  {
    RowFact(max, run, p);
    assert CallsOf(After(max, run), p) == After(max, run).calls[p];
    NoneMissed(After(max, run).payments[p], After(max, run).calls[p], max);
  }

  /** ... with a history that is a valid path, a confirmation time exactly on success, and the
      ceiling's reason exactly after soft failures up to the ceiling. */
  lemma RowIsWellFormed(max: nat, run: seq<Action>, p: nat)
    requires max >= 1 && p in After(max, run).payments
    ensures var s := After(max, run); var row := s.payments[p]; var calls := CallsOf(s, p);
      && Path(Trail(row.history)) && row.history != [] && row.history[|row.history| - 1].state == row.status
      && (row.confirmedAt.Some? <==> row.status == Success)
      && (row.status == PaymentStatus.Processing ==> row.failureClass == Some(FailureClass.Soft) && row.retryCount >= 1)
      && (row.status == PaymentStatus.Failed ==> row.failureClass == Some(Hard))
      && row.retryCount == |calls|
      && (row.failureReason == Some(MaxRetriesExceeded) <==>
            |calls| >= max && (forall i :: 0 <= i < |calls| ==> calls[i].outcome.SoftFailure?) && !Overdue(row, max))
  {
    RowFact(max, run, p);
    RowShape(After(max, run).payments[p], After(max, run).calls[p], max);
  }

  /** Over the rest of the run a payment only extends its history, and nothing touches it once it is terminal. */
  lemma RowOnlyGrows(max: nat, run: seq<Action>, more: seq<Action>, p: nat)
    requires max >= 1 && p in After(max, run).payments
    ensures var s, t := After(max, run), After(max, run + more);
      && p in t.payments && s.payments[p].history <= t.payments[p].history
      && (Payments.Terminal(s.payments[p].status) ==> t.payments[p] == s.payments[p])
      && CallsOf(s, p) <= CallsOf(t, p)
  {
    var s, t := After(max, run), After(max, run + more);
    Reached(max, run);
    ExecSplit(Init(max), run, more);
    ExecGrows(s, more);
    assert PaymentGrows(s.payments[p], t.payments[p]);
  }

  // ---------------------------------------------------------------- idempotent creation

  lemma OnePaymentPerKey(max: nat, run: seq<Action>, p: nat, r: nat)
    requires max >= 1 && p in After(max, run).payments && r in After(max, run).payments
    requires After(max, run).payments[p].key == After(max, run).payments[r].key
    ensures p == r
  {
    Reached(max, run);
  }

  /** What the first successful request with a key leaves behind: a pending payment as asked for,
      its response on record, and one job for it that is due at once. */
  lemma CreateLeaves(s: State, customer: string, cents: real, metadata: Option<string>, key: string)
    requires CreateResultOf(s, cents, key).Created? && cents > 0.0
    ensures var t := Next(s, CreateRequest(customer, cents, metadata, key));
      && key in t.records
      && s.next in t.payments && t.payments == s.payments[s.next := t.payments[s.next]]
      && t.payments[s.next] ==
           Payment(customer, Refunds.Stored(cents), PaymentStatus.Pending, None, None, 0, key, metadata,
                   [Entry(PaymentStatus.Pending, s.clock, PaymentCreated)], None)
      && t.records[key] == IdempotencyRecord(s.next, Some(t.payments[s.next]), 201, s.clock + 24.0 * 3600.0)
      && CallsOf(t, s.next) == []
      && s.next + 1 in t.q.jobs
      && t.q.jobs == s.q.jobs[s.next + 1 := Job(ProcessPayment(s.next), JobStatus.Queued, 0, 3, s.clock, None)]
      && t.q.tails == s.q.tails + [Tail(s.next + 1, Some(s.clock))] && t.q.worker == s.q.worker
  {
    hide Fits, Stored;
  }

  /** Once a key has been used, every later request with it is a pure read: for 24 hours it gets
      the response of the first one, whatever it asks for and whatever has become of the payment,
      and after that it is refused. */
  lemma RepeatedCreate(max: nat, run: seq<Action>, customer: string, cents: real, metadata: Option<string>, key: string,
                       more: seq<Action>, customer': string, cents': real, metadata': Option<string>)
    requires max >= 1 && cents > 0.0 && CreateResultOf(After(max, run), cents, key).Created?
    ensures var s := After(max, run);
      var t := Exec(Next(s, CreateRequest(customer, cents, metadata, key)), more);
      && s.next in Next(s, CreateRequest(customer, cents, metadata, key)).payments
      && CreateResultOf(t, cents', key) ==
           (if t.clock < s.clock + 24.0 * 3600.0
            then Replayed(Next(s, CreateRequest(customer, cents, metadata, key)).payments[s.next], 201)
            else Rejected)
      && Next(t, CreateRequest(customer', cents', metadata', key)) == t
  {
    var s := After(max, run);
    var s1 := Next(s, CreateRequest(customer, cents, metadata, key));
    var t := Exec(s1, more);
    CreateLeaves(s, customer, cents, metadata, key);
    RecordStays(max, run, CreateRequest(customer, cents, metadata, key), more, key);
  }

  /** A key that nobody has used in the last 24 hours creates a payment exactly if nobody has used
      it ever, and the amount fits its column: the code turns expired keys away. */
  lemma CreatesIff(max: nat, run: seq<Action>, cents: real, key: string)
    requires max >= 1
    requires (key in After(max, run).records ==> After(max, run).records[key].expiresAt <= After(max, run).clock)
    ensures CreateResultOf(After(max, run), cents, key).Created? <==>
      key !in After(max, run).records && -1_000_000_000_000 < Refunds.Stored(cents) < 1_000_000_000_000
  {
    var s := After(max, run);
    assert RecordsOk(s.payments, s.records) by { hide Flow; Reached(max, run); }
    RecordedKeysAreTaken(s);
  }

  /** For instance: one euro, and again with the same key a day later. */
  lemma ExpiredKeyIsRefused(customer: string, key: string)
    ensures var t := Exec(Next(After(3, []), CreateRequest(customer, 100.0, None, key)), [Tick(86400.0)]);
      && (key in t.records && t.records[key].expiresAt <= t.clock)
      && CreateResultOf(t, 100.0, key) == Rejected
  {
    var s := Init(3);
    assert After(3, []) == s;
    assert !KeyTaken(s, key);
    assert Refunds.Stored(100.0) == 100 by { Refunds.StoredWhole(100); }
    var a := CreateRequest(customer, 100.0, None, key);
    CreateLeaves(s, customer, 100.0, None, key);
    assert [Tick(86400.0)][..0] == [];
    RepeatedCreate(3, [], customer, 100.0, None, key, [Tick(86400.0)], customer, 100.0, None);
    RecordStays(3, [], a, [Tick(86400.0)], key);
  }

  lemma RecordStays(max: nat, run: seq<Action>, a: Action, more: seq<Action>, key: string)
    requires max >= 1 && key in Next(After(max, run), a).records
    ensures var s1 := Next(After(max, run), a); var t := Exec(s1, more);
      key in t.records && t.records[key] == s1.records[key] && KeyTaken(t, key)
  {
    var s1 := Next(After(max, run), a);
    Reached(max, run);
    NextKeeps(After(max, run), a);
    ExecGrows(s1, more);
    ExecKeeps(s1, more);
    assert Exec(s1, more).payments[s1.records[key].payment].key == key;
  }
}
