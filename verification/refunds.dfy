/** Refund rows and the arithmetic of what may still be refunded (pulsepay/refunds). */
module Refunds {
  import opened Common

  datatype RefundStatus = Pending | Processing | Completed | Failed

  /** A committed row of the refunds table; the amount is in cents. */
  datatype Refund = Refund(payment: nat, amount: int, status: RefundStatus, key: string)

  predicate Allowed(current: RefundStatus, target: RefundStatus) {
    match current
    case Pending => target == Processing
    case Processing => target == Completed || target == Failed
    case _ => false
  }

  predicate Terminal(status: RefundStatus) {
    status == Completed || status == Failed
  }

  /** What a NUMERIC(12, 2) column keeps of an amount given in cents: whole cents, halves away from zero. */
  function Stored(cents: real): int {
    if cents >= 0.0 then (cents + 0.5).Floor else -((0.5 - cents).Floor)
  }

  /** ... unless it needs more than ten digits before the point. */
  predicate Fits(cents: int) {
    -1_000_000_000_000 < cents < 1_000_000_000_000
  }

  /** Rounding never lifts a request over a limit that is itself in whole cents. */
  lemma StoredWithinLimit(cents: real, limit: int)
    requires cents <= limit as real
    ensures Stored(cents) <= limit
  {
    if cents < 0.0 && limit < 0 {
      assert (0.5 - cents).Floor >= -limit;
    }
  }

  /** It is the nearest whole number of cents, and of two equally near ones the one further from zero. */
  lemma StoredIsNearest(cents: real)
    ensures var off := Stored(cents) as real - cents;
      && -0.5 <= off <= 0.5
      && (off == -0.5 ==> cents < 0.0) && (off == 0.5 ==> cents >= 0.0)
  {}

  lemma StoredNonNegative(cents: real)
    requires cents >= 0.0
    ensures Stored(cents) >= 0
  {}

  lemma StoredWhole(cents: int)
    ensures Stored(cents as real) == cents
  {
    if cents >= 0 {
      assert (cents as real + 0.5).Floor == cents;
    } else {
      assert (0.5 - cents as real).Floor == -cents;
    }
  }

  /** What refund `i` holds back from the payment: its amount, until it fails. */
  function HeldPart(refunds: map<nat, Refund>, payment: nat): nat -> int {
    (i: nat) =>
      if i in refunds && refunds[i].payment == payment && refunds[i].status != Failed
      then refunds[i].amount else 0
  }

  /** What refund `i` has paid out. */
  function PaidPart(refunds: map<nat, Refund>, payment: nat): nat -> int {
    (i: nat) =>
      if i in refunds && refunds[i].payment == payment && refunds[i].status == Completed
      then refunds[i].amount else 0
  }

  /** The sum of the payment's refunds that have not failed, over the ids handed out so far. */
  ghost function Held(refunds: map<nat, Refund>, payment: nat, n: nat): int {
    Sum(HeldPart(refunds, payment), n)
  }

  ghost function Paid(refunds: map<nat, Refund>, payment: nat, n: nat): int {
    Sum(PaidPart(refunds, payment), n)
  }

  /** Inserting a refund raises its own payment's total by its amount and no other total. */
  lemma HeldInsert(refunds: map<nat, Refund>, id: nat, r: Refund, payment: nat, n: nat, m: nat)
    requires id !in refunds && n <= id < m && r.status != Failed
    requires forall i :: i in refunds ==> i < n
    ensures Held(refunds[id := r], payment, m) ==
      Held(refunds, payment, n) + (if r.payment == payment then r.amount else 0)
  {
    SumChange(HeldPart(refunds, payment), HeldPart(refunds[id := r], payment), m, id);
    SumExtend(HeldPart(refunds, payment), n, m);
  }

  /** A change of one refund's status moves exactly its amount. */
  lemma StatusMoves(refunds: map<nat, Refund>, id: nat, status: RefundStatus, payment: nat, n: nat)
    requires id in refunds && id < n && refunds[id].status != Failed
    ensures var after := refunds[id := refunds[id].(status := status)];
      var amount := if refunds[id].payment == payment then refunds[id].amount else 0;
      && Held(after, payment, n) == Held(refunds, payment, n) - (if status == Failed then amount else 0)
      && (refunds[id].status != Completed ==>
            Paid(after, payment, n) == Paid(refunds, payment, n) + (if status == Completed then amount else 0))
  {
    var after := refunds[id := refunds[id].(status := status)];
    SumChange(HeldPart(refunds, payment), HeldPart(after, payment), n, id);
    SumChange(PaidPart(refunds, payment), PaidPart(after, payment), n, id);
  }

  /** Ids handed out to other rows change no total. */
  lemma TotalsExtend(refunds: map<nat, Refund>, payment: nat, n: nat, m: nat)
    requires n <= m && forall i :: i in refunds ==> i < n
    ensures Held(refunds, payment, m) == Held(refunds, payment, n)
    ensures Paid(refunds, payment, m) == Paid(refunds, payment, n)
  {
    SumExtend(HeldPart(refunds, payment), n, m);
    SumExtend(PaidPart(refunds, payment), n, m);
  }
}
