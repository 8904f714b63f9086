/** Small vocabulary shared by every module: optional values, powers of two and finite sums. */
module Common {

  datatype Option<+T> = None | Some(value: T)

  /** The base delay of every backoff schedule: two to the number of attempts made. */
  function Pow2(n: nat): (r: real)
    ensures r >= 1.0
  {
    if n == 0 then 1.0 else 2.0 * Pow2(n - 1)
  }

  /** The ids `lo, ..., lo + n - 1`. */
  function Range(lo: nat, n: nat): (r: set<nat>)
    ensures forall i: nat :: i in r <==> lo <= i < lo + n
  {
    if n == 0 then {} else Range(lo, n - 1) + {lo + n - 1}
  }

  /** `f(0) + ... + f(n - 1)`: a total over the ids handed out so far. */
  ghost function Sum(f: nat -> int, n: nat): int {
    if n == 0 then 0 else Sum(f, n - 1) + f(n - 1)
  }

  lemma {:induction false} SumSame(f: nat -> int, g: nat -> int, n: nat)
    requires forall i: nat :: i < n ==> f(i) == g(i)
    ensures Sum(f, n) == Sum(g, n)
  {
    if n > 0 { SumSame(f, g, n - 1); }
  }

  /** Changing one summand changes the total by exactly the difference. */
  lemma {:induction false} SumChange(f: nat -> int, g: nat -> int, n: nat, k: nat)
    requires k < n
    requires forall i: nat :: i < n && i != k ==> f(i) == g(i)
    ensures Sum(g, n) == Sum(f, n) - f(k) + g(k)
  {
    if k == n - 1 { SumSame(f, g, n - 1); } else { SumChange(f, g, n - 1, k); }
  }

  /** Ids that contribute nothing may be added at the end. */
  lemma {:induction false} SumExtend(f: nat -> int, n: nat, m: nat)
    requires n <= m
    requires forall i: nat :: n <= i < m ==> f(i) == 0
    ensures Sum(f, m) == Sum(f, n)
  {
    if n < m { SumExtend(f, n, m - 1); }
  }

  lemma {:induction false} SumNonNegative(f: nat -> int, n: nat)
    requires forall i: nat :: i < n ==> f(i) >= 0
    ensures Sum(f, n) >= 0
    ensures forall i: nat :: i < n ==> f(i) <= Sum(f, n)
  {
    if n > 0 { SumNonNegative(f, n - 1); }
  }

  lemma {:induction false} SumMonotone(f: nat -> int, g: nat -> int, n: nat)
    requires forall i: nat :: i < n ==> f(i) <= g(i)
    ensures Sum(f, n) <= Sum(g, n)
  {
    if n > 0 { SumMonotone(f, g, n - 1); }
  }

  lemma {:induction false} SumAdd(f: nat -> int, g: nat -> int, h: nat -> int, n: nat)
    requires forall i: nat :: i < n ==> h(i) == f(i) + g(i)
    ensures Sum(h, n) == Sum(f, n) + Sum(g, n)
  {
    if n > 0 { SumAdd(f, g, h, n - 1); }
  }
}
