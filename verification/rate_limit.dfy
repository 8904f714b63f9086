/** The in-process token bucket (pulsepay/ratelimit/store.py), in exact real arithmetic. */
module RateLimit {

  /** One call of `consume` on one key: when, how many tokens, and whether they were granted. */
  datatype Call = Call(at: real, tokens: real, granted: bool)

  datatype Limits = Limits(capacity: real, rate: real)

  /** The limits `RateLimitStore.__init__` derives from the two settings. */
  function FromSettings(perMinute: nat, burst: nat): Limits
    requires perMinute >= 1
  {
    var rate := perMinute as real / 60.0;
    Limits(rate * (burst as real / rate), rate)
  }

  function Min(a: real, b: real): real { if a <= b then a else b }

  /** What a span of time adds to a bucket. */
  function Earned(rate: real, span: real): real { rate * span }

  function Spent(c: Call): real { if c.granted then c.tokens else 0.0 }

  // ---------------------------------------------------------------- lazy refill

  /** The level a lazily refilled bucket shows to a call at `now`, after the calls `h`. */
  function Level(h: seq<Call>, now: real, l: Limits): real
    decreases |h|, 1
  {
    if h == [] then l.capacity
    else Min(l.capacity, Left(h, l) + Earned(l.rate, now - h[|h| - 1].at))
  }

  /** What the last call of `h` left in the bucket. */
  function Left(h: seq<Call>, l: Limits): real
    requires h != []
    decreases |h|, 0
  {
    var last := h[|h| - 1];
    Level(h[..|h| - 1], last.at, l) - Spent(last)
  }

  /** Call `i` was decided by the level the lazily refilled bucket showed it. */
  ghost predicate Decided(h: seq<Call>, i: nat, l: Limits)
    requires i < |h|
  {
    h[i].granted == (Level(h[..i], h[i].at, l) >= h[i].tokens)
  }

  ghost predicate Honest(h: seq<Call>, l: Limits) {
    forall i: nat :: i < |h| ==> Decided(h, i, l)
  }

  // ---------------------------------------------------------------- history specification

  /** Tokens granted by call number `from` and all later calls of `h`. */
  function Granted(h: seq<Call>, from: nat): real
    requires from <= |h|
    decreases |h| - from
  {
    if from == |h| then 0.0 else Spent(h[from]) + Granted(h, from + 1)
  }

  /** The window from call `j` up to a call at `now` can carry `tokens` more. */
  ghost predicate Fits(h: seq<Call>, j: nat, now: real, tokens: real, l: Limits)
    requires j < |h|
  {
    Granted(h, j) + tokens <= l.capacity + Earned(l.rate, now - h[j].at)
  }

  /** The sliding-window rule: no window that ends now may carry more than the burst plus what
      the window's length has earned. It looks at the whole history and keeps no running level. */
  ghost predicate Affordable(h: seq<Call>, now: real, tokens: real, l: Limits) {
    tokens <= l.capacity && forall j: nat :: j < |h| ==> Fits(h, j, now, tokens, l)
  }

  lemma {:induction false} GrantedSnoc(h: seq<Call>, c: Call, from: nat)
    requires from <= |h|
    ensures Granted(h + [c], from) == Granted(h, from) + Spent(c)
    decreases |h| - from
  {
    if from < |h| { GrantedSnoc(h, c, from + 1); }
  }

  lemma Distribute(rate: real, a: real, b: real, c: real)
    ensures rate * (a - c) == rate * (a - b) + rate * (b - c)
  {
    assert a - c == (a - b) + (b - c);
  }

  lemma ScaleUp(rate: real, a: real, b: real)
    requires rate >= 0.0 && a <= b
    ensures rate * a <= rate * b
  {
    assert rate * (b - a) >= 0.0;
  }

  /** What a window may still carry when the call that now ends it was the latest one. */
  lemma FitsBackwards(h0: seq<Call>, last: Call, j: nat, now: real, tokens: real, l: Limits)
    requires j < |h0|
    ensures Fits(h0, j, last.at, tokens + Spent(last) - Earned(l.rate, now - last.at), l)
       <==> Fits(h0 + [last], j, now, tokens, l)
  {
    GrantedSnoc(h0, last, j);
    Distribute(l.rate, now, last.at, h0[j].at);
  }

  /** The one running number of the lazily refilled bucket decides exactly like the rule
      over the whole history. */
  lemma {:induction false} LazyRefillIsWindowRule(h: seq<Call>, now: real, tokens: real, l: Limits)
    ensures Level(h, now, l) >= tokens <==> Affordable(h, now, tokens, l)
    decreases |h|
  {
    if h != [] {
      var n := |h| - 1;
      var h0, last := h[..n], h[n];
      assert h == h0 + [last];
      var earned := Earned(l.rate, now - last.at);
      var earlier := tokens + Spent(last) - earned;
      LazyRefillIsWindowRule(h0, last.at, earlier, l);
      assert Level(h, now, l) == Min(l.capacity, Level(h0, last.at, l) - Spent(last) + earned);
      assert Fits(h, n, now, tokens, l) <==> earlier <= l.capacity by {
        assert Granted(h, n) == Spent(last) + Granted(h, n + 1);
      }
      forall j: nat | j < n ensures Fits(h0, j, last.at, earlier, l) <==> Fits(h, j, now, tokens, l) {
        FitsBackwards(h0, last, j, now, tokens, l);
      }
    }
  }

  /** A granted call keeps every window that it closes within bounds. */
  lemma GrantFits(h: seq<Call>, l: Limits, i: nat, k: nat)
    requires Honest(h, l) && i <= k < |h| && h[k].granted
    ensures Granted(h[..k], i) + h[k].tokens <= l.capacity + Earned(l.rate, h[k].at - h[i].at)
  {
    assert Decided(h, k, l);
    LazyRefillIsWindowRule(h[..k], h[k].at, h[k].tokens, l);
    if i < k {
      assert Fits(h[..k], i, h[k].at, h[k].tokens, l);
    } else {
      assert l.rate * 0.0 == 0.0;
    }
  }

  ghost predicate InOrder(h: seq<Call>) {
    forall i, j :: 0 <= i <= j < |h| ==> h[i].at <= h[j].at
  }

  lemma EarnedGrows(rate: real, a: real, b: real)
    requires rate >= 0.0 && a <= b
    ensures Earned(rate, a) <= Earned(rate, b)
    ensures 0.0 <= a ==> 0.0 <= Earned(rate, a)
  {
    ScaleUp(rate, a, b);
    if 0.0 <= a { ScaleUp(rate, 0.0, a); }
  }

  /** In any stretch of calls that spans at most `span` seconds, the grants stay within the
      burst plus what `span` seconds earn. */
  lemma {:induction false} WindowBound(h: seq<Call>, l: Limits, i: nat, k: nat, span: real)
    requires Honest(h, l) && InOrder(h) && l.rate >= 0.0 && l.capacity >= 0.0
    requires i <= k < |h| && h[k].at - h[i].at <= span
    ensures Granted(h[..k + 1], i) <= l.capacity + Earned(l.rate, span)
    decreases k
  {
    hide Honest, Earned;
    assert h[..k + 1] == h[..k] + [h[k]];
    GrantedSnoc(h[..k], h[k], i);
    assert Granted(h[..k + 1], i) == Granted(h[..k], i) + Spent(h[k]);
    EarnedGrows(l.rate, h[k].at - h[i].at, span);
    if h[k].granted {
      GrantFits(h, l, i, k);
    } else if i < k {
      assert h[k - 1].at <= h[k].at;
      WindowBound(h, l, i, k - 1, span);
      assert h[..k - 1 + 1] == h[..k];
    } else {
      assert Granted(h[..k], i) == 0.0;
      EarnedGrows(l.rate, 0.0, span);
      EarnedGrows(l.rate, span, span);
    }
  }

  /** With the configured limits: any sixty seconds carry at most the burst limit plus the per-minute limit. */
  lemma MinuteBound(h: seq<Call>, perMinute: nat, burst: nat, i: nat, k: nat)
    requires perMinute >= 1
    requires Honest(h, FromSettings(perMinute, burst)) && InOrder(h)
    requires i <= k < |h| && h[k].at - h[i].at <= 60.0
    ensures FromSettings(perMinute, burst).capacity == burst as real
    ensures Granted(h[..k + 1], i) <= burst as real + perMinute as real
  {
    var l := FromSettings(perMinute, burst);
    Cancel(burst as real, l.rate);
    WindowBound(h, l, i, k, 60.0);
  }

  /** A minute refills as many tokens as the per-minute limit says. */
  lemma MinuteRefills(perMinute: nat, burst: nat)
    requires perMinute >= 1
    ensures FromSettings(perMinute, burst).rate * 60.0 == perMinute as real
    ensures FromSettings(perMinute, burst).capacity == burst as real
  {
    Cancel(burst as real, FromSettings(perMinute, burst).rate);
  }

  lemma HonestPrefix(h: seq<Call>, n: nat, l: Limits)
    requires Honest(h, l) && InOrder(h) && n <= |h|
    ensures Honest(h[..n], l) && InOrder(h[..n])
  {
    forall i: nat | i < n ensures Decided(h[..n], i, l) { assert h[..n][..i] == h[..i] && Decided(h, i, l); }
  }

  /** Two refills in a row from a level that is no lower than the first of them would reach from nothing. */
  lemma EarnsOn(level: real, l: Limits, since: real, mid: real, now: real)
    requires l.rate >= 0.0 && since <= mid <= now && level >= Min(l.capacity, Earned(l.rate, mid - since))
    ensures Min(l.capacity, level + Earned(l.rate, now - mid)) >= Min(l.capacity, Earned(l.rate, now - since))
  {
    Distribute(l.rate, now, mid, since);
    EarnedGrows(l.rate, now - mid, now - mid);
  }

  lemma EarnsMore(left: real, l: Limits, last: real, since: real, now: real)
    requires l.rate >= 0.0 && left >= 0.0 && last <= since <= now
    ensures Min(l.capacity, left + Earned(l.rate, now - last)) >= Min(l.capacity, Earned(l.rate, now - since))
  {
    EarnedGrows(l.rate, now - since, now - last);
  }

  lemma NeverOverdrawn(h: seq<Call>, l: Limits)
    requires Honest(h, l) && h != []
    requires Level(h[..|h| - 1], h[|h| - 1].at, l) >= 0.0
    ensures Left(h, l) >= 0.0
  {
    assert Decided(h, |h| - 1, l);
  }

  /** A bucket holds at least what it has earned since its last grant, until it is full. */
  lemma {:induction false} EarnsSinceGrant(h: seq<Call>, since: real, now: real, l: Limits)
    requires Honest(h, l) && InOrder(h) && l.rate >= 0.0 && l.capacity >= 0.0
    requires since <= now && (h != [] ==> h[|h| - 1].at <= now)
    requires forall i :: 0 <= i < |h| && h[i].granted ==> h[i].at <= since
    ensures Level(h, now, l) >= Min(l.capacity, Earned(l.rate, now - since)) >= 0.0
    decreases |h|
  {
    hide Honest, Earned;
    EarnedGrows(l.rate, now - since, now - since);
    if h != [] {
      var n := |h| - 1;
      var h0, last := h[..n], h[n];
      HonestPrefix(h, n, l);
      if last.granted || since >= last.at {
        EarnsSinceGrant(h0, last.at, last.at, l);
        NeverOverdrawn(h, l);
        EarnsMore(Left(h, l), l, last.at, since, now);
      } else {
        EarnsSinceGrant(h0, since, last.at, l);
        EarnsOn(Left(h, l), l, since, last.at, now);
      }
    }
  }

  /** Whoever has not been granted anything for long enough is granted: a call of at most the burst
      limit waits at most a minute for every per-minute limit of tokens that it asks for. */
  lemma GrantedAfterPause(h: seq<Call>, perMinute: nat, burst: nat, since: real, now: real, tokens: real)
    requires perMinute >= 1 && Honest(h, FromSettings(perMinute, burst)) && InOrder(h)
    requires since <= now && (h != [] ==> h[|h| - 1].at <= now)
    requires forall i :: 0 <= i < |h| && h[i].granted ==> h[i].at <= since
    requires tokens <= burst as real && (now - since) * perMinute as real >= 60.0 * tokens
    ensures Affordable(h, now, tokens, FromSettings(perMinute, burst))
  {
    var l := FromSettings(perMinute, burst);
    MinuteRefills(perMinute, burst);
    EarnsSinceGrant(h, since, now, l);
    LazyRefillIsWindowRule(h, now, tokens, l);
    SixtyTimes(l.rate, now - since, perMinute as real, tokens);
  }

  lemma SixtyTimes(rate: real, span: real, perMinute: real, tokens: real)
    requires rate * 60.0 == perMinute && span * perMinute >= 60.0 * tokens
    ensures Earned(rate, span) >= tokens
  {
    assert span * (rate * 60.0) == (rate * span) * 60.0;
  }

  /** The announced wait, in terms of the settings. */
  lemma WaitInSettings(h: seq<Call>, perMinute: nat, burst: nat, now: real, tokens: real)
    requires perMinute >= 1
    ensures var l := FromSettings(perMinute, burst);
      Wait(h, now, tokens, l) * perMinute as real == 60.0 * (tokens - Level(h, now, l))
  {
    var l := FromSettings(perMinute, burst);
    var missing := tokens - Level(h, now, l);
    MinuteRefills(perMinute, burst);
    Cancel(missing, l.rate);
    assert Wait(h, now, tokens, l) * (l.rate * 60.0) == (l.rate * Wait(h, now, tokens, l)) * 60.0;
  }

  lemma Cancel(a: real, b: real)
    requires b > 0.0
    ensures b * (a / b) == a
  {}

  // ---------------------------------------------------------------- Retry-After

  lemma ComparedQuotient(a: real, b: real, c: real)
    requires b > 0.0
    ensures c >= a / b <==> b * c >= a
  {
    Cancel(a, b);
    var q := a / b;
    if c >= q { ScaleUp(b, q, c); } else { StrictScale(b, c, q); }
  }

  lemma StrictScale(rate: real, a: real, b: real)
    requires rate > 0.0 && a < b
    ensures rate * a < rate * b
  {
    assert rate * (b - a) > 0.0;
  }

  ghost predicate AllRefused(calls: seq<Call>, from: real, to: real) {
    && (forall i :: 0 <= i < |calls| ==> !calls[i].granted && from <= calls[i].at <= to)
    && (forall i, j :: 0 <= i <= j < |calls| ==> calls[i].at <= calls[j].at)
  }

  /** Two refills in a row are one. */
  lemma RefillsAdd(capacity: real, level: real, rate: real, t: real, mid: real, now: real)
    requires rate >= 0.0 && t <= mid <= now
    ensures Min(capacity, Min(capacity, level + Earned(rate, mid - t)) + Earned(rate, now - mid))
         == Min(capacity, level + Earned(rate, now - t))
  {
    Distribute(rate, now, mid, t);
    ScaleUp(rate, 0.0, now - mid);
    assert Earned(rate, now - mid) >= 0.0;
    assert Earned(rate, now - t) == Earned(rate, now - mid) + Earned(rate, mid - t);
  }

  /** Any number of refused calls leaves the level a later call sees exactly where one direct
      refill would have put it. */
  lemma {:induction false} RefusalsAreHarmless(h: seq<Call>, refused: seq<Call>, t: real, now: real, l: Limits)
    requires l.rate >= 0.0 && t <= now
    requires refused != [] && refused[0].at == t && AllRefused(refused, t, now)
    ensures Level(h + refused, now, l) == Min(l.capacity, Level(h, t, l) + Earned(l.rate, now - t))
    decreases |refused|
  {
    hide Earned;
    var n := |refused| - 1;
    var last := refused[n];
    assert h + refused == (h + refused[..n]) + [last];
    assert (h + refused)[..|h + refused| - 1] == h + refused[..n];
    if n == 0 {
      assert h + refused[..0] == h;
    } else {
      RefusalsAreHarmless(h, refused[..n], t, last.at, l);
      RefillsAdd(l.capacity, Level(h, t, l), l.rate, t, last.at, now);
    }
  }

  /** After a refusal with wait `r`, and no grant since, a call for as many tokens is granted
      exactly from `r` seconds later on; a request above the capacity never is. */
  lemma RetryAfterIsExact(h: seq<Call>, refused: seq<Call>, t: real, now: real, tokens: real, l: Limits)
    requires l.rate > 0.0 && t <= now
    requires refused != [] && refused[0].at == t && AllRefused(refused, t, now)
    requires Level(h, t, l) < tokens
    ensures tokens <= l.capacity ==>
      (Affordable(h + refused, now, tokens, l) <==> now - t >= Wait(h, t, tokens, l))
    ensures tokens > l.capacity ==> !Affordable(h + refused, now, tokens, l)
  {
    RefusalsAreHarmless(h, refused, t, now, l);
    LazyRefillIsWindowRule(h + refused, now, tokens, l);
    ComparedQuotient(tokens - Level(h, t, l), l.rate, now - t);
  }

  // ---------------------------------------------------------------- the store

  class TokenBucket {
    var tokens: real
    var lastRefill: real
    const limits: Limits
    ghost var history: seq<Call>  // the calls served so far

    /** The bucket's two mutable numbers are a summary of its history. */
    ghost predicate Valid()
      reads this
    {
      limits.rate > 0.0 && Summarises(history, tokens, lastRefill, limits)
    }

    constructor (limits: Limits, now: real)
      requires limits.rate > 0.0
      ensures Valid() && this.limits == limits && history == [] && lastRefill == now
    {
      this.tokens, this.lastRefill, this.limits := limits.capacity, now, limits;
      history := [];
    }

    /** Adds what the time since the last refill has earned, up to the capacity. */
    method Refill(now: real)
      requires Valid() && lastRefill <= now
      modifies this`tokens, this`lastRefill
      ensures tokens == Level(history, now, limits) && lastRefill == now
    {
      RefillIsLevel(history, tokens, lastRefill, now, limits);
      var elapsed := if now - lastRefill > 0.0 then now - lastRefill else 0.0;
      tokens := Min(limits.capacity, tokens + Earned(limits.rate, elapsed));
      lastRefill := now;
    }

    /** Refill, then grant or refuse. */
    method Draw(wanted: real, now: real) returns (allowed: bool, retryAfter: real)
      requires Valid() && lastRefill <= now
      modifies this
      ensures Valid() && lastRefill == now
      ensures allowed <==> Affordable(old(history), now, wanted, limits)
      ensures retryAfter == if allowed then 0.0 else Wait(old(history), now, wanted, limits)
      ensures history == old(history) + [Call(now, wanted, allowed)]
    {
      ghost var h, last := history, lastRefill;
      Refill(now);
      Served(h, last, tokens, now, wanted, limits);
      if tokens >= wanted {
        tokens := tokens - wanted;
        allowed, retryAfter := true, 0.0;
      } else {
        allowed, retryAfter := false, Seconds(wanted - tokens, limits.rate);
      }
      history := h + [Call(now, wanted, allowed)];
    }
  }

  /** `max(0, missing / rate)`. */
  function Seconds(missing: real, rate: real): (r: real)
    requires rate > 0.0
    ensures missing >= 0.0 ==> r == missing / rate
  {
    ComparedQuotient(missing, rate, 0.0);
    if missing / rate > 0.0 then missing / rate else 0.0
  }

  class RateLimitStore {
    const limits: Limits
    var buckets: map<string, TokenBucket>

    ghost predicate Valid(clock: real)
      reads this, buckets.Values
    {
      && limits.rate > 0.0
      && (forall k :: k in buckets ==>
          buckets[k].Valid() && buckets[k].limits == limits && buckets[k].lastRefill <= clock)
      && (forall j, k :: j in buckets && k in buckets && j != k ==> buckets[j] != buckets[k])
    }

    /** The calls one key has made. */
    ghost function Calls(key: string): seq<Call>
      reads this, buckets.Values
    {
      if key in buckets then buckets[key].history else []
    }

    constructor (perMinute: nat, burst: nat, ghost started: real)
      requires perMinute >= 1
      ensures Valid(started) && limits == FromSettings(perMinute, burst) && buckets == map[]
    {
      var rate := perMinute as real / 60.0;
      var capacitySeconds := burst as real / rate;
      limits := Limits(rate * capacitySeconds, rate);
      buckets := map[];
    }

    /** Grants exactly the calls the window rule over the key's own history allows; a refusal
        names the exact wait; no other key's bucket is touched. */
    method Consume(key: string, tokens: real, now: real, ghost clock: real) returns (allowed: bool, retryAfter: real)
      requires Valid(clock) && clock <= now
      modifies this, if key in buckets then {buckets[key]} else {}
      ensures Valid(now)
      ensures allowed <==> Affordable(old(Calls(key)), now, tokens, limits)
      ensures retryAfter == if allowed then 0.0 else Wait(old(Calls(key)), now, tokens, limits)
      ensures Calls(key) == old(Calls(key)) + [Call(now, tokens, allowed)]
      ensures forall k :: k != key ==> Calls(k) == old(Calls(k))
    {
      var bucket;
      if key in buckets {
        bucket := buckets[key];
      } else {
        bucket := new TokenBucket(limits, now);
        buckets := buckets[key := bucket];
      }
      allowed, retryAfter := bucket.Draw(tokens, now);
    }
  }

  /** The seconds until a bucket that is never drawn from again holds `tokens`. */
  function Wait(h: seq<Call>, now: real, tokens: real, l: Limits): real {
    if l.rate == 0.0 then 0.0 else (tokens - Level(h, now, l)) / l.rate
  }

  /** The numbers say what the history left: a full bucket if nobody has called yet. */
  ghost predicate Summarises(h: seq<Call>, tokens: real, last: real, l: Limits) {
    && Honest(h, l) && InOrder(h)
    && (h == [] ==> tokens == l.capacity)
    && (h != [] ==> tokens == Left(h, l) && last == h[|h| - 1].at)
  }

  /** One decision keeps the summary of the history exact. */
  lemma Served(h: seq<Call>, last: real, level: real, now: real, wanted: real, l: Limits)
    requires Honest(h, l) && InOrder(h) && (h != [] ==> last == h[|h| - 1].at) && last <= now
    requires level == Level(h, now, l)
    ensures level >= wanted <==> Affordable(h, now, wanted, l)
    ensures var c := Call(now, wanted, level >= wanted); Summarises(h + [c], level - Spent(c), now, l)
  {
    HonestSnoc(h, Call(now, wanted, level >= wanted), l);
    LazyRefillIsWindowRule(h, now, wanted, l);
  }

  lemma HonestSnoc(h: seq<Call>, c: Call, l: Limits)
    requires Honest(h, l) && InOrder(h)
    requires c.granted == (Level(h, c.at, l) >= c.tokens)
    requires h != [] ==> h[|h| - 1].at <= c.at
    ensures Honest(h + [c], l) && InOrder(h + [c])
    ensures Left(h + [c], l) == Level(h, c.at, l) - Spent(c)
  {
    var g := h + [c];
    assert g[..|h|] == h;
    forall i: nat | i < |g| ensures Decided(g, i, l) {
      if i < |h| { assert g[..i] == h[..i] && Decided(h, i, l); }
    }
  }

  /** The refill performed in place computes the level, whether the bucket is new or not. */
  lemma RefillIsLevel(h: seq<Call>, tokens: real, last: real, now: real, l: Limits)
    requires last <= now && l.rate >= 0.0
    requires h == [] ==> tokens == l.capacity
    requires h != [] ==> tokens == Left(h, l) && last == h[|h| - 1].at
    ensures Min(l.capacity, tokens + Earned(l.rate, now - last)) == Level(h, now, l)
  {
    if h == [] { ScaleUp(l.rate, 0.0, now - last); }
  }
}
