/** The retry decision of the delivery executor: which failures are retried,
    after how long, and when a delivery is given up.  Delays are real
    milliseconds; the random draw and the clock are parameters. */
module Retry {
  import opened Domain

  /** A `Retry-After` value as the executor reads it: anything JavaScript's
      `Number` accepts, otherwise a date, otherwise nothing usable. */
  datatype RetryAfter = Seconds(seconds: real) | HttpDate(at: int) | Unusable

  /** What the channel reports: a response, or a failure with its status code
      (500 when there is none) and the `Retry-After` header if present. */
  datatype Reply = Accepted | Refused(status: nat, header: Option<RetryAfter>)

  datatype Decision = Succeed | GiveUp | RetryAt(at: int)

  function Min(a: real, b: real): real { if a <= b then a else b }

  function Max(a: real, b: real): real { if a >= b then a else b }

  function Clamp(x: real, hi: real): real { Min(Max(x, 0.0), hi) }

  predicate IsRetryable(status: nat) {
    status >= 500 || status in {408, 409, 425, 429}
  }

  function Power(m: real, k: nat): real {
    if k == 0 then 1.0 else m * Power(m, k - 1)
  }

  /** The delay before jitter and cap. */
  function Nominal(c: Config, attempt: nat): real
    requires attempt >= 1
  {
    c.baseDelay as real * Power(c.multiplier, attempt - 1)
  }

  predicate IsDraw(u: real) { 0.0 <= u < 1.0 }

  function Jittered(delay: real, u: real): real {
    var jitter := delay * 0.25 * (u * 2.0 - 1.0);
    delay + jitter
  }

  function BackoffDelay(c: Config, attempt: nat, u: real): real
    requires attempt >= 1
  {
    Clamp(Jittered(Nominal(c, attempt), u), c.maxDelay as real)
  }

  function RetryAfterDelay(header: Option<RetryAfter>, now: int, maximum: nat): Option<real> {
    match header
    case None => None
    case Some(Seconds(s)) => Some(Clamp(s * 1000.0, maximum as real))
    case Some(HttpDate(at)) => Some(Clamp((at - now) as real, maximum as real))
    case Some(Unusable) => None
  }

  function RetryDelay(c: Config, attempt: nat, status: nat, header: Option<RetryAfter>, now: int, u: real): real
    requires attempt >= 1
  {
    var backoff := BackoffDelay(c, attempt, u);
    if status == 429 then
      match RetryAfterDelay(header, now, c.maxDelay)
      case Some(delay) => delay
      case None => backoff
    else
      backoff
  }

  /** The outcome of attempt number `attempt`.  The retry time is a date, so the
      fraction of a millisecond is dropped. */
  function Decide(c: Config, attempt: nat, reply: Reply, now: int, u: real): Decision
    requires attempt >= 1
  {
    match reply
    case Accepted => Succeed
    case Refused(status, header) =>
      if attempt >= c.maxAttempts || !IsRetryable(status) then GiveUp
      else RetryAt(now + RetryDelay(c, attempt, status, header, now, u).Floor)
  }

  // ---------------------------------------------------------------- powers

  lemma {:induction false} PowerPositive(m: real, k: nat)
    requires m > 0.0
    ensures Power(m, k) > 0.0
  {
    if k > 0 {
      PowerPositive(m, k - 1);
    }
  }

  lemma {:induction false} PowerGrows(m: real, j: nat, k: nat)
    requires m >= 1.0 && j <= k
    ensures 1.0 <= Power(m, j) <= Power(m, k)
    decreases k
  {
    if j < k {
      PowerGrows(m, j, k - 1);
      ScaleUp(m, Power(m, k - 1));
    } else if k > 0 {
      PowerGrows(m, k - 1, k - 1);
      ScaleUp(m, Power(m, k - 1));
    }
  }

  lemma ScaleUp(m: real, p: real)
    requires m >= 1.0 && p >= 0.0
    ensures m * p >= p
  {
    assert m * p - p == (m - 1.0) * p;
    assert (m - 1.0) * p >= 0.0;
  }

  lemma MulMono(a: real, b: real, x: real)
    requires a <= b && 0.0 <= x
    ensures a * x <= b * x && x * a <= x * b
  {
    assert (b - a) * x >= 0.0;
  }

  lemma NominalPositive(c: Config, attempt: nat)
    requires c.Valid() && attempt >= 1
    ensures Nominal(c, attempt) > 0.0
  {
    PowerPositive(c.multiplier, attempt - 1);
  }

  lemma NominalStep(c: Config, attempt: nat)
    requires attempt >= 1
    ensures Nominal(c, attempt + 1) == c.multiplier * Nominal(c, attempt)
  {
    var b, m, p := c.baseDelay as real, c.multiplier, Power(c.multiplier, attempt - 1);
    assert Power(m, attempt) == m * p;
    assert b * (m * p) == m * (b * p);
  }

  // ---------------------------------------------------------------- backoff

  /** Before the cap the jittered delay is within a quarter of the nominal one;
      after it, within [0, maxDelay].  The lower quarter bound survives the cap
      unless the cap itself is the delay. */
  lemma BackoffBounds(c: Config, attempt: nat, u: real)
    requires c.Valid() && attempt >= 1 && IsDraw(u)
    ensures 0.0 <= BackoffDelay(c, attempt, u) <= c.maxDelay as real
    ensures BackoffDelay(c, attempt, u) <= 1.25 * Nominal(c, attempt)
    ensures BackoffDelay(c, attempt, u) >= Min(0.75 * Nominal(c, attempt), c.maxDelay as real)
  {
    NominalPositive(c, attempt);
    JitterBounds(Nominal(c, attempt), u);
  }

  function Swing(d: real, u: real): real {
    d * (0.75 + 0.5 * u)
  }

  /** The jitter factor ranges over [0.75, 1.25). */
  lemma JitterBounds(d: real, u: real)
    requires d > 0.0 && IsDraw(u)
    ensures Jittered(d, u) == Swing(d, u)
    ensures 0.75 * d <= Jittered(d, u) < 1.25 * d
  {
    assert d * 0.25 * (u * 2.0 - 1.0) == d * u * 0.5 - d * 0.25;
    assert d * (0.75 + 0.5 * u) == 0.75 * d + 0.5 * (d * u);
    MulMono(0.0, u, d);
    assert (1.0 - u) * d > 0.0;
  }

  lemma BackoffForm(c: Config, attempt: nat, u: real)
    requires c.Valid() && attempt >= 1 && IsDraw(u)
    ensures BackoffDelay(c, attempt, u) == Min(Swing(Nominal(c, attempt), u), c.maxDelay as real)
  {
    NominalPositive(c, attempt);
    JitterBounds(Nominal(c, attempt), u);
  }

  /** Delays never decrease from one attempt to the next, whatever is drawn. */
  ghost predicate NeverDecreases(c: Config) {
    forall k: nat, u, v :: k >= 1 && IsDraw(u) && IsDraw(v) ==>
      BackoffDelay(c, k, u) <= BackoffDelay(c, k + 1, v)
  }

  /** They never decrease exactly when the multiplier outweighs the widest jitter
      swing, 1.25 / 0.75, or every delay after the first is already capped. */
  lemma NeverDecreasesExactly(c: Config)
    requires c.Valid()
    ensures NeverDecreases(c) <==>
      c.multiplier >= 5.0 / 3.0 || 0.75 * c.multiplier * c.baseDelay as real >= c.maxDelay as real
  {
    var m, cap := c.multiplier, c.maxDelay as real;
    if m >= 5.0 / 3.0 || 0.75 * m * c.baseDelay as real >= cap {
      forall k: nat, u, v | k >= 1 && IsDraw(u) && IsDraw(v)
        ensures BackoffDelay(c, k, u) <= BackoffDelay(c, k + 1, v)
      {
        if m >= 5.0 / 3.0 {
          StepUp(c, k, u, v);
        } else {
          BackoffBounds(c, k, u);
          CapReachedAtSecond(c);
          CapAbsorbs(c, 2, k + 1, v);
        }
      }
    } else {
      StepDown(c);
    }
  }

  lemma StepUp(c: Config, k: nat, u: real, v: real)
    requires c.Valid() && c.multiplier >= 5.0 / 3.0
    requires k >= 1 && IsDraw(u) && IsDraw(v)
    ensures BackoffDelay(c, k, u) <= BackoffDelay(c, k + 1, v)
  {
    var near, far := Nominal(c, k), Nominal(c, k + 1);
    assert 1.25 * near <= 0.75 * far by {
      NominalStep(c, k);
      NominalPositive(c, k);
      MulMono(5.0 / 3.0, c.multiplier, near);
    }
    BackoffBounds(c, k, u);
    BackoffBounds(c, k + 1, v);
  }

  /** A draw pair showing that the first retry can wait longer than the second. */
  lemma StepDown(c: Config)
    requires c.Valid()
    requires c.multiplier < 5.0 / 3.0 && 0.75 * c.multiplier * c.baseDelay as real < c.maxDelay as real
    ensures exists u :: IsDraw(u) && BackoffDelay(c, 1, u) > BackoffDelay(c, 2, 0.0)
    ensures !NeverDecreases(c)
  {
    var b, m := c.baseDelay as real, c.multiplier;
    var u := WideDraw(b, m);
    assert IsDraw(0.0);
    BackoffForm(c, 1, u);
    BackoffForm(c, 1 + 1, 0.0);
    NominalStep(c, 1);
    assert Nominal(c, 1) == b && Nominal(c, 1 + 1) == m * b;
    assert Swing(m * b, 0.0) < c.maxDelay as real;
    hide Swing, BackoffDelay;
    assert BackoffDelay(c, 1, u) > BackoffDelay(c, 1 + 1, 0.0);
  }

  lemma WideDraw(b: real, m: real) returns (u: real)
    requires b > 0.0 && 0.0 < m < 5.0 / 3.0
    ensures IsDraw(u) && Swing(b, u) > Swing(m * b, 0.0)
  {
    u := if m < 1.0 then 0.0 else (1.0 + 1.5 * (m - 1.0)) / 2.0;
    StrictScale(b, 0.75 * m, 0.75 + 0.5 * u);
    assert b * (0.75 * m) == m * b * (0.75 + 0.5 * 0.0);
  }

  lemma StrictScale(b: real, x: real, y: real)
    requires b > 0.0 && x < y
    ensures b * x < b * y
  {
    assert b * (y - x) > 0.0;
  }

  lemma CapReachedAtSecond(c: Config)
    requires c.Valid() && 0.75 * c.multiplier * c.baseDelay as real >= c.maxDelay as real
    ensures c.multiplier >= 1.0 && 0.75 * Nominal(c, 2) >= c.maxDelay as real
  {
    var b, m := c.baseDelay as real, c.multiplier;
    NominalStep(c, 1);
    assert Nominal(c, 1) == b;
    assert 0.75 * (m * b) == 0.75 * m * b;
    if m < 1.0 {
      MulMono(m, 1.0, b);
      assert false;
    }
  }

  /** Once three quarters of the nominal delay reach the cap, every later delay
      is the cap. */
  lemma CapAbsorbs(c: Config, k: nat, later: nat, u: real)
    requires c.Valid() && c.multiplier >= 1.0
    requires 1 <= k <= later && IsDraw(u)
    requires 0.75 * Nominal(c, k) >= c.maxDelay as real
    ensures BackoffDelay(c, later, u) == c.maxDelay as real
  {
    PowerGrows(c.multiplier, k - 1, later - 1);
    MulMono(Power(c.multiplier, k - 1), Power(c.multiplier, later - 1), c.baseDelay as real);
    BackoffBounds(c, later, u);
  }

  /** The total wait before attempt n+1, over the draws of attempts 1 to n. */
  function TotalDelay(c: Config, draws: seq<real>): real {
    if draws == [] then 0.0
    else TotalDelay(c, draws[..|draws| - 1]) + BackoffDelay(c, |draws|, draws[|draws| - 1])
  }

  lemma TotalDelayBound(c: Config, draws: seq<real>)
    requires c.Valid() && c.multiplier > 1.0
    requires forall u :: u in draws ==> IsDraw(u)
    ensures TotalDelay(c, draws) <=
      Min(|draws| as real * c.maxDelay as real,
          Geometric(c.baseDelay as real, c.multiplier, Power(c.multiplier, |draws|)))
  {
    TotalWithinCaps(c, draws);
    TotalWithinGeometric(c, draws);
  }

  lemma {:induction false} TotalWithinCaps(c: Config, draws: seq<real>)
    requires c.Valid()
    requires forall u :: u in draws ==> IsDraw(u)
    ensures TotalDelay(c, draws) <= |draws| as real * c.maxDelay as real
  {
    var n := |draws|;
    if n > 0 {
      TotalWithinCaps(c, draws[..n - 1]);
      BackoffBounds(c, n, draws[n - 1]);
      CapSum(n, c.maxDelay as real);
    }
  }

  lemma {:induction false} TotalWithinGeometric(c: Config, draws: seq<real>)
    requires c.Valid() && c.multiplier > 1.0
    requires forall u :: u in draws ==> IsDraw(u)
    ensures TotalDelay(c, draws) <= Geometric(c.baseDelay as real, c.multiplier, Power(c.multiplier, |draws|))
  {
    var b, m, n := c.baseDelay as real, c.multiplier, |draws|;
    if n == 0 {
      QuotientStep(0.0, 1.25 * b * (Power(m, 0) - 1.0), 0.0, m - 1.0);
    } else {
      TotalWithinGeometric(c, draws[..n - 1]);
      BackoffBounds(c, n, draws[n - 1]);
      GeometricNominal(c, n);
      hide *;
      assert TotalDelay(c, draws) == TotalDelay(c, draws[..n - 1]) + BackoffDelay(c, n, draws[n - 1]);
    }
  }

  lemma GeometricNominal(c: Config, n: nat)
    requires c.multiplier > 1.0 && n >= 1
    ensures Geometric(c.baseDelay as real, c.multiplier, Power(c.multiplier, n - 1)) + 1.25 * Nominal(c, n)
         == Geometric(c.baseDelay as real, c.multiplier, Power(c.multiplier, n))
  {
    GeometricStep(c.baseDelay as real, c.multiplier, Power(c.multiplier, n - 1), Power(c.multiplier, n), Nominal(c, n));
  }

  /** 1.25 b (1 + m + ... + m^(n-1)), given p = m^n. */
  function Geometric(b: real, m: real, p: real): real
    requires m != 1.0
  {
    1.25 * b * (p - 1.0) / (m - 1.0)
  }

  lemma CapSum(n: nat, cap: real)
    requires n >= 1
    ensures (n - 1) as real * cap + cap == n as real * cap
  {
    assert n as real == (n - 1) as real + 1.0;
  }

  lemma GeometricStep(b: real, m: real, p: real, q: real, x: real)
    requires m > 1.0 && q == m * p && x == b * p
    ensures Geometric(b, m, p) + 1.25 * x == Geometric(b, m, q)
  {
    var d := m - 1.0;
    var lo, hi := 1.25 * b * (p - 1.0), 1.25 * b * (q - 1.0);
    assert hi - lo == 1.25 * x * d by {
      assert hi - lo == 1.25 * b * (m * p - p);
      assert m * p - p == p * d;
      assert 1.25 * b * (p * d) == 1.25 * (b * p) * d;
    }
    QuotientStep(lo, hi, 1.25 * x, d);
  }

  lemma QuotientStep(lo: real, hi: real, y: real, d: real)
    requires d > 0.0 && hi - lo == y * d
    ensures lo / d + y == hi / d
  {
    assert (lo / d + y) * d == hi;
  }

  // ---------------------------------------------------------------- decisions

  /** The `Retry-After` rule: seconds and dates are honoured up to the cap, never
      in the past, and a value that is neither leaves the backoff delay. */
  lemma RetryAfterRule(c: Config, attempt: nat, header: Option<RetryAfter>, now: int, u: real)
    requires c.Valid() && attempt >= 1 && IsDraw(u)
    ensures var d := RetryDelay(c, attempt, 429, header, now, u);
      match header
      case Some(Seconds(s)) =>
        && (0.0 <= s * 1000.0 <= c.maxDelay as real ==> d == s * 1000.0)
        && (s < 0.0 ==> d == 0.0)
        && (s * 1000.0 > c.maxDelay as real ==> d == c.maxDelay as real)
      case Some(HttpDate(at)) =>
        && (now <= at <= now + c.maxDelay ==> now as real + d == at as real)
        && (at < now ==> d == 0.0)
        && (at > now + c.maxDelay ==> d == c.maxDelay as real)
      case _ => d == BackoffDelay(c, attempt, u)
  {
  }

  /** What the protocol relies on: a retry is scheduled only below the attempt
      bound and only for a retryable status, never in the past and never later
      than the cap; every other failure is final. */
  lemma DecisionBounds(c: Config, attempt: nat, reply: Reply, now: int, u: real)
    requires c.Valid() && attempt >= 1 && IsDraw(u)
    ensures var d := Decide(c, attempt, reply, now, u);
      && (d.Succeed? <==> reply.Accepted?)
      && (d.RetryAt? <==> reply.Refused? && attempt < c.maxAttempts && IsRetryable(reply.status))
      && (d.RetryAt? ==> now <= d.at <= now + c.maxDelay)
  {
    if reply.Refused? {
      BackoffBounds(c, attempt, u);
      var delay := RetryDelay(c, attempt, reply.status, reply.header, now, u);
      assert 0.0 <= delay <= c.maxDelay as real;
      assert 0 <= delay.Floor <= c.maxDelay;
    }
  }

  // ---------------------------------------------------------------- the time of a retry

  /** The delays before jitter and cap, attempt by attempt: the base delay, and then each
      the multiplier times the one before. */
  predicate AreNominal(c: Config, delays: seq<real>) {
    && (|delays| > 0 ==> delays[0] == c.baseDelay as real)
    && forall i :: 0 < i < |delays| ==> delays[i] == c.multiplier * delays[i - 1]
  }

  /** Time `at` is as long after `now` as a wait of `ms` milliseconds, cut to whole ones
      and at `most`, and not in the past. */
  predicate IsAfter(at: int, now: int, ms: real, most: nat) {
    && now <= at <= now + most
    && (0.0 <= ms <= most as real ==> (at - now) as real <= ms < (at - now) as real + 1.0)
    && (ms < 0.0 ==> at == now)
    && (ms > most as real ==> at == now + most)
  }

  /** What the executor promises about the time of the retry after attempt `k`, given the
      nominal delays: at status 429 a usable `Retry-After` header is followed; otherwise
      the nominal delay of attempt `k` is scaled by a factor from 0.75 to 1.25. */
  predicate IsRetryTime(c: Config, delays: seq<real>, k: nat, status: nat, header: Option<RetryAfter>, now: int,
      u: real, at: int)
    requires 1 <= k <= |delays|
  {
    if status == 429 && header.Some? && header.value.Seconds? then
      IsAfter(at, now, header.value.seconds * 1000.0, c.maxDelay)
    else if status == 429 && header.Some? && header.value.HttpDate? then
      at == if header.value.at < now then now
            else if header.value.at > now + c.maxDelay then now + c.maxDelay
            else header.value.at
    else
      IsAfter(at, now, delays[k - 1] * (0.75 + 0.5 * u), c.maxDelay)
  }

  lemma {:induction false} NominalIs(c: Config, delays: seq<real>, k: nat)
    requires AreNominal(c, delays) && 1 <= k <= |delays|
    ensures delays[k - 1] == Nominal(c, k)
  {
    if k > 1 {
      NominalIs(c, delays, k - 1);
      NominalStep(c, k - 1);
    }
  }

  lemma FloorIsAfter(ms: real, now: int, most: nat)
    ensures IsAfter(now + Clamp(ms, most as real).Floor, now, ms, most)
  {
  }

  /** The decision in full, apart from the functions that compute it: a send that is
      accepted succeeds; a refusal is retried exactly below the attempt limit and for a
      status from 500 on or one of 408, 409, 425 and 429, at the time above; every other
      one is final. */
  lemma DecisionIsExact(c: Config, delays: seq<real>, k: nat, reply: Reply, now: int, u: real)
    requires c.Valid() && 1 <= k <= |delays| && AreNominal(c, delays) && 0.0 <= u < 1.0
    ensures var d := Decide(c, k, reply, now, u);
      match reply
      case Accepted => d == Succeed
      case Refused(status, header) =>
        if k < c.maxAttempts && (status >= 500 || status == 408 || status == 409 || status == 425 || status == 429)
        then d.RetryAt? && IsRetryTime(c, delays, k, status, header, now, u, d.at)
        else d == GiveUp
  {
    if reply.Refused? {
      NominalIs(c, delays, k);
      BackoffForm(c, k, u);
      BackoffIsSwing(c, k, u);
      FloorIsAfter(Swing(Nominal(c, k), u), now, c.maxDelay);
      if reply.header.Some? {
        HeaderIsAfter(reply.header.value, now, c.maxDelay);
      }
      hide BackoffDelay, Nominal, IsAfter, Clamp;
    }
  }

  lemma BackoffIsSwing(c: Config, k: nat, u: real)
    requires c.Valid() && k >= 1 && IsDraw(u)
    ensures BackoffDelay(c, k, u) == Clamp(Swing(Nominal(c, k), u), c.maxDelay as real)
  {
    NominalPositive(c, k);
    JitterBounds(Nominal(c, k), u);
  }

  lemma HeaderIsAfter(header: RetryAfter, now: int, most: nat)
    ensures header.Seconds? ==>
      IsAfter(now + Clamp(header.seconds * 1000.0, most as real).Floor, now, header.seconds * 1000.0, most)
    ensures header.HttpDate? ==>
      var at := now + Clamp((header.at - now) as real, most as real).Floor;
      at == if header.at < now then now else if header.at > now + most then now + most else header.at
  {
    if header.Seconds? {
      FloorIsAfter(header.seconds * 1000.0, now, most);
    }
  }
}
