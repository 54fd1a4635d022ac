/** The token-bucket rate limiter.  One check refills the bucket for the time
    since the last check, takes a token if there is one, and otherwise says how
    long to wait.  Tokens are real numbers, times whole milliseconds.  Limits are
    at least 1, as every request that sets one demands. */
module RateLimiter {
  import opened Domain

  datatype Bucket = Bucket(tokens: real, updatedAt: int)

  /** What a check reports: admitted or not, the delay to wait, the tokens in use. */
  datatype Answer = Answer(allowed: bool, delay: int, count: int)

  /** A check with the caller's limit and clock reading; `lag` is how much later,
      by the same clock, the store runs the script. */
  datatype Call = Call(limit: nat, now: int, lag: nat)

  /** A stored bucket and the time from which the store forgets it. */
  datatype Entry = Entry(bucket: Bucket, expiresAt: int)

  const TTL: nat := 2000

  function Ceil(x: real): int { -(-x).Floor }

  function Min(a: real, b: real): real { if a <= b then a else b }

  function Elapsed(since: int, now: int): nat {
    if now > since then now - since else 0
  }

  /** The tokens a bucket gains in a number of milliseconds. */
  function Gain(limit: nat, ms: nat): real {
    ms as real * limit as real / 1000.0
  }

  /** The least delay in whole milliseconds after which a missing amount is there. */
  function Delay(missing: real, limit: nat): int
    requires limit >= 1
  {
    Ceil(missing * 1000.0 / limit as real)
  }

  /** The tokens at hand before the check takes one; a missing bucket is full. */
  function Refill(b: Option<Bucket>, limit: nat, now: int): real {
    match b
    case None => limit as real
    case Some(Bucket(tokens, updatedAt)) => Min(limit as real, tokens + Gain(limit, Elapsed(updatedAt, now)))
  }

  function Check(b: Option<Bucket>, limit: nat, now: int): (Answer, Bucket)
    requires limit >= 1
  {
    var tokens := Refill(b, limit, now);
    if tokens >= 1.0 then
      (Answer(true, 0, Ceil(limit as real - (tokens - 1.0))), Bucket(tokens - 1.0, now))
    else
      (Answer(false, Delay(1.0 - tokens, limit), Ceil(limit as real - tokens)), Bucket(tokens, now))
  }

  predicate Solvent(b: Option<Bucket>) { b.Some? ==> b.value.tokens >= 0.0 }

  // ---------------------------------------------------------------- one check

  lemma CeilIsLeast(x: real, n: int)
    ensures x <= Ceil(x) as real < x + 1.0
    ensures x <= n as real <==> Ceil(x) <= n
  {
  }

  lemma GainAdds(limit: nat, a: nat, b: nat)
    ensures Gain(limit, a + b) == Gain(limit, a) + Gain(limit, b)
    ensures Gain(limit, a) >= 0.0
  {
  }

  lemma GainGrows(limit: nat, a: nat, b: nat)
    requires a <= b
    ensures Gain(limit, a) <= Gain(limit, b)
  {
    GainAdds(limit, a, b - a);
    GainAdds(limit, b - a, 0);
  }

  /** Whatever the history, a check leaves between 0 and `limit` tokens; it is
      refused exactly when no whole token was at hand; a refusal reports a delay of
      at least 1 ms and the whole limit in use. */
  lemma CheckBounds(b: Option<Bucket>, limit: nat, now: int)
    requires limit >= 1 && Solvent(b)
    ensures var (answer, after) := Check(b, limit, now);
      && 0.0 <= after.tokens <= limit as real
      && after.updatedAt == now
      && (if answer.allowed then answer.delay == 0 && 1 <= answer.count <= limit && after.tokens <= limit as real - 1.0
          else answer.delay >= 1 && answer.count == limit && after.tokens < 1.0)
  {
    var tokens := Refill(b, limit, now);
    if b.Some? {
      GainAdds(limit, Elapsed(b.value.updatedAt, now), 0);
    }
    CeilIsLeast(limit as real - (tokens - 1.0), limit);
    CeilIsLeast(limit as real - tokens, limit);
    CeilIsLeast((1.0 - tokens) * 1000.0 / limit as real, 0);
    hide Gain, Ceil;
    if tokens < 1.0 {
      assert (1.0 - tokens) * 1000.0 / limit as real > 0.0;
    }
  }

  // ---------------------------------------------------------------- waiting

  /** The smallest delay that gains a given amount. */
  lemma DelayIsLeast(limit: nat, missing: real, ms: nat)
    requires limit >= 1
    ensures Gain(limit, ms) >= missing <==> ms >= Delay(missing, limit)
  {
    CeilIsLeast(missing * 1000.0 / limit as real, ms);
    var l := limit as real;
    var needed := missing * 1000.0 / l;
    assert needed * l == missing * 1000.0;
    assert Gain(limit, ms) >= missing <==> ms as real * l >= missing * 1000.0;
    if ms as real >= needed {
      ScaleMono(needed, ms as real, l);
    } else {
      ScaleStrict(ms as real, needed, l);
    }
  }

  lemma ScaleMono(a: real, b: real, x: real)
    requires a <= b && x >= 0.0
    ensures a * x <= b * x
  {
  }

  lemma ScaleStrict(a: real, b: real, x: real)
    requires a < b && x > 0.0
    ensures a * x < b * x
  {
  }

  /** The reported delay is sufficient and tight: after a refusal at `now`, and
      with no other call, a later call is admitted exactly from `now + delay` on. */
  lemma DelayIsExact(b: Option<Bucket>, limit: nat, now: int, later: int)
    requires limit >= 1 && Solvent(b) && !Check(b, limit, now).0.allowed
    ensures var (answer, after) := Check(b, limit, now);
      Check(Some(after), limit, later).0.allowed <==> later >= now + answer.delay
  {
    var (answer, after) := Check(b, limit, now);
    CheckBounds(b, limit, now);
    DelayIsLeast(limit, 1.0 - after.tokens, Elapsed(now, later));
    hide Gain, Ceil;
    assert Refill(Some(after), limit, later) == Min(limit as real, after.tokens + Gain(limit, Elapsed(now, later)));
  }

  /** Refusals are free: a refused call changes no answer to any later call, because
      below the cap two refills add up to one. */
  lemma RefusalIsFree(b: Option<Bucket>, limit: nat, now: int, later: int)
    requires limit >= 1 && Solvent(b) && !Check(b, limit, now).0.allowed && now <= later
    requires b.Some? ==> b.value.updatedAt <= now
    ensures Check(Some(Check(b, limit, now).1), limit, later) == Check(b, limit, later)
  {
    var old_ := b.value;
    var first, second := Elapsed(old_.updatedAt, now), Elapsed(now, later);
    GainAdds(limit, first, second);
    GainAdds(limit, second, 0);
    assert Elapsed(old_.updatedAt, later) == first + second;
    hide Gain, Ceil;
  }

  // ---------------------------------------------------------------- call sequences

  predicate Valid(calls: seq<Call>) {
    forall i :: 0 <= i < |calls| ==> calls[i].limit >= 1
  }

  predicate Ordered(calls: seq<Call>) {
    forall i, j :: 0 <= i < j < |calls| ==> calls[i].now <= calls[j].now
  }

  predicate Fixed(calls: seq<Call>, limit: nat) {
    forall i :: 0 <= i < |calls| ==> calls[i].limit == limit
  }

  /** The bucket after a sequence of checks. */
  function After(b: Option<Bucket>, calls: seq<Call>): Option<Bucket>
    requires Valid(calls)
  {
    if calls == [] then b
    else
      var last := calls[|calls| - 1];
      Some(Check(After(b, calls[..|calls| - 1]), last.limit, last.now).1)
  }

  /** The answer to the last check of a sequence. */
  function LastAnswer(b: Option<Bucket>, calls: seq<Call>): Answer
    requires Valid(calls) && |calls| > 0
  {
    var last := calls[|calls| - 1];
    Check(After(b, calls[..|calls| - 1]), last.limit, last.now).0
  }

  lemma {:induction false} TokensStay(b: Option<Bucket>, calls: seq<Call>)
    requires Valid(calls) && Solvent(b)
    ensures var after := After(b, calls);
      && Solvent(after)
      && (|calls| > 0 ==> after.Some? && after.value.updatedAt == calls[|calls| - 1].now
                          && 0.0 <= after.value.tokens <= calls[|calls| - 1].limit as real)
  {
    if calls != [] {
      var last := calls[|calls| - 1];
      TokensStay(b, calls[..|calls| - 1]);
      CheckBounds(After(b, calls[..|calls| - 1]), last.limit, last.now);
    }
  }

  predicate AllRefused(b: Option<Bucket>, calls: seq<Call>)
    requires Valid(calls)
  {
    forall i :: 0 < i <= |calls| ==> !LastAnswer(b, calls[..i]).allowed
  }

  /** Any number of calls that are all refused leaves every later answer, and the
      time from which calls are admitted again, as the first refusal fixed them. */
  lemma {:induction false} RefusalsAreFree(b: Option<Bucket>, limit: nat, calls: seq<Call>, later: int)
    requires limit >= 1 && Solvent(b) && Valid(calls) && Fixed(calls, limit) && Ordered(calls)
    requires AllRefused(b, calls)
    requires b.Some? && forall i :: 0 <= i < |calls| ==> b.value.updatedAt <= calls[i].now <= later
    ensures Check(After(b, calls), limit, later) == Check(b, limit, later)
  {
    if calls != [] {
      var init, last := calls[..|calls| - 1], calls[|calls| - 1];
      assert forall i :: 0 < i <= |init| ==> init[..i] == calls[..i];
      RefusalsAreFree(b, limit, init, later);
      TokensStay(b, init);
      assert calls[..|calls|] == calls;
      RefusalIsFree(After(b, init), limit, last.now, later);
    }
  }

  /** Waiting: after a refusal at `now` with a delay, every call before
      `now + delay` is refused however many are made, and whatever was made a later
      call is admitted exactly from `now + delay` on. */
  lemma {:induction false} WaitIsExact(b: Option<Bucket>, limit: nat, now: int, calls: seq<Call>, later: int)
    requires limit >= 1 && Solvent(b) && !Check(b, limit, now).0.allowed
    requires Valid(calls) && Fixed(calls, limit) && Ordered(calls)
    requires forall i :: 0 <= i < |calls| ==>
      now <= calls[i].now <= later && calls[i].now < now + Check(b, limit, now).0.delay
    ensures var (answer, after) := Check(b, limit, now);
      && AllRefused(Some(after), calls)
      && (Check(After(Some(after), calls), limit, later).0.allowed <==> later >= now + answer.delay)
  {
    var (answer, after) := Check(b, limit, now);
    CheckBounds(b, limit, now);
    DelayIsExact(b, limit, now, later);
    if calls != [] {
      var init, last := calls[..|calls| - 1], calls[|calls| - 1];
      WaitIsExact(b, limit, now, init, last.now);
      forall i | 0 < i <= |calls| ensures !LastAnswer(Some(after), calls[..i]).allowed {
        if i < |calls| {
          assert calls[..i] == init[..i];
        } else {
          assert calls[..i] == calls && calls[i - 1] == last;
        }
      }
      RefusalsAreFree(Some(after), limit, calls, later);
    }
  }

  // ---------------------------------------------------------------- the bound

  /** How many of the calls are admitted when they follow `before`. */
  function Admitted(b: Option<Bucket>, before: seq<Call>, calls: seq<Call>): nat
    requires Valid(before) && Valid(calls)
  {
    if calls == [] then 0
    else
      var n := |calls| - 1;
      Admitted(b, before, calls[..n]) + if LastAnswer(b, before + calls).allowed then 1 else 0
  }

  /** The sum of the positive timestamp increases from call to call. */
  function Rise(calls: seq<Call>): nat {
    if |calls| <= 1 then 0
    else Rise(calls[..|calls| - 1]) + Elapsed(calls[|calls| - 2].now, calls[|calls| - 1].now)
  }

  lemma {:induction false} RiseTelescopes(calls: seq<Call>)
    requires |calls| > 0 && Ordered(calls)
    ensures Rise(calls) == Elapsed(calls[0].now, calls[|calls| - 1].now)
  {
    if |calls| > 1 {
      RiseTelescopes(calls[..|calls| - 1]);
    }
  }

  /** The bound: in any stretch of calls with one limit, after any history and in
      any timestamp order, at most `limit` calls plus the refill of the timestamp
      increases are admitted; the tokens left over could still be spent. */
  lemma {:induction false} AdmittedBound(before: seq<Call>, calls: seq<Call>, limit: nat)
    requires limit >= 1 && Valid(before) && Valid(calls) && Fixed(calls, limit) && |calls| > 0
    ensures Admitted(None, before, calls) as real + After(None, before + calls).value.tokens
      <= limit as real + Gain(limit, Rise(calls))
    ensures 0.0 <= After(None, before + calls).value.tokens
  {
    var n := |calls| - 1;
    var earlier, last := before + calls[..n], calls[n];
    assert (before + calls)[..|before + calls| - 1] == earlier;
    assert (before + calls)[|before + calls| - 1] == last;
    StretchFacts(before, calls, limit);
    hide *;
    TokensStay(None, earlier);
    TokensStay(None, before + calls);
    AdmittedStep(before, calls);
    Spending(After(None, earlier), limit, last.now);
    if n > 0 {
      var ms := Elapsed(calls[n - 1].now, last.now);
      AdmittedBound(before, calls[..n], limit);
      assert earlier[|earlier| - 1] == calls[n - 1];
      var (answer, after) := Check(After(None, earlier), limit, last.now);
      OneMore(Admitted(None, before, calls[..n]), answer.allowed, After(None, earlier).value.tokens, after.tokens,
        limit, Rise(calls[..n]), ms);
    } else {
      GainAdds(limit, Rise(calls), 0);
      NobodyAdmitted(before, calls[..n]);
    }
  }

  lemma OneMore(admitted: nat, allowed: bool, before: real, after: real, limit: nat, rise: nat, ms: nat)
    requires admitted as real + before <= limit as real + Gain(limit, rise)
    requires after + (if allowed then 1.0 else 0.0) <= before + Gain(limit, ms)
    ensures (admitted + if allowed then 1 else 0) as real + after <= limit as real + Gain(limit, rise + ms)
  {
    GainAdds(limit, rise, ms);
    hide Gain;
  }

  lemma StretchFacts(before: seq<Call>, calls: seq<Call>, limit: nat)
    requires limit >= 1 && Valid(before) && Fixed(calls, limit) && |calls| > 0
    ensures var n := |calls| - 1;
      && Valid(before + calls) && Valid(before + calls[..n]) && Valid(calls[..n]) && Fixed(calls[..n], limit)
      && calls[n].limit == limit && Solvent(None)
      && (n > 0 ==> Rise(calls) == Rise(calls[..n]) + Elapsed(calls[n - 1].now, calls[n].now))
  {
  }

  /** What one check pays out and leaves is at most what was there and the refill. */
  lemma Spending(b: Option<Bucket>, limit: nat, now: int)
    requires limit >= 1
    ensures var (answer, after) := Check(b, limit, now);
      var total := after.tokens + if answer.allowed then 1.0 else 0.0;
      && total <= limit as real
      && (b.Some? ==> total <= b.value.tokens + Gain(limit, Elapsed(b.value.updatedAt, now)))
  {
    hide Gain, Ceil;
  }

  lemma NobodyAdmitted(before: seq<Call>, calls: seq<Call>)
    requires Valid(before) && calls == []
    ensures Admitted(None, before, calls) == 0
  {
  }

  lemma AdmittedStep(before: seq<Call>, calls: seq<Call>)
    requires Valid(before) && Valid(calls) && |calls| > 0
    requires Valid(before + calls[..|calls| - 1])
    requires (before + calls)[..|before + calls| - 1] == before + calls[..|calls| - 1]
    ensures var last, earlier := calls[|calls| - 1], After(None, before + calls[..|calls| - 1]);
      var (answer, after) := Check(earlier, last.limit, last.now);
      && After(None, before + calls) == Some(after)
      && Admitted(None, before, calls) == Admitted(None, before, calls[..|calls| - 1]) + if answer.allowed then 1 else 0
  {
    hide Check;
  }

  /** With timestamps in order the bound is the bucket plus the refill over the
      length of the stretch. */
  lemma WindowBound(before: seq<Call>, calls: seq<Call>, limit: nat)
    requires limit >= 1 && Valid(before) && Valid(calls) && Fixed(calls, limit) && |calls| > 0 && Ordered(calls)
    ensures Admitted(None, before, calls) as real
      <= limit as real + Gain(limit, Elapsed(calls[0].now, calls[|calls| - 1].now))
  {
    hide *;
    AdmittedBound(before, calls, limit);
    RiseTelescopes(calls);
  }

  // ---------------------------------------------------------------- expiry

  /** What the store still knows of an entry at its clock reading `at`. */
  function Lookup(e: Option<Entry>, at: int): Option<Bucket> {
    if e.Some? && at <= e.value.expiresAt then Some(e.value.bucket) else None
  }

  function CheckEntry(ttl: nat, e: Option<Entry>, call: Call): (Answer, Entry)
    requires call.limit >= 1
  {
    var at := call.now + call.lag;
    var (answer, after) := Check(Lookup(e, at), call.limit, call.now);
    (answer, Entry(after, at + ttl))
  }

  function EntryAfter(ttl: nat, calls: seq<Call>): Option<Entry>
    requires Valid(calls)
  {
    if calls == [] then None
    else Some(CheckEntry(ttl, EntryAfter(ttl, calls[..|calls| - 1]), calls[|calls| - 1]).1)
  }

  function LastExpiringAnswer(ttl: nat, calls: seq<Call>): Answer
    requires Valid(calls) && |calls| > 0
  {
    CheckEntry(ttl, EntryAfter(ttl, calls[..|calls| - 1]), calls[|calls| - 1]).0
  }

  predicate WithinLag(calls: seq<Call>, maxLag: nat) {
    forall i :: 0 <= i < |calls| ==> calls[i].lag <= maxLag
  }

  /** A bucket untouched for a second is full, whatever the limit now is. */
  lemma IdleBucketIsFull(b: Bucket, limit: nat, now: int)
    requires b.tokens >= 0.0 && now >= b.updatedAt + 1000
    ensures Refill(Some(b), limit, now) == Refill(None, limit, now)
  {
    var l, ms := limit as real, Elapsed(b.updatedAt, now) as real;
    ScaleMono(1000.0, ms, l);
    assert ms * l / 1000.0 >= l;
  }

  /** As long as keys live a second longer than the script's lag, the store that
      forgets gives every answer of a bucket that never expires, on every call
      sequence, in whatever order the clock was read, even when the limit changes from
      call to call. */
  lemma {:induction false} ForgettingIsInvisible(ttl: nat, maxLag: nat, calls: seq<Call>)
    requires Valid(calls) && WithinLag(calls, maxLag) && ttl + 1 >= maxLag + 1000
    ensures var e := EntryAfter(ttl, calls);
      && After(None, calls) == (if e.Some? then Some(e.value.bucket) else None)
      && (|calls| > 0 ==>
            && e.Some?
            && e.value.expiresAt == calls[|calls| - 1].now + calls[|calls| - 1].lag + ttl
            && LastExpiringAnswer(ttl, calls) == LastAnswer(None, calls))
  {
    if calls != [] {
      var init, last := calls[..|calls| - 1], calls[|calls| - 1];
      ForgettingIsInvisible(ttl, maxLag, init);
      TokensStay(None, init);
      var e := EntryAfter(ttl, init);
      if e.Some? && last.now + last.lag > e.value.expiresAt {
        var prev := init[|init| - 1];
        assert prev == calls[|calls| - 2];
        assert last.now >= prev.now + 1000;
        IdleBucketIsFull(e.value.bucket, last.limit, last.now);
      }
    }
  }

  ghost predicate Invisible(ttl: nat, maxLag: nat) {
    forall calls :: Valid(calls) && WithinLag(calls, maxLag) && |calls| > 0 ==>
      LastExpiringAnswer(ttl, calls) == LastAnswer(None, calls)
  }

  /** Expiry is invisible exactly when keys outlive the lag by a second; the 2000 ms
      of the script allow a lag of one second. */
  lemma ExpiryIsInvisible(ttl: nat, maxLag: nat)
    ensures Invisible(ttl, maxLag) <==> ttl + 1 >= maxLag + 1000
    ensures Invisible(TTL, 1000)
  {
    if ttl + 1 >= maxLag + 1000 {
      forall calls | Valid(calls) && WithinLag(calls, maxLag) && |calls| > 0
        ensures LastExpiringAnswer(ttl, calls) == LastAnswer(None, calls)
      {
        ForgettingIsInvisible(ttl, maxLag, calls);
      }
    } else {
      var calls := ForgottenTooSoon(ttl, maxLag);
      assert LastExpiringAnswer(ttl, calls) != LastAnswer(None, calls);
    }
    forall calls | Valid(calls) && WithinLag(calls, 1000) && |calls| > 0
      ensures LastExpiringAnswer(TTL, calls) == LastAnswer(None, calls)
    {
      ForgettingIsInvisible(TTL, 1000, calls);
    }
  }

  /** Two calls at limit 1, less than a second apart, of which the second is
      admitted because the key is gone. */
  lemma ForgottenTooSoon(ttl: nat, maxLag: nat) returns (calls: seq<Call>)
    requires ttl + 1 < maxLag + 1000
    ensures Valid(calls) && Ordered(calls) && WithinLag(calls, maxLag) && |calls| == 2
    ensures LastExpiringAnswer(ttl, calls).allowed && !LastAnswer(None, calls).allowed
  {
    var lag := if maxLag <= ttl + 1 then maxLag else ttl + 1;
    var first, second := Call(1, 0, 0), Call(1, ttl + 1 - lag, lag);
    calls := [first, second];
    assert calls[..1] == [first] && [first][..0] == [];
    assert Check(None, 1, 0).1 == Bucket(0.0, 0);
    assert After(None, [first]) == Some(Bucket(0.0, 0));
    assert EntryAfter(ttl, [first]) == Some(Entry(Bucket(0.0, 0), ttl));
  }

  function AdmittedByStore(ttl: nat, before: seq<Call>, calls: seq<Call>): nat
    requires Valid(before) && Valid(calls)
  {
    if calls == [] then 0
    else
      AdmittedByStore(ttl, before, calls[..|calls| - 1])
        + if LastExpiringAnswer(ttl, before + calls).allowed then 1 else 0
  }

  lemma StoreCount(before: seq<Call>, calls: seq<Call>)
    requires Valid(before) && Valid(calls) && |calls| > 0
    ensures Valid(calls[..|calls| - 1]) && Valid(before + calls)
    ensures AdmittedByStore(TTL, before, calls) == AdmittedByStore(TTL, before, calls[..|calls| - 1])
      + if LastExpiringAnswer(TTL, before + calls).allowed then 1 else 0
  {
    hide LastExpiringAnswer;
  }

  lemma NoneAdmitted(before: seq<Call>)
    requires Valid(before)
    ensures Valid([]) && AdmittedByStore(TTL, before, []) == 0
  {
  }

  lemma {:induction false} StoreAdmitsTheSame(ttl: nat, maxLag: nat, before: seq<Call>, calls: seq<Call>)
    requires Valid(before) && Valid(calls) && WithinLag(before + calls, maxLag)
    requires ttl + 1 >= maxLag + 1000
    ensures AdmittedByStore(ttl, before, calls) == Admitted(None, before, calls)
  {
    if calls != [] {
      var init := calls[..|calls| - 1];
      assert before + init == (before + calls)[..|before + calls| - 1];
      StoreAdmitsTheSame(ttl, maxLag, before, init);
      ForgettingIsInvisible(ttl, maxLag, before + calls);
    }
  }

  /** The bound for the store itself: in any stretch of calls with one limit, in
      whatever order the clock was read. */
  lemma StoreBound(before: seq<Call>, calls: seq<Call>, limit: nat)
    requires limit >= 1 && Valid(before) && Valid(calls) && Fixed(calls, limit) && |calls| > 0
    requires WithinLag(before + calls, 1000)
    ensures AdmittedByStore(TTL, before, calls) as real <= limit as real + Gain(limit, Rise(calls))
  {
    hide *;
    TtlIsEnough();
    StoreAdmitsTheSame(TTL, 1000, before, calls);
    AdmittedBound(before, calls, limit);
  }

  lemma TtlIsEnough()
    ensures TTL + 1 >= 1000 + 1000
  {
  }

  // ---------------------------------------------------------------- windows

  predicate InWindow(calls: seq<Call>, from: int, to: int) {
    forall i :: 0 <= i < |calls| ==> from <= calls[i].now <= to
  }

  /** With readings in order, the calls of a window number at most the bucket plus the
      refill over the window. */
  lemma StoreWindowBound(before: seq<Call>, calls: seq<Call>, limit: nat, from: int, to: int)
    requires limit >= 1 && Valid(before) && Valid(calls) && Fixed(calls, limit)
    requires WithinLag(before + calls, 1000) && Ordered(calls) && InWindow(calls, from, to) && from <= to
    ensures AdmittedByStore(TTL, before, calls) as real <= limit as real + Gain(limit, Elapsed(from, to))
  {
    if |calls| > 0 {
      assert Elapsed(calls[0].now, calls[|calls| - 1].now) <= Elapsed(from, to);
      hide *;
      StoreBound(before, calls, limit);
      RiseTelescopes(calls);
      GainGrows(limit, Rise(calls), Elapsed(from, to));
    } else {
      GainAdds(limit, Elapsed(from, to), 0);
      hide Gain;
    }
  }

  /** No reading is more than `back` ms behind an earlier one. */
  predicate BackAtMost(calls: seq<Call>, back: nat) {
    forall i, j :: 0 <= i < j < |calls| ==> calls[i].now - calls[j].now <= back
  }

  /** The window bound, for every limit and every sequence of calls whose readings go
      back at most `back` ms. */
  ghost predicate WindowsHold(back: nat) {
    forall calls, limit, from, to :: WindowFits(calls, limit, back, from, to) ==> WindowHolds(calls, limit, from, to)
  }

  predicate WindowFits(calls: seq<Call>, limit: nat, back: nat, from: int, to: int) {
    && limit >= 1 && Valid(calls) && Fixed(calls, limit) && WithinLag(calls, 1000)
    && BackAtMost(calls, back) && InWindow(calls, from, to) && from <= to
  }

  predicate WindowHolds(calls: seq<Call>, limit: nat, from: int, to: int)
    requires Valid(calls)
  {
    AdmittedByStore(TTL, [], calls) as real <= limit as real + Gain(limit, Elapsed(from, to))
  }

  /** The window bound holds exactly if clock readings never go back: a single
      millisecond is enough to break it, because a late reading sets the bucket's date
      back and the next call is paid for the same time again. */
  lemma WindowsHoldExactly(back: nat)
    ensures WindowsHold(back) <==> back == 0
  {
    if back == 0 {
      forall calls, limit, from, to | WindowFits(calls, limit, 0, from, to)
        ensures WindowHolds(calls, limit, from, to) {
        assert [] + calls == calls;
        StoreWindowBound([], calls, limit, from, to);
      }
    } else {
      var calls := Zigzag(1002);
      ZigzagFits(1002);
      ZigzagAdmits(1002);
      assert WindowFits(calls, 1000, back, 0, 1);
      assert !WindowHolds(calls, 1000, 0, 1) by { assert Gain(1000, Elapsed(0, 1)) == 1.0; hide AdmittedByStore; }
      hide WindowFits, WindowHolds;
    }
  }

  /** Pairs of calls whose scripts run at time 1, the first with the clock read at 0. */
  function Zigzag(n: nat): (calls: seq<Call>)
    ensures |calls| == 2 * n
  {
    if n == 0 then [] else Zigzag(n - 1) + [EARLY, LATE]
  }

  const EARLY: Call := Call(1000, 0, 1)
  const LATE: Call := Call(1000, 1, 0)

  lemma {:induction false} ZigzagFits(n: nat)
    ensures forall i :: 0 <= i < 2 * n ==>
      Zigzag(n)[i].limit == 1000 && 0 <= Zigzag(n)[i].now <= 1 && Zigzag(n)[i].lag <= 1
    ensures WindowFits(Zigzag(n), 1000, 1, 0, 1)
  {
    if n > 0 {
      ZigzagFits(n - 1);
    }
  }

  /** The second call of each pair is admitted. */
  lemma {:induction false} ZigzagAdmits(n: nat)
    ensures Valid(Zigzag(n)) && AdmittedByStore(TTL, [], Zigzag(n)) >= n
  {
    ZigzagFits(n);
    if n > 0 {
      ZigzagAdmits(n - 1);
      ZigzagFits(n - 1);
      PairAdmits(Zigzag(n - 1));
      hide AdmittedByStore, WindowFits;
      assert Zigzag(n) == Zigzag(n - 1) + [EARLY, LATE];
    }
  }

  lemma PairAdmits(calls: seq<Call>)
    requires Valid(calls) && WithinLag(calls, 1000)
    ensures Valid(calls + [EARLY, LATE])
    ensures AdmittedByStore(TTL, [], calls + [EARLY, LATE]) >= AdmittedByStore(TTL, [], calls) + 1
  {
    var mid, all := calls + [EARLY], calls + [EARLY, LATE];
    assert mid[..|mid| - 1] == calls && all[..|all| - 1] == mid && [] + all == all;
    assert Valid(mid) && Valid(all) && WithinLag(all, 1000) && Valid([]);
    assert all[|all| - 2] == EARLY && all[|all| - 1] == LATE;
    LateIsAdmitted(all);
    hide AdmittedByStore, LastExpiringAnswer, Valid, WithinLag;
    StoreCount([], all);
    StoreCount([], mid);
  }

  /** A call read a millisecond after the last one is admitted at limit 1000. */
  lemma LateIsAdmitted(calls: seq<Call>)
    requires |calls| > 1 && Valid(calls) && WithinLag(calls, 1000)
    requires calls[|calls| - 2].now == 0 && calls[|calls| - 1].now == 1 && calls[|calls| - 1].limit == 1000
    ensures LastExpiringAnswer(TTL, calls).allowed
  {
    ForgettingIsInvisible(TTL, 1000, calls);
    TokensStay(None, calls[..|calls| - 1]);
    var b := After(None, calls[..|calls| - 1]);
    assert b.value.updatedAt == 0;
    assert Gain(1000, 1) == 1.0;
    hide LastExpiringAnswer, After;
  }

  // ---------------------------------------------------------------- one check, spelled out

  /** The tokens at hand: `limit` in a new bucket; else those left, and `limit` for every
      second since, but not for time that goes back, and never more than `limit`. */
  predicate IsAtHand(b: Option<Bucket>, limit: nat, now: int, tokens: real) {
    match b
    case None => tokens == limit as real
    case Some(Bucket(left, since)) =>
      var filled := left + (if now > since then (now - since) as real * limit as real / 1000.0 else 0.0);
      tokens == if filled < limit as real then filled else limit as real
  }

  /** One run of the script on a stored entry, apart from the functions that compute it.
      An entry is known until its time; a whole token at hand is taken; otherwise the
      delay is the least number of milliseconds that fills the bucket to one; the count is
      what is missing from the limit, rounded up; and the entry lives on for two seconds. */
  lemma CheckIsExact(e: Option<Entry>, call: Call, tokens: real)
    requires call.limit >= 1
    requires IsAtHand(if e.Some? && call.now + call.lag <= e.value.expiresAt then Some(e.value.bucket) else None,
      call.limit, call.now, tokens)
    ensures var (answer, entry) := CheckEntry(TTL, e, call);
      && (answer.allowed <==> tokens >= 1.0)
      && entry.bucket == Bucket(if tokens >= 1.0 then tokens - 1.0 else tokens, call.now)
      && entry.expiresAt == call.now + call.lag + 2000
      && (if tokens >= 1.0 then answer.delay == 0
          else (answer.delay - 1) as real * call.limit as real < (1.0 - tokens) * 1000.0
            <= answer.delay as real * call.limit as real)
      && answer.count as real - 1.0 < call.limit as real - entry.bucket.tokens <= answer.count as real
  {
    var known := Lookup(e, call.now + call.lag);
    AtHandIsRefill(known, call.limit, call.now, tokens);
    CheckIs(known, call.limit, call.now);
    CeilIsLeast(call.limit as real - (tokens - 1.0), 0);
    CeilIsLeast(call.limit as real - tokens, 0);
    DelayIs(1.0 - tokens, call.limit);
    hide Check, Refill, Ceil, Delay;
  }

  lemma AtHandIsRefill(b: Option<Bucket>, limit: nat, now: int, tokens: real)
    requires IsAtHand(b, limit, now, tokens)
    ensures Refill(b, limit, now) == tokens
  {
  }

  lemma DelayIs(missing: real, limit: nat)
    requires limit >= 1
    ensures (Delay(missing, limit) - 1) as real * limit as real < missing * 1000.0
      <= Delay(missing, limit) as real * limit as real
  {
    var l := limit as real;
    var needed := missing * 1000.0 / l;
    var ms := Ceil(needed);
    CeilIsLeast(needed, 0);
    assert needed * l == missing * 1000.0;
    Scaled((ms - 1) as real, needed, ms as real, l, missing * 1000.0);
  }

  lemma Scaled(a: real, x: real, b: real, l: real, total: real)
    requires a < x <= b && l > 0.0 && x * l == total
    ensures a * l < total <= b * l
  {
    ScaleStrict(a, x, l);
    ScaleMono(x, b, l);
  }

  // ---------------------------------------------------------------- a full bucket

  predicate AtOnce(calls: seq<Call>, limit: nat, at: int) {
    forall i :: 0 <= i < |calls| ==> calls[i].limit == limit && calls[i].now == at
  }

  /** The calls before, if any, ended at least a second ago. */
  predicate IsIdle(before: seq<Call>, at: int) {
    before == [] || before[|before| - 1].now + 1000 <= at
  }

  /** The tokens of a new or idle bucket after some calls at one instant. */
  lemma {:induction false} TokensAtOnce(before: seq<Call>, calls: seq<Call>, limit: nat, at: int)
    requires limit >= 1 && Valid(before) && Valid(before + calls) && AtOnce(calls, limit, at) && IsIdle(before, at)
    ensures Valid(calls)
    ensures var n := if |calls| <= limit then |calls| else limit;
      && Admitted(None, before, calls) == n
      && (|calls| > 0 ==> After(None, before + calls) == Some(Bucket((limit - n) as real, at)))
  {
    if calls != [] {
      var init, last := calls[..|calls| - 1], calls[|calls| - 1];
      assert before + init == (before + calls)[..|before + calls| - 1];
      assert (before + calls)[|before + calls| - 1] == last;
      TokensAtOnce(before, init, limit, at);
      AdmittedStep(before, calls);
      assert Elapsed(at, at) == 0 && Gain(limit, 0) == 0.0;
      if init == [] {
        assert before + init == before;
        FullAtFirst(before, limit, at);
      }
      hide Admitted, After, Gain, Ceil;
    }
  }

  lemma FullAtFirst(before: seq<Call>, limit: nat, at: int)
    requires limit >= 1 && Valid(before) && IsIdle(before, at)
    ensures Refill(After(None, before), limit, at) == limit as real
  {
    TokensStay(None, before);
    if before != [] {
      IdleBucketIsFull(After(None, before).value, limit, at);
    }
    hide After;
  }

  /** A bucket that is new, or was not asked for a second, admits `limit` calls at one
      instant and no more. */
  lemma FullBucketAdmits(before: seq<Call>, calls: seq<Call>, limit: nat, at: int)
    requires limit >= 1 && Valid(before) && Valid(calls) && WithinLag(before + calls, 1000)
    requires AtOnce(calls, limit, at) && IsIdle(before, at)
    ensures AdmittedByStore(TTL, before, calls) == if |calls| <= limit then |calls| else limit
  {
    StoreAdmitsTheSame(TTL, 1000, before, calls);
    TokensAtOnce(before, calls, limit, at);
    hide AdmittedByStore, Admitted, After;
  }

  // ---------------------------------------------------------------- the adapter

  /** The store as the adapter's script changes it: hashes under string keys, with
      expiry times. */
  class RedisRateLimiter {
    var hashes: map<string, Entry>

    constructor ()
      ensures hashes == map[]
    {
      hashes := map[];
    }

    function EntryAt(key: string): (e: Option<Entry>)
      reads this
    {
      if key in hashes then Some(hashes[key]) else None
    }

    predicate Valid()
      reads this
    {
      forall key :: key in hashes ==> hashes[key].bucket.tokens >= 0.0
    }

    method CheckRateLimit(scope: string, call: Call) returns (exceeded: bool, delayMs: int, currentRequests: int)
      requires call.limit >= 1
      modifies this
      ensures old(Valid()) ==> Valid()
      ensures var (answer, entry) := CheckEntry(TTL, old(EntryAt("rate-limit:" + scope)), call);
        && exceeded == !answer.allowed && delayMs == answer.delay && currentRequests == answer.count
        && hashes == old(hashes)["rate-limit:" + scope := entry]
      ensures delayMs >= 0 && (!exceeded ==> delayMs == 0)
    {
      var key, at := "rate-limit:" + scope, call.now + call.lag;
      if key in hashes && hashes[key].expiresAt < at {
        hashes := hashes - {key};
      }
      var limit := call.limit as real;
      var tokens, updatedAt := limit, call.now;
      if key in hashes {
        tokens, updatedAt := hashes[key].bucket.tokens, hashes[key].bucket.updatedAt;
      }
      ghost var known := Lookup(old(EntryAt(key)), at);
      assert if known.Some? then known.value == Bucket(tokens, updatedAt) else tokens == limit && updatedAt == call.now;
      hide Refill, Gain, Delay, Ceil, Check, Lookup, Min;
      RefillIs(known, call.limit, call.now, tokens, updatedAt);
      CheckIs(known, call.limit, call.now);
      if old(Valid()) {
        CheckBounds(known, call.limit, call.now);
      }
      var elapsed := if call.now - updatedAt > 0 then call.now - updatedAt else 0;
      tokens := Min(limit, tokens + Gain(call.limit, elapsed));
      var allowed := tokens >= 1.0;
      var delay := 0;
      if allowed {
        tokens := tokens - 1.0;
      } else {
        delay := Delay(1.0 - tokens, call.limit);
      }
      hashes := hashes[key := Entry(Bucket(tokens, call.now), at + TTL)];
      return !allowed, delay, Ceil(limit - tokens);
    }
  }

  lemma RefillIs(b: Option<Bucket>, limit: nat, now: int, tokens: real, updatedAt: int)
    requires if b.Some? then b.value == Bucket(tokens, updatedAt) else tokens == limit as real && updatedAt == now
    ensures var elapsed := if now - updatedAt > 0 then now - updatedAt else 0;
      Refill(b, limit, now) == Min(limit as real, tokens + Gain(limit, elapsed))
  {
    GainAdds(limit, 0, 0);
  }

  lemma CheckIs(b: Option<Bucket>, limit: nat, now: int)
    requires limit >= 1
    ensures var tokens, l := Refill(b, limit, now), limit as real;
      Check(b, limit, now) ==
        if tokens >= 1.0 then (Answer(true, 0, Ceil(l - (tokens - 1.0))), Bucket(tokens - 1.0, now))
        else (Answer(false, Delay(1.0 - tokens, limit), Ceil(l - tokens)), Bucket(tokens, now))
    ensures Check(b, limit, now).0.delay >= 0
  {
    hide Refill;
    var tokens := Refill(b, limit, now);
    CeilIsLeast((1.0 - tokens) * 1000.0 / limit as real, -1);
  }
}
