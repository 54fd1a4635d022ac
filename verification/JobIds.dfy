/** Queue job ids: the outbox id and the publish counter rendered into one
    string.  Deduplication in the queue is by this string, so the protocol
    depends on its being injective. */
module JobIds {
  import opened Domain

  function Digit(n: nat): (c: char)
    requires n < 10
    ensures c != '-'
  {
    "0123456789"[n]
  }

  /** Decimal rendering of a counter. */
  function Decimal(n: nat): (s: string)
    ensures |s| > 0
    ensures '-' !in s
  {
    if n < 10 then [Digit(n)] else Decimal(n / 10) + [Digit(n % 10)]
  }

  function JobId(outbox: Id, counter: nat): string {
    "outbox-" + outbox + "-" + Decimal(counter)
  }

  function LegacyJobId(outbox: Id): string {
    "outbox-" + outbox
  }

  lemma {:induction false} DecimalInjective(m: nat, n: nat)
    requires Decimal(m) == Decimal(n)
    ensures m == n
  {
    if m < 10 || n < 10 {
      assert Decimal(m)[0] == Decimal(n)[0];
    } else {
      var a, b := Decimal(m / 10), Decimal(n / 10);
      assert Decimal(m) == a + [Digit(m % 10)] && Decimal(n) == b + [Digit(n % 10)];
      assert a == Decimal(m)[..|a|] && b == Decimal(n)[..|b|];
      assert Digit(m % 10) == Decimal(m)[|a|];
      assert Digit(n % 10) == Decimal(n)[|b|];
      DecimalInjective(m / 10, n / 10);
    }
  }

  /** A text without dashes is determined by what follows the last dash. */
  lemma LastDash(a: string, x: string, b: string, y: string)
    requires a + "-" + x == b + "-" + y
    requires '-' !in x && '-' !in y
    ensures a == b && x == y
  {
    var whole := a + "-" + x;
    assert whole[|a|] == '-' && whole[|b|] == '-';
    assert |a| == |b|;
    assert a == whole[..|a|] && b == (b + "-" + y)[..|b|];
    assert x == whole[|a| + 1..] && y == (b + "-" + y)[|b| + 1..];
  }

  /** Job ids are injective over every pair of an outbox id and a counter, with
      no assumption on the shape of the ids. */
  lemma JobIdInjective(a: Id, m: nat, b: Id, n: nat)
    requires JobId(a, m) == JobId(b, n)
    ensures a == b && m == n
  {
    var p, q := "outbox-" + a, "outbox-" + b;
    assert p + "-" + Decimal(m) == JobId(a, m);
    LastDash(p, Decimal(m), q, Decimal(n));
    assert a == p[7..] && b == q[7..];
    DecimalInjective(m, n);
  }

  /** Ids of equal length, as uuids are, never let a current job id be taken for
      the legacy id of another row. */
  lemma LegacyIdIsDistinct(a: Id, b: Id, n: nat)
    ensures JobId(a, n) == LegacyJobId(b) <==> b == a + "-" + Decimal(n)
    ensures |a| == |b| ==> JobId(a, n) != LegacyJobId(b)
  {
    assert JobId(a, n)[7..] == a + "-" + Decimal(n);
    assert LegacyJobId(b)[7..] == b;
    assert JobId(a, n) == "outbox-" + (a + "-" + Decimal(n));
  }
}
