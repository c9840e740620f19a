/** The token bucket that limits the requests of a connection. Times are in seconds. */
module RateLimit {
  import opened Options

  datatype Limits = Limits(rate: real, burst: real)

  datatype Bucket = Bucket(tokens: real, last: real)

  /** A bucket of a connection that has none yet: full, and last used a second ago. */
  function NewBucket(l: Limits, now: real): Bucket {
    Bucket(l.burst, now - 1.0)
  }

  /** What is refilled in a span of time. */
  function Refilled(l: Limits, span: real): real {
    span * l.rate
  }

  function Refill(l: Limits, b: Bucket, now: real): Bucket {
    var tokens := b.tokens + Refilled(l, now - b.last);
    Bucket(if tokens > l.burst then l.burst else tokens, now)
  }

  /** The bucket that a request at this time finds, refilled. */
  function Found(l: Limits, stored: Option<Bucket>, now: real): Bucket {
    Refill(l, if stored.Some? then stored.value else NewBucket(l, now), now)
  }

  function Admits(l: Limits, stored: Option<Bucket>, now: real): bool {
    Found(l, stored, now).tokens >= 1.0
  }

  /** What is stored afterwards: a refused request updates a stored bucket, but stores no new one. */
  function Next(l: Limits, stored: Option<Bucket>, now: real): Option<Bucket> {
    var b := Found(l, stored, now);
    if Admits(l, stored, now) then Some(b.(tokens := b.tokens - 1.0))
    else if stored.Some? then Some(b) else None
  }

  /** The storage of one connection. */
  class Connection {
    const limits: Limits
    var stored: bool
    var tokens: real
    var last: real

    constructor (limits: Limits)
      ensures this.limits == limits && Storage() == None
    {
      this.limits, stored, tokens, last := limits, false, 0.0, 0.0;
    }

    function Storage(): Option<Bucket>
      reads this
    {
      if stored then Some(Bucket(tokens, last)) else None
    }

    method Request(now: real) returns (ok: bool)
      modifies this
      ensures ok <==> Admits(limits, old(Storage()), now)
      ensures Storage() == Next(limits, old(Storage()), now)
    {
      if !stored {
        tokens, last := limits.burst, now - 1.0;
      }
      var elapsed := now - last;
      last := now;
      tokens := tokens + Refilled(limits, elapsed);
      if tokens > limits.burst {
        tokens := limits.burst;
      }
      if tokens < 1.0 { return false; }
      tokens := tokens - 1.0;
      stored := true;
      return true;
    }
  }

  // ---------- Runs of requests ----------

  predicate Valid(l: Limits) {
    l.rate >= 0.0 && l.burst >= 0.0
  }

  predicate Clock(times: seq<real>) {
    forall i, j :: 0 <= i <= j < |times| ==> times[i] <= times[j]
  }

  /** What is stored after the first n requests. */
  function After(l: Limits, times: seq<real>, n: nat): Option<Bucket>
    requires n <= |times|
  {
    if n == 0 then None else Next(l, After(l, times, n - 1), times[n - 1])
  }

  predicate AdmittedAt(l: Limits, times: seq<real>, i: nat)
    requires i < |times|
  {
    Admits(l, After(l, times, i), times[i])
  }

  /** How many of the requests i up to, but not including, j are admitted. */
  function Admitted(l: Limits, times: seq<real>, i: nat, j: nat): nat
    requires i <= j <= |times|
  {
    if i == j then 0 else Admitted(l, times, i, j - 1) + if AdmittedAt(l, times, j - 1) then 1 else 0
  }

  /** A new bucket is found full. */
  lemma FreshFull(l: Limits, now: real)
    requires l.rate >= 0.0
    ensures Found(l, None, now) == Bucket(l.burst, now)
  {
    assert now - (now - 1.0) == 1.0;
    RefillAdds(l, 1.0);
  }

  lemma StepBounded(l: Limits, b: Bucket, now: real)
    requires Valid(l) && 0.0 <= b.tokens <= l.burst && b.last <= now
    ensures var next := Next(l, Some(b), now);
      next.Some? && 0.0 <= next.value.tokens <= l.burst && next.value.last == now
  {
    RefillAdds(l, now - b.last);
  }

  /** Between requests the tokens stay between zero and the burst, and the bucket was last
      used at the time of the last request. */
  lemma {:induction false} TokensBounded(l: Limits, times: seq<real>, n: nat)
    requires Valid(l) && Clock(times) && n <= |times| && After(l, times, n).Some?
    ensures 0.0 <= After(l, times, n).value.tokens <= l.burst
    ensures n > 0 && After(l, times, n).value.last == times[n - 1]
  {
    if After(l, times, n - 1).Some? {
      TokensBounded(l, times, n - 1);
      StepBounded(l, After(l, times, n - 1).value, times[n - 1]);
    } else {
      FreshFull(l, times[n - 1]);
    }
  }

  lemma RefillAdds(l: Limits, elapsed: real)
    requires l.rate >= 0.0 && elapsed >= 0.0
    ensures Refilled(l, elapsed) >= 0.0
  {}

  /** Below a burst of one, no request is ever admitted, nor any bucket stored. */
  lemma {:induction false} NothingBelowOne(l: Limits, times: seq<real>, n: nat)
    requires Valid(l) && l.burst < 1.0 && n <= |times|
    ensures After(l, times, n) == None && (n < |times| ==> !AdmittedAt(l, times, n))
  {
    if n > 0 {
      NothingBelowOne(l, times, n - 1);
    }
  }

  /** From a burst of one on, the first request is admitted and its bucket stored for good. */
  lemma {:induction false} StoredForGood(l: Limits, times: seq<real>, n: nat)
    requires Valid(l) && l.burst >= 1.0 && n <= |times|
    ensures n > 0 ==> After(l, times, n).Some?
    ensures n == 0 < |times| ==> AdmittedAt(l, times, 0)
  {
    if n > 1 {
      StoredForGood(l, times, n - 1);
    } else if n == 1 {
      FreshFull(l, times[0]);
    } else if |times| > 0 {
      FreshFull(l, times[0]);
    }
  }

  /** What may be admitted from one time to another: the burst, and what is refilled meanwhile. */
  function Allowance(l: Limits, start: real, end: real): real {
    l.burst + Refilled(l, end - start)
  }

  /** The requests admitted since a time, together with the tokens that are left, are no more
      than the burst and what has been refilled since. */
  predicate Balanced(l: Limits, b: Bucket, start: real, admitted: real) {
    admitted + b.tokens <= Allowance(l, start, b.last)
  }

  function Cost(l: Limits, stored: Option<Bucket>, now: real): nat {
    if Admits(l, stored, now) then 1 else 0
  }

  lemma {:induction false} SpanUses(l: Limits, times: seq<real>, i: nat, j: nat)
    requires Valid(l) && l.burst >= 1.0 && Clock(times) && i < j <= |times|
    ensures After(l, times, j).Some?
    ensures Balanced(l, After(l, times, j).value, times[i], Admitted(l, times, i, j) as real)
  {
    StoredForGood(l, times, j);
    if j == i + 1 {
      assert Admitted(l, times, i, i) == 0;
      FirstSpends(l, After(l, times, i), times[i]);
    } else {
      SpanUses(l, times, i, j - 1);
      RequestSpends(l, After(l, times, j - 1).value, times[j - 1], times[i], Admitted(l, times, i, j - 1));
    }
  }

  lemma FirstSpends(l: Limits, stored: Option<Bucket>, now: real)
    requires Next(l, stored, now).Some?
    ensures Balanced(l, Next(l, stored, now).value, now, Cost(l, stored, now) as real)
  {
    RequestUses(l, stored, now);
    SpanSplits(l, now, now, now);
  }

  /** One more request keeps the balance of a span that began at this time. */
  lemma RequestSpends(l: Limits, b: Bucket, now: real, start: real, admitted: nat)
    requires Next(l, Some(b), now).Some? && Balanced(l, b, start, admitted as real)
    ensures Balanced(l, Next(l, Some(b), now).value, start, (admitted + Cost(l, Some(b), now)) as real)
  {
    RequestUses(l, Some(b), now);
    SpanSplits(l, start, b.last, now);
  }

  lemma SpanSplits(l: Limits, a: real, b: real, c: real)
    ensures Refilled(l, c - b) + Refilled(l, b - a) == Refilled(l, c - a)
    ensures Refilled(l, a - a) == 0.0
  {}

  /** A request costs a token if it is admitted; what it found was at most the burst, and at
      most the old tokens with what has been refilled. */
  lemma RequestUses(l: Limits, stored: Option<Bucket>, now: real)
    requires Next(l, stored, now).Some?
    ensures Next(l, stored, now).value.tokens + (if Admits(l, stored, now) then 1.0 else 0.0) <= l.burst
    ensures stored.Some? ==> Next(l, stored, now).value.tokens + (if Admits(l, stored, now) then 1.0 else 0.0)
                             <= stored.value.tokens + Refilled(l, now - stored.value.last)
  {}

  /** In any span of time at most burst + rate * span requests are admitted. */
  lemma SpanBound(l: Limits, times: seq<real>, i: nat, j: nat, span: real)
    requires Valid(l) && Clock(times) && i < j <= |times| && span == times[j - 1] - times[i]
    ensures Admitted(l, times, i, j) as real <= l.burst + l.rate * span
  {
    SpanWithin(l, times, i, j);
    WithinIs(l, times[i], times[j - 1], span, Admitted(l, times, i, j) as real);
  }

  lemma WithinIs(l: Limits, start: real, end: real, span: real, admitted: real)
    requires admitted <= Allowance(l, start, end) && span == end - start
    ensures admitted <= l.burst + l.rate * span
  {
    RefilledIs(l, start, end);
  }

  lemma SpanWithin(l: Limits, times: seq<real>, i: nat, j: nat)
    requires Valid(l) && Clock(times) && i < j <= |times|
    ensures Admitted(l, times, i, j) as real <= Allowance(l, times[i], times[j - 1])
  {
    if l.burst < 1.0 {
      NoneAdmitted(l, times, i, j);
      AllowanceNonNegative(l, times[i], times[j - 1]);
    } else {
      SpanUses(l, times, i, j);
      TokensBounded(l, times, j);
      BalancedBound(l, After(l, times, j).value, times[i], Admitted(l, times, i, j) as real, times[j - 1]);
    }
  }

  lemma AllowanceNonNegative(l: Limits, start: real, end: real)
    requires Valid(l) && start <= end
    ensures Allowance(l, start, end) >= 0.0
  {
    RefillAdds(l, end - start);
  }

  lemma BalancedBound(l: Limits, b: Bucket, start: real, admitted: real, end: real)
    requires Balanced(l, b, start, admitted) && b.tokens >= 0.0 && b.last == end
    ensures admitted <= Allowance(l, start, end)
  {}

  lemma {:induction false} NoneAdmitted(l: Limits, times: seq<real>, i: nat, j: nat)
    requires Valid(l) && l.burst < 1.0 && i <= j <= |times|
    ensures Admitted(l, times, i, j) == 0
    decreases j
  {
    if i < j {
      NoneAdmitted(l, times, i, j - 1);
      NothingBelowOne(l, times, j - 1);
    }
  }

  /** The exact balance: the first request is admitted and leaves all tokens but one. Any later one
      finds the tokens that the one before left and those for the time since, up to the burst; it
      is admitted if that is a token or more, and then takes one. */
  lemma TokensEvolve(l: Limits, times: seq<real>, n: nat)
    requires Valid(l) && Clock(times) && l.burst >= 1.0 && n < |times|
    ensures After(l, times, n + 1).Some? && (n > 0 ==> After(l, times, n).Some?)
    ensures n == 0 ==> AdmittedAt(l, times, 0) && After(l, times, 1).value.tokens == l.burst - 1.0
    ensures n > 0 ==>
      var due := After(l, times, n).value.tokens + l.rate * (times[n] - times[n - 1]);
      var found := if due > l.burst then l.burst else due;
      && (AdmittedAt(l, times, n) <==> found >= 1.0)
      && After(l, times, n + 1).value.tokens == if found >= 1.0 then found - 1.0 else found
  {
    StoredForGood(l, times, n + 1);
    StoredForGood(l, times, n);
    if n == 0 {
      FreshFull(l, times[0]);
    } else {
      var b := After(l, times, n).value;
      TokensBounded(l, times, n);
      NextIs(l, b, times[n], b.tokens + l.rate * (times[n] - times[n - 1]));
    }
  }

  lemma NextIs(l: Limits, b: Bucket, now: real, due: real)
    requires due == b.tokens + l.rate * (now - b.last)
    ensures var found := if due > l.burst then l.burst else due;
      && (Admits(l, Some(b), now) <==> found >= 1.0)
      && Next(l, Some(b), now) == Some(Bucket(if found >= 1.0 then found - 1.0 else found, now))
  {
    RefilledIs(l, b.last, now);
  }

  lemma RefilledIs(l: Limits, start: real, end: real)
    ensures Refilled(l, end - start) == l.rate * (end - start)
  {}

  /** A client that leaves at least 1 / rate between its requests is never refused, exactly if
      the burst is at least one. */
  lemma SpacedNeverRefused(l: Limits, times: seq<real>)
    requires Valid(l) && Clock(times) && times != []
    requires forall i :: 0 < i < |times| ==> l.rate * (times[i] - times[i - 1]) >= 1.0
    ensures l.burst >= 1.0 <==> forall i :: 0 <= i < |times| ==> AdmittedAt(l, times, i)
  {
    if l.burst >= 1.0 {
      forall i | 0 <= i < |times| ensures AdmittedAt(l, times, i) {
        StoredForGood(l, times, i);
        if i > 0 {
          TokensBounded(l, times, i);
          TokensEvolve(l, times, i);
        }
      }
    } else {
      NothingBelowOne(l, times, 0);
    }
  }

  /** No time, no refill. */
  lemma AtOnce(l: Limits, b: Bucket)
    requires b.tokens <= l.burst
    ensures Found(l, Some(b), b.last) == b
  {
    SpanSplits(l, b.last, b.last, b.last);
  }

  /** The bound is met: as many requests as the burst allows are admitted at once. */
  lemma {:induction false} BurstAdmitted(l: Limits, times: seq<real>, n: nat)
    requires Valid(l) && n < |times| && (n + 1) as real <= l.burst
    requires forall i :: 0 <= i < |times| ==> times[i] == times[0]
    ensures AdmittedAt(l, times, n) && After(l, times, n + 1) == Some(Bucket(l.burst - (n + 1) as real, times[0]))
  {
    if n > 0 {
      BurstAdmitted(l, times, n - 1);
      AtOnce(l, Bucket(l.burst - n as real, times[0]));
      assert (n + 1) as real == n as real + 1.0;
    } else {
      FreshFull(l, times[0]);
    }
  }
}
