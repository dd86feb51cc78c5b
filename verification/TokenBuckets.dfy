/**
 The per-session creation rate: a token bucket of capacity N that refills N tokens a minute. Times
 are seconds as reals; floating-point rounding is not modelled.
 */
module TokenBuckets {
  datatype Bucket = Bucket(tokens: real, lastRefill: real)

  /** N subscriptions per minute; configuration guarantees N > 0. */
  type Limit = n: nat | n > 0 witness 1

  /** A bucket's capacity and the tokens it gains in a span of time. */
  datatype Rate = Rate(capacity: real, accrue: real -> real)

  function RateOf(n: Limit): Rate {
    Rate(n as real, elapsed => elapsed * (n as real / 60.0))
  }

  ghost predicate Additive(r: Rate, a: real, b: real) {
    r.accrue(a + b) == r.accrue(a) + r.accrue(b)
  }

  /** All that the results below need of a rate. */
  ghost predicate Steady(r: Rate) {
    && r.capacity >= 1.0
    && (forall a, b :: Additive(r, a, b))
    && (forall a :: a >= 0.0 ==> r.accrue(a) >= 0.0)
  }

  lemma RatesAreSteady(n: Limit)
    ensures Steady(RateOf(n))
  {
    var r, rate := RateOf(n), n as real / 60.0;
    forall a, b ensures Additive(r, a, b) {
      assert (a + b) * rate == a * rate + b * rate;
    }
    forall a | a >= 0.0 ensures r.accrue(a) >= 0.0 {
      assert a * rate >= 0.0;
    }
  }

  /** Splitting a span of time at `b`. */
  lemma Split(r: Rate, a: real, b: real, c: real)
    requires Steady(r) && a <= b <= c
    ensures r.accrue(c - a) == r.accrue(b - a) + r.accrue(c - b)
    ensures r.accrue(b - a) >= 0.0 && r.accrue(c - b) >= 0.0
  {
    assert Additive(r, b - a, c - b);
    assert (b - a) + (c - b) == c - a;
  }

  lemma NoTime(r: Rate)
    requires Steady(r)
    ensures r.accrue(0.0) == 0.0
  {
    assert Additive(r, 0.0, 0.0);
    assert 0.0 + 0.0 == 0.0;
  }

  function Capped(a: real, b: real): real { if a <= b then a else b }

  function NewBucket(r: Rate, now: real): Bucket {
    Bucket(r.capacity, now)
  }

  /** Elapsed time saturates at zero should the clock appear to run backwards. */
  function Elapsed(since: real, now: real): real {
    if now <= since then 0.0 else now - since
  }

  function Refill(r: Rate, b: Bucket, now: real): Bucket {
    Bucket(Capped(b.tokens + r.accrue(Elapsed(b.lastRefill, now)), r.capacity), now)
  }

  function Take(r: Rate, b: Bucket, now: real): (Bucket, bool) {
    var full := Refill(r, b, now);
    if full.tokens >= 1.0 then (full.(tokens := full.tokens - 1.0), true) else (full, false)
  }

  class TokenBucket {
    var tokens: real
    const n: Limit
    var lastRefill: real

    function Value(): Bucket
      reads this
    {
      Bucket(tokens, lastRefill)
    }

    constructor (n: Limit, now: real)
      ensures this.n == n && Value() == NewBucket(RateOf(n), now)
    {
      this.n, tokens, lastRefill := n, n as real, now;
    }

    method TryTakeAt(now: real) returns (taken: bool)
      modifies this
      ensures Value() == Take(RateOf(n), old(Value()), now).0
      ensures taken == Take(RateOf(n), old(Value()), now).1
    {
      var elapsed := Elapsed(lastRefill, now);
      tokens := Capped(tokens + elapsed * (n as real / 60.0), n as real);
      lastRefill := now;
      if tokens >= 1.0 {
        tokens := tokens - 1.0;
        taken := true;
      } else {
        taken := false;
      }
    }
  }

  // ---------------------------------------------------------------------------------------------
  // Traces of attempts on one bucket

  /** Attempts do not go back in time, and the bucket was created before the first. */
  ghost predicate InOrder(created: real, times: seq<real>) {
    && (forall i :: 0 <= i < |times| ==> created <= times[i])
    && (forall i, j :: 0 <= i <= j < |times| ==> times[i] <= times[j])
  }

  function After(r: Rate, created: real, times: seq<real>): Bucket {
    if times == [] then NewBucket(r, created)
    else Take(r, After(r, created, times[..|times| - 1]), times[|times| - 1]).0
  }

  /** Tokens found by attempt `j`, after refilling. */
  function Level(r: Rate, created: real, times: seq<real>, j: nat): real
    requires j < |times|
  {
    Refill(r, After(r, created, times[..j]), times[j]).tokens
  }

  predicate Admitted(r: Rate, created: real, times: seq<real>, j: nat)
    requires j < |times|
  {
    Take(r, After(r, created, times[..j]), times[j]).1
  }

  /** Number of admitted attempts among those numbered from `i` up to but excluding `j`. */
  function Count(r: Rate, created: real, times: seq<real>, i: nat, j: nat): nat
    requires i <= j <= |times|
    decreases j
  {
    if i == j then 0
    else Count(r, created, times, i, j - 1) + if Admitted(r, created, times, j - 1) then 1 else 0
  }

  /** What a window opened by attempt `i` still allows when attempt `j` arrives. */
  function Allowance(r: Rate, created: real, times: seq<real>, i: nat, j: nat): real
    requires i <= j < |times|
  {
    r.capacity + r.accrue(times[j] - times[i]) - Count(r, created, times, i, j) as real
  }

  lemma LastRefill(r: Rate, created: real, times: seq<real>)
    requires Steady(r)
    ensures After(r, created, times).lastRefill == if times == [] then created else times[|times| - 1]
    ensures 0.0 <= After(r, created, times).tokens <= r.capacity
  {
    if times != [] {
      LastRefill(r, created, times[..|times| - 1]);
      RefillIsBounded(r, After(r, created, times[..|times| - 1]), times[|times| - 1]);
    }
  }

  lemma RefillIsBounded(r: Rate, b: Bucket, now: real)
    requires Steady(r) && 0.0 <= b.tokens
    ensures 0.0 <= Refill(r, b, now).tokens <= r.capacity
  {
    assert r.accrue(Elapsed(b.lastRefill, now)) >= 0.0;
  }

  /** One more attempt: the level is the previous one, less what was taken, plus the refill, capped. */
  lemma LevelStep(r: Rate, created: real, times: seq<real>, j: nat)
    requires Steady(r) && InOrder(created, times) && j < |times|
    ensures j == 0 ==> Level(r, created, times, j) == r.capacity
    ensures j > 0 ==>
      Level(r, created, times, j) ==
      Capped(Level(r, created, times, j - 1) - (if Admitted(r, created, times, j - 1) then 1.0 else 0.0)
          + r.accrue(times[j] - times[j - 1]), r.capacity)
  {
    LastRefill(r, created, times[..j]);
    if j > 0 {
      assert times[..j][..j - 1] == times[..j - 1];
      assert times[j - 1] <= times[j];
    } else {
      assert created <= times[0];
      assert r.accrue(Elapsed(created, times[0])) >= 0.0;
    }
  }

  lemma AllowanceStep(r: Rate, created: real, times: seq<real>, i: nat, j: nat)
    requires Steady(r) && InOrder(created, times) && i < j < |times|
    ensures Allowance(r, created, times, i, j) ==
            Allowance(r, created, times, i, j - 1) - (if Admitted(r, created, times, j - 1) then 1.0 else 0.0)
            + r.accrue(times[j] - times[j - 1])
  {
    Split(r, times[i], times[j - 1], times[j]);
  }

  /** The level never exceeds the allowance of any window ending now ... */
  lemma {:induction false} LevelWithinEveryWindow(r: Rate, created: real, times: seq<real>, i: nat, j: nat)
    requires Steady(r) && InOrder(created, times) && i <= j < |times|
    ensures Level(r, created, times, j) <= Allowance(r, created, times, i, j)
    decreases j
  {
    LevelStep(r, created, times, j);
    if i < j {
      LevelWithinEveryWindow(r, created, times, i, j - 1);
      AllowanceStep(r, created, times, i, j);
    }
  }

  /** ... and equals that of the tightest one. */
  lemma {:induction false} TightestWindow(r: Rate, created: real, times: seq<real>, j: nat) returns (i: nat)
    requires Steady(r) && InOrder(created, times) && j < |times|
    ensures i <= j && Level(r, created, times, j) == Allowance(r, created, times, i, j)
    decreases j
  {
    LevelStep(r, created, times, j);
    if Level(r, created, times, j) == r.capacity {
      NoTime(r);
      i := j;
    } else {
      i := TightestWindow(r, created, times, j - 1);
      AllowanceStep(r, created, times, i, j);
    }
  }

  /**
   The bucket decides exactly like the rule it stands for: an attempt is admitted if and only if,
   counting it, every window that ends with it stays within N plus N per minute of its length.
   */
  lemma AdmittedIff(r: Rate, created: real, times: seq<real>, j: nat)
    requires Steady(r) && InOrder(created, times) && j < |times|
    ensures Admitted(r, created, times, j) <==>
            forall i :: 0 <= i <= j ==> Allowance(r, created, times, i, j) >= 1.0
  {
    var tightest := TightestWindow(r, created, times, j);
    forall i | 0 <= i <= j ensures Level(r, created, times, j) <= Allowance(r, created, times, i, j) {
      LevelWithinEveryWindow(r, created, times, i, j);
    }
  }

  /** Attempts `i` to `j` inclusive: at most N plus N per minute between them are admitted. */
  lemma {:induction false} WindowBound(r: Rate, created: real, times: seq<real>, i: nat, j: nat)
    requires Steady(r) && InOrder(created, times) && i <= j < |times|
    ensures Count(r, created, times, i, j + 1) as real <= r.capacity + r.accrue(times[j] - times[i])
  {
    LevelWithinEveryWindow(r, created, times, i, j);
    LastRefill(r, created, times[..j]);
    RefillIsBounded(r, After(r, created, times[..j]), times[j]);
  }

  lemma IntervalBound(r: Rate, created: real, times: seq<real>, from: real, to: real, i: nat, j: nat)
    requires Steady(r) && InOrder(created, times) && from <= to && i <= j <= |times|
    requires forall k :: i <= k < j ==> from <= times[k] <= to
    ensures Count(r, created, times, i, j) as real <= r.capacity + r.accrue(to - from)
  {
    if i < j {
      WindowBound(r, created, times, i, j - 1);
      assert times[i] <= times[j - 1];
      Split(r, from, times[i], to);
      Split(r, times[i], times[j - 1], to);
    }
  }

  /** Of the attempts made between `from` and `to`, no more are admitted than a full bucket and its refill allow. */
  ghost predicate WithinRate(r: Rate, created: real, times: seq<real>, from: real, to: real) {
    forall i, j | 0 <= i <= j <= |times| && (forall k :: i <= k < j ==> from <= times[k] <= to) ::
      Count(r, created, times, i, j) as real <= r.capacity + r.accrue(to - from)
  }

  lemma SteadyRateBound(r: Rate, created: real, times: seq<real>, from: real, to: real)
    requires Steady(r) && InOrder(created, times) && from <= to
    ensures WithinRate(r, created, times, from, to)
  {
    forall i, j | 0 <= i <= j <= |times| && (forall k :: i <= k < j ==> from <= times[k] <= to)
      ensures Count(r, created, times, i, j) as real <= r.capacity + r.accrue(to - from)
    {
      IntervalBound(r, created, times, from, to, i, j);
    }
  }

  /** For every interval of time, a session is admitted at most N plus N a minute times its length. */
  lemma RateBound(n: Limit, created: real, times: seq<real>, from: real, to: real)
    requires InOrder(created, times) && from <= to
    ensures WithinRate(RateOf(n), created, times, from, to)
  {
    RatesAreSteady(n);
    SteadyRateBound(RateOf(n), created, times, from, to);
  }

  // ---------------------------------------------------------------------------------------------
  // Rejections leave no trace

  /** Refilling in two goes is refilling once. */
  lemma RefillTwice(r: Rate, b: Bucket, t: real, u: real)
    requires Steady(r) && b.lastRefill <= t <= u
    ensures Refill(r, Refill(r, b, t), u) == Refill(r, b, u)
  {
    NoTime(r);
    Split(r, b.lastRefill, t, u);
  }

  /** The times of the admitted attempts only. */
  function Survivors(r: Rate, created: real, times: seq<real>): seq<real> {
    if times == [] then []
    else
      var j := |times| - 1;
      Survivors(r, created, times[..j]) + if Admitted(r, created, times, j) then [times[j]] else []
  }

  lemma {:induction false} SurvivorsInOrder(r: Rate, created: real, times: seq<real>)
    requires Steady(r) && InOrder(created, times)
    ensures InOrder(created, Survivors(r, created, times))
    ensures forall t :: t in Survivors(r, created, times) ==> t in times
  {
    if times != [] {
      var j := |times| - 1;
      var kept := Survivors(r, created, times[..j]);
      SurvivorsInOrder(r, created, times[..j]);
      assert forall t :: t in kept ==> t <= times[j];
      var kept' := kept + [times[j]];
      forall a, b | 0 <= a <= b < |kept'| ensures kept'[a] <= kept'[b] {
        assert kept'[a] == times[j] || kept'[a] in kept;
      }
    }
  }

  lemma PrefixInOrder(created: real, times: seq<real>, now: real)
    requires InOrder(created, times + [now])
    ensures InOrder(created, times)
    ensures times != [] ==>
      var j := |times| - 1; InOrder(created, times[..j] + [times[j]]) && created <= times[j] <= now
  {
    var all := times + [now];
    assert forall i :: 0 <= i < |times| ==> times[i] == all[i];
    if times != [] {
      var j := |times| - 1;
      assert times[..j] + [times[j]] == times;
      assert all[j] <= all[j + 1];
    }
  }

  /**
   With all rejected attempts removed, every remaining attempt is still admitted, and every later
   attempt finds the same bucket.
   */
  lemma {:induction false} RejectionsLeaveNoTrace(r: Rate, created: real, times: seq<real>, now: real)
    requires Steady(r) && InOrder(created, times + [now])
    ensures Refill(r, After(r, created, times), now) == Refill(r, After(r, created, Survivors(r, created, times)), now)
    ensures AllAdmitted(r, created, Survivors(r, created, times))
    decreases |times|
  {
    if times != [] {
      var j := |times| - 1;
      var front, t := times[..j], times[j];
      var kept := Survivors(r, created, front);
      PrefixInOrder(created, times, now);
      RejectionsLeaveNoTrace(r, created, front, t);
      if Admitted(r, created, times, j) {
        AdmittedKeeps(r, created, times, kept);
      } else {
        PrefixInOrder(created, front, t);
        SurvivorsInOrder(r, created, front);
        assert kept != [] ==> kept[|kept| - 1] in front;
        RejectedRefill(r, created, times, kept, now);
        assert kept + [] == kept;
      }
    }
  }

  ghost predicate AllAdmitted(r: Rate, created: real, times: seq<real>) {
    forall k :: 0 <= k < |times| ==> Admitted(r, created, times, k)
  }

  lemma AdmittedKeeps(r: Rate, created: real, times: seq<real>, kept: seq<real>)
    requires times != [] && Admitted(r, created, times, |times| - 1)
    requires var j := |times| - 1;
             Refill(r, After(r, created, times[..j]), times[j]) == Refill(r, After(r, created, kept), times[j])
    requires AllAdmitted(r, created, kept)
    ensures var kept' := kept + [times[|times| - 1]];
            After(r, created, kept') == After(r, created, times) && AllAdmitted(r, created, kept')
  {
    var kept' := kept + [times[|times| - 1]];
    assert kept'[..|kept|] == kept;
    forall k | 0 <= k < |kept'| ensures Admitted(r, created, kept', k) {
      if k < |kept| {
        assert Admitted(r, created, kept, k) && kept'[..k] == kept[..k];
      }
    }
  }

  lemma RejectedRefill(r: Rate, created: real, times: seq<real>, kept: seq<real>, now: real)
    requires Steady(r) && InOrder(created, times) && times != [] && times[|times| - 1] <= now
    requires var j := |times| - 1;
             Refill(r, After(r, created, times[..j]), times[j]) == Refill(r, After(r, created, kept), times[j])
    requires kept != [] ==> kept[|kept| - 1] <= times[|times| - 1]
    requires !Admitted(r, created, times, |times| - 1)
    ensures Refill(r, After(r, created, times), now) == Refill(r, After(r, created, kept), now)
  {
    var front, t := times[..|times| - 1], times[|times| - 1];
    LastRefill(r, created, front);
    LastRefill(r, created, kept);
    RefillTwice(r, After(r, created, front), t, now);
    RefillTwice(r, After(r, created, kept), t, now);
  }
}
