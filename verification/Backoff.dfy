// How long a failed delivery waits (internal/webhook/service.go), in whole
// nanoseconds.
module Backoff {
  import opened Options

  function Pow2(k: nat): (p: nat)
    ensures p > 0
  {
    if k == 0 then 1 else 2 * Pow2(k - 1)
  }

  /** Pow2 is 2 to the power: exponents add. */
  lemma {:induction false} Pow2Adds(j: nat, k: nat)
    ensures Pow2(0) == 1 && Pow2(1) == 2 && Pow2(j + k) == Pow2(j) * Pow2(k)
  {
    assert Pow2(1) == 2 * Pow2(0);
    if j > 0 {
      Pow2Adds(j - 1, k);
      assert Pow2(j + k) == 2 * Pow2(j - 1 + k);
      assert 2 * (Pow2(j - 1) * Pow2(k)) == (2 * Pow2(j - 1)) * Pow2(k);
    }
  }

  /** The delay before jitter. A product too large for a duration is above the
      cap too, or converts to a negative one. */
  function Nominal(base: int, cap: int, attempt: nat): int
    requires attempt >= 1
  {
    var backoff := base * Pow2(attempt - 1);
    if backoff > cap || backoff <= 0 then cap else backoff
  }

  /** roll is what the random source gives, None when it fails. The result is
      None when the range to draw from is empty, where rand.Int panics. */
  function Jitter(d: int, roll: Option<nat>): Option<int> {
    if d <= 0 then Some(0)
    else
      var spread := d / 5;
      if spread == 0 then None
      else match roll
        case None => Some(d)
        case Some(r) => Some(d - spread + r % (2 * spread))
  }

  function BackoffForAttempt(base: int, cap: int, attempt: nat, roll: Option<nat>): Option<int>
    requires attempt >= 1
  {
    Jitter(Nominal(base, cap, attempt), roll)
  }

  lemma JitterWithin(d: int, roll: Option<nat>)
    requires d >= 5
    ensures var r := Jitter(d, roll); r.Some? && d - d / 5 <= r.value < d + d / 5
  {}

  /** The delays that can come out are exactly [d - d/5, d + d/5). */
  lemma JitterRange(d: int, delay: int)
    requires d >= 5
    ensures (exists roll :: Jitter(d, roll) == Some(delay)) <==> d - d / 5 <= delay < d + d / 5
  {
    if d - d / 5 <= delay < d + d / 5 {
      var r: nat := delay - (d - d / 5);
      SmallRoll(r, 2 * (d / 5));
      assert Jitter(d, Some(r)) == Some(delay);
    } else {
      forall roll ensures Jitter(d, roll) != Some(delay) {
        JitterWithin(d, roll);
        hide Jitter;
      }
    }
  }

  lemma SmallRoll(r: nat, m: nat)
    requires r < m
    ensures r % m == r
  {}

  /** The random draw panics exactly for delays of one to four nanoseconds. */
  lemma JitterPanics(base: int, cap: int, attempt: nat, roll: Option<nat>)
    requires attempt >= 1
    ensures BackoffForAttempt(base, cap, attempt, roll).None? <==> 0 < Nominal(base, cap, attempt) < 5
  {}

  lemma {:induction false} PowGrows(base: int, j: nat, k: nat)
    requires j < k && base > 0
    ensures base * Pow2(k) >= 2 * (base * Pow2(j)) > 0
    decreases k
  {
    if j < k - 1 {
      PowGrows(base, j, k - 1);
    }
    assert base * Pow2(k) == 2 * (base * Pow2(k - 1));
  }

  /** Without a random draw the delay is the nominal one; a nominal delay that is
      not positive is no delay; and a base that is not positive means the cap. */
  lemma BackoffEdges(base: int, cap: int, attempt: nat, roll: Option<nat>)
    requires attempt >= 1
    ensures Nominal(base, cap, attempt) >= 5 ==> BackoffForAttempt(base, cap, attempt, None) == Some(Nominal(base, cap, attempt))
    ensures Nominal(base, cap, attempt) <= 0 ==> BackoffForAttempt(base, cap, attempt, roll) == Some(0)
    ensures base <= 0 ==> Nominal(base, cap, attempt) == cap
  {
    assert base <= 0 ==> base * Pow2(attempt - 1) <= 0;
  }

  /** The nominal delay doubles until it meets the cap, and stays there. */
  lemma NominalIsTheMinimum(base: int, cap: int, attempt: nat)
    requires base > 0 && attempt >= 1
    ensures var product := base * Pow2(attempt - 1); Nominal(base, cap, attempt) == if product <= cap then product else cap
  {}

  /** As long as the cap is not met, a later attempt always waits longer than an
      earlier one, whatever is drawn. */
  lemma LaterWaitsLonger(base: int, cap: int, j: nat, k: nat, rollJ: Option<nat>, rollK: Option<nat>)
    requires base >= 5 && 1 <= j < k && base * Pow2(k - 1) <= cap
    ensures var early, late := BackoffForAttempt(base, cap, j, rollJ), BackoffForAttempt(base, cap, k, rollK);
      early.Some? && late.Some? && 0 < early.value < late.value
  {
    PowGrows(base, j - 1, k - 1);
    NominalIsTheMinimum(base, cap, j);
    NominalIsTheMinimum(base, cap, k);
    if j > 1 {
      PowGrows(base, 0, j - 1);
    }
    var d, e := Nominal(base, cap, j), Nominal(base, cap, k);
    assert e >= 2 * d && d >= 5;
    JitterWithin(d, rollJ);
    JitterWithin(e, rollK);
  }

  /** All the waiting between |rolls| + 1 attempts. */
  function TotalDelay(base: int, cap: int, rolls: seq<Option<nat>>): int {
    if rolls == [] then 0
    else
      var last := BackoffForAttempt(base, cap, |rolls|, rolls[|rolls| - 1]);
      TotalDelay(base, cap, rolls[..|rolls| - 1]) + if last.Some? then last.value else 0
  }

  lemma OneDelay(base: int, cap: int, attempt: nat, roll: Option<nat>)
    requires base >= 5 && cap >= 5 && attempt >= 1
    ensures var delay := BackoffForAttempt(base, cap, attempt, roll);
      delay.Some? && 0 <= 5 * delay.value <= 6 * (base * Pow2(attempt - 1)) && 5 * delay.value <= 6 * cap
  {}

  lemma Bounds(base: int, cap: int, n: nat)
    requires n >= 1
    ensures base * (Pow2(n) - 1) == base * (Pow2(n - 1) - 1) + base * Pow2(n - 1)
    ensures n * cap == (n - 1) * cap + cap
  {}

  /** It is at most 1.2 times the smaller of base * (2^(n-1) - 1) and
      (n-1) * cap, where n counts the attempts. */
  lemma {:induction false} TotalDelayBound(base: int, cap: int, rolls: seq<Option<nat>>)
    requires base >= 5 && cap >= 5
    ensures var total := TotalDelay(base, cap, rolls);
      0 <= 5 * total <= 6 * (base * (Pow2(|rolls|) - 1)) && 5 * total <= 6 * (|rolls| * cap)
  {
    if rolls != [] {
      var n := |rolls|;
      TotalDelayBound(base, cap, rolls[..n - 1]);
      OneDelay(base, cap, n, rolls[n - 1]);
      hide BackoffForAttempt, Pow2;
      Bounds(base, cap, n);
    }
  }
}
