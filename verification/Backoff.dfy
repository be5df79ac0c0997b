/** The arithmetic of the retry delays: growth, cap, overflow and the total of all waits. */
module Backoff {
  import opened Retry

  function Min(a: int, b: int): int {
    if a <= b then a else b
  }

  function Max(a: int, b: int): int {
    if a >= b then a else b
  }

  function IdealGrow(c: Config, d: int): int {
    Min((d as real * c.multiplier).Floor, c.maxDelay)
  }

  /** The delay sequence over unbounded integers. */
  function Ideal(c: Config, k: nat): int {
    if k == 0 then c.baseDelay else IdealGrow(c, Ideal(c, k - 1))
  }

  function RPow(m: real, k: nat): real {
    if k == 0 then 1.0 else RPow(m, k - 1) * m
  }

  function IPow(m: int, k: nat): int {
    if k == 0 then 1 else IPow(m, k - 1) * m
  }

  lemma ProductRange(x: real, y: real, m: real)
    requires 0.0 <= x <= y && m >= 0.0
    ensures 0.0 <= x * m <= y * m
  {
  }

  lemma IntMulMonotone(x: int, y: int, m: int)
    requires x <= y && m >= 0
    ensures x * m <= y * m
  {
  }

  lemma FloorAtLeast(r: real, n: int)
    requires n as real <= r
    ensures n <= r.Floor
  {
  }

  lemma {:induction false} IdealRange(c: Config, k: nat)
    requires Positive(c)
    ensures 0 <= Ideal(c, k) <= Max(c.baseDelay, c.maxDelay)
    ensures k >= 1 ==> Ideal(c, k) <= c.maxDelay
  {
    if k > 0 {
      IdealRange(c, k - 1);
      ProductRange(0.0, Ideal(c, k - 1) as real, c.multiplier);
    }
  }

  /** The largest product that the loop can form still fits. */
  predicate Fits(c: Config) {
    Max(c.baseDelay, c.maxDelay) as real * c.multiplier < TWO63 as real
  }

  ghost predicate Exact(c: Config, junk: int) {
    forall d :: 0 <= d <= Max(c.baseDelay, c.maxDelay) ==> Grow(c, d, junk) == IdealGrow(c, d)
  }

  lemma GrowExact(c: Config, d: int, junk: int)
    requires Positive(c) && Fits(c) && 0 <= d <= Max(c.baseDelay, c.maxDelay)
    ensures Grow(c, d, junk) == IdealGrow(c, d)
  {
    var p := ProductFits(d as real, Max(c.baseDelay, c.maxDelay) as real, c.multiplier);
    InRange(p, junk);
    assert IdealGrow(c, d) == Min(p.Floor, c.maxDelay);
  }

  lemma ProductFits(x: real, y: real, m: real) returns (p: real)
    requires 0.0 <= x <= y && m >= 0.0 && y * m < TWO63 as real
    ensures p == x * m && 0.0 <= p < TWO63 as real
  {
    p := x * m;
    ProductRange(x, y, m);
  }

  lemma FitsExact(c: Config, junk: int)
    requires Positive(c) && Fits(c)
    ensures Exact(c, junk)
  {
    forall d | 0 <= d <= Max(c.baseDelay, c.maxDelay)
      ensures Grow(c, d, junk) == IdealGrow(c, d)
    {
      GrowExact(c, d, junk);
    }
  }

  lemma {:induction false} ExactEverywhere(c: Config, k: nat, junk: int)
    requires Positive(c) && Exact(c, junk)
    ensures Planned(c, k, junk) == Ideal(c, k)
  {
    if k > 0 {
      ExactEverywhere(c, k - 1, junk);
      IdealRange(c, k - 1);
    }
  }

  /** Without overflow the machine computes the ideal sequence, whatever it does on overflow. */
  lemma NoOverflow(c: Config, k: nat, junk: int)
    requires Positive(c) && Fits(c)
    ensures Planned(c, k, junk) == Ideal(c, k)
  {
    FitsExact(c, junk);
    ExactEverywhere(c, k, junk);
  }

  /** base * m^k */
  function Envelope(base: real, m: real, k: nat): real {
    if k == 0 then base else Envelope(base, m, k - 1) * m
  }

  lemma Associate(x: real, y: real, z: real)
    ensures x * (y * z) == x * y * z
  {
  }

  lemma {:induction false} EnvelopeIsPower(base: real, m: real, k: nat)
    ensures Envelope(base, m, k) == base * RPow(m, k)
  {
    if k > 0 {
      EnvelopeIsPower(base, m, k - 1);
      Associate(base, RPow(m, k - 1), m);
    }
  }

  lemma GrowBelow(c: Config, d: int, e: real)
    requires Positive(c) && 0 <= d && d as real <= e
    ensures IdealGrow(c, d) as real <= e * c.multiplier
    ensures IdealGrow(c, d) <= c.maxDelay
  {
    ProductRange(d as real, e, c.multiplier);
  }

  lemma BelowStep(c: Config, base: real, k: nat)
    requires Positive(c) && k >= 1 && Ideal(c, k - 1) as real <= Envelope(base, c.multiplier, k - 1)
    ensures Ideal(c, k) as real <= Envelope(base, c.multiplier, k)
  {
    IdealRange(c, k - 1);
    GrowBelow(c, Ideal(c, k - 1), Envelope(base, c.multiplier, k - 1));
  }

  lemma {:induction false} BelowEnvelope(c: Config, k: nat)
    requires Positive(c)
    ensures Ideal(c, k) as real <= Envelope(c.baseDelay as real, c.multiplier, k)
  {
    if k > 0 {
      BelowEnvelope(c, k - 1);
      BelowStep(c, c.baseDelay as real, k);
    }
  }

  /** From the second delay on: at most the cap, and at most base * m^k. */
  lemma {:induction false} GrowthBound(c: Config, k: nat)
    requires Positive(c)
    ensures Ideal(c, k) as real <= c.baseDelay as real * RPow(c.multiplier, k)
    ensures k >= 1 ==> Ideal(c, k) <= c.maxDelay
  {
    IdealRange(c, k);
    BelowEnvelope(c, k);
    var power := PowerOf(c.baseDelay as real, c.multiplier, k);
    assert Ideal(c, k) as real <= power;
  }

  lemma PowerOf(base: real, m: real, k: nat) returns (p: real)
    ensures p == base * RPow(m, k) && p == Envelope(base, m, k)
  {
    EnvelopeIsPower(base, m, k);
    p := Envelope(base, m, k);
  }

  lemma GrowsWhole(d: int, m: real)
    requires 0 <= d && m >= 1.0
    ensures d <= (d as real * m).Floor
  {
    ProductRange(1.0, m, d as real);
    FloorAtLeast(d as real * m, d);
  }

  lemma {:induction false} Nondecreasing(c: Config, k: nat)
    requires Positive(c) && c.multiplier >= 1.0 && c.baseDelay <= c.maxDelay
    ensures Ideal(c, k) <= Ideal(c, k + 1)
  {
    IdealRange(c, k);
    GrowsWhole(Ideal(c, k), c.multiplier);
  }

  lemma WholeStep(c: Config, m: int, k: nat)
    requires c.multiplier == m as real && k >= 1
    ensures Ideal(c, k) == Min(Ideal(c, k - 1) * m, c.maxDelay)
  {
    WholeProduct(Ideal(c, k - 1), m);
  }

  lemma CappedProduct(cap: int, p: int, m: int)
    requires cap > 0 && m >= 1
    ensures Min(Min(cap, p) * m, cap) == Min(cap, p * m)
  {
    IntMulMonotone(1, m, cap);
    IntMulMonotone(Min(cap, p), p, m);
    if cap < p {
      IntMulMonotone(cap, p, m);
    }
  }

  /** `w` is the product rounded down. */
  predicate RoundsDown(w: int, d: int, m: real) {
    w as real <= d as real * m < (w + 1) as real
  }

  lemma GrowRounds(c: Config, d: int)
    ensures IdealGrow(c, d) <= c.maxDelay
    ensures IdealGrow(c, d) < c.maxDelay ==> RoundsDown(IdealGrow(c, d), d, c.multiplier)
    ensures IdealGrow(c, d) == c.maxDelay ==> c.maxDelay as real <= d as real * c.multiplier
  {
  }

  /** Each delay is the one before times the multiplier, rounded down, or the cap if that is less. */
  lemma GrowthStep(c: Config, k: nat)
    requires k >= 1
    ensures Ideal(c, k) <= c.maxDelay
    ensures Ideal(c, k) < c.maxDelay ==> RoundsDown(Ideal(c, k), Ideal(c, k - 1), c.multiplier)
    ensures Ideal(c, k) == c.maxDelay ==> c.maxDelay as real <= Ideal(c, k - 1) as real * c.multiplier
  {
    GrowRounds(c, Ideal(c, k - 1));
  }

  /** The product less one for the rounding of each step. */
  function Floored(base: real, m: real, k: nat): real {
    if k == 0 then base else Floored(base, m, k - 1) * m - 1.0
  }

  lemma GrowAbove(c: Config, d: int, f: real)
    requires Positive(c) && 0 <= d && 0.0 <= f <= d as real && IdealGrow(c, d) < c.maxDelay
    ensures f * c.multiplier - 1.0 <= IdealGrow(c, d) as real
  {
    ProductRange(f, d as real, c.multiplier);
  }

  lemma CapStays(c: Config, d: int)
    requires Positive(c) && c.multiplier >= 1.0 && d >= c.maxDelay
    ensures IdealGrow(c, d) == c.maxDelay
  {
    GrowsWhole(d, c.multiplier);
  }

  lemma AboveProduct(c: Config, d: int, f: real)
    requires Positive(c) && c.multiplier >= 1.0 && 0 <= d && AtLeastOrCapped(c, f, d)
    ensures AtLeastOrCapped(c, f * c.multiplier - 1.0, IdealGrow(c, d))
  {
    if d >= c.maxDelay {
      CapStays(c, d);
    } else if IdealGrow(c, d) != c.maxDelay {
      assert IdealGrow(c, d) < c.maxDelay;
      if f >= 0.0 {
        GrowAbove(c, d, f);
      } else {
        ProductRange(0.0, -f, c.multiplier);
        ProductRange(0.0, d as real, c.multiplier);
      }
    }
  }

  ghost predicate Above(c: Config, base: real, k: nat) {
    AtLeastOrCapped(c, Floored(base, c.multiplier, k), Ideal(c, k))
  }

  predicate AtLeastOrCapped(c: Config, f: real, d: int) {
    f <= d as real || d >= c.maxDelay
  }

  lemma AboveStep(c: Config, base: real, k: nat)
    requires Positive(c) && c.multiplier >= 1.0 && k >= 1 && Above(c, base, k - 1)
    ensures Above(c, base, k)
  {
    IdealRange(c, k - 1);
    AboveProduct(c, Ideal(c, k - 1), Floored(base, c.multiplier, k - 1));
  }

  lemma {:induction false} AboveFloor(c: Config, k: nat)
    requires Positive(c) && c.multiplier >= 1.0
    ensures Above(c, c.baseDelay as real, k)
  {
    if k > 0 {
      AboveFloor(c, k - 1);
      AboveStep(c, c.baseDelay as real, k);
    }
  }

  /** From below: a delay is at the cap or beyond it, or the product less at most one for each rounding. */
  lemma {:induction false} GrowthFloor(c: Config, k: nat)
    requires Positive(c) && c.multiplier >= 1.0
    ensures Ideal(c, k) < c.maxDelay ==> Floored(c.baseDelay as real, c.multiplier, k) <= Ideal(c, k) as real
  {
    AboveFloor(c, k);
  }

  /** With a whole multiplier nothing is lost to rounding: the cap and the power decide alone. */
  lemma {:induction false} WholeMultiplier(c: Config, m: int, k: nat)
    requires Positive(c) && c.multiplier == m as real && k >= 1
    ensures Ideal(c, k) == Min(c.maxDelay, c.baseDelay * IPow(m, k))
  {
    WholeStep(c, m, k);
    PowStep(c.baseDelay, m, k);
    if k > 1 {
      WholeMultiplier(c, m, k - 1);
      CappedProduct(c.maxDelay, c.baseDelay * IPow(m, k - 1), m);
    }
  }

  lemma PowStep(base: int, m: int, k: nat)
    requires k >= 1
    ensures base * IPow(m, k) == base * IPow(m, k - 1) * m
    ensures IPow(m, 0) == 1
  {
  }

  lemma WholeProduct(d: int, m: int)
    ensures (d as real * m as real).Floor == d * m
  {
    assert d as real * m as real == (d * m) as real;
  }

  /**
   * The cap is not applied to the first delay: before jitter, every delay respects it if and only if
   * the base delay does, whatever overflows.
   */
  lemma CapOnlyFromSecond(c: Config, junk: int)
    ensures (forall k: nat :: Planned(c, k, junk) <= c.maxDelay) <==> c.baseDelay <= c.maxDelay
  {
    assert Planned(c, 0, junk) == c.baseDelay;
  }

  // ---------------------------------------------------------------- totals

  function Sum(w: seq<int>): int {
    if w == [] then 0 else Sum(w[..|w| - 1]) + w[|w| - 1]
  }

  function SumIdeal(c: Config, n: nat): int {
    if n == 0 then 0 else SumIdeal(c, n - 1) + Ideal(c, n - 1)
  }

  /** The jittered delays at their shortest. */
  function SumLow(c: Config, n: nat): int {
    if n == 0 then 0 else SumLow(c, n - 1) + (3 * Ideal(c, n - 1)) / 4
  }

  /** The jittered products fit too. */
  predicate JitterFits(c: Config) {
    Fits(c) && 5 * Max(c.baseDelay, c.maxDelay) < 4 * TWO63
  }

  lemma QuarterFloor(r: real, d: int)
    requires 0 <= d && 0.75 * d as real <= r <= 1.25 * d as real
    ensures (3 * d) / 4 <= r.Floor
    ensures 4 * r.Floor <= 5 * d
  {
    var f := r.Floor;
    assert 4.0 * f as real == (4 * f) as real;
    assert (4 * f) as real <= (5 * d) as real;
    assert (3 * d) as real < (4 * f + 4) as real;
  }

  lemma QuarterFits(r: real, d: int, junk: int)
    requires 0 <= d && 0.75 * d as real <= r <= 1.25 * d as real && 5 * d < 4 * TWO63
    ensures (3 * d) / 4 <= ToInt64(r, junk)
    ensures 4 * ToInt64(r, junk) <= 5 * d
  {
    QuarterFloor(r, d);
    assert 4.0 * r <= (5 * d) as real < (4 * TWO63) as real;
    InRange(r, junk);
  }

  lemma Scaled(d: int, j: Jitter, junk: int) returns (r: real)
    requires 0 <= d
    ensures 0.75 * d as real <= r <= 1.25 * d as real
    ensures Jittered(d, j, junk) == ToInt64(r, junk)
  {
    r := d as real * j;
    ScaleRange(d as real, j);
  }

  lemma JitterRange(d: int, j: Jitter, junk: int)
    requires 0 <= d && 5 * d < 4 * TWO63
    ensures (3 * d) / 4 <= Jittered(d, j, junk)
    ensures 4 * Jittered(d, j, junk) <= 5 * d
  {
    var r := Scaled(d, j, junk);
    QuarterFits(r, d, junk);
  }

  // ---------------------------------------------------------------- the cap on what is waited

  lemma ShrinksWhole(d: int, m: real)
    requires 0 <= d && 0.0 < m < 1.0
    ensures (d as real * m).Floor <= d
  {
    ProductRange(m, 1.0, d as real);
  }

  lemma ShrinkStep(c: Config, d: int)
    requires Positive(c) && c.multiplier < 1.0 && 0 <= d
    ensures IdealGrow(c, d) <= d
  {
    ShrinksWhole(d, c.multiplier);
  }

  lemma {:induction false} Shrinks(c: Config, k: nat)
    requires Positive(c) && c.multiplier < 1.0
    ensures Ideal(c, k) <= c.baseDelay
  {
    if k > 0 {
      Shrinks(c, k - 1);
      IdealRange(c, k - 1);
      ShrinkStep(c, Ideal(c, k - 1));
    }
  }

  lemma {:induction false} Climbs(c: Config, k: nat, l: nat)
    requires Positive(c) && c.multiplier >= 1.0 && c.baseDelay <= c.maxDelay && k <= l
    ensures Ideal(c, k) <= Ideal(c, l)
    decreases l
  {
    if k < l {
      Climbs(c, k, l - 1);
      Nondecreasing(c, l - 1);
    }
  }

  /** Among the first `n` delays the largest is the first or the last. */
  lemma LargestDelay(c: Config, k: nat, n: nat)
    requires Positive(c) && k < n
    ensures Ideal(c, k) <= Max(c.baseDelay, Ideal(c, n - 1))
  {
    if c.multiplier < 1.0 {
      Shrinks(c, k);
    } else if c.baseDelay <= c.maxDelay {
      Climbs(c, k, n - 1);
    } else {
      IdealRange(c, k);
    }
  }

  /** The jittered delay at its longest. */
  lemma LongestJitter(d: int, junk: int)
    requires 0 <= d && 5 * d < 4 * TWO63
    ensures 4 * Jittered(d, 1.25, junk) > 5 * d - 4
  {
    var r := d as real * 1.25;
    assert 4.0 * r == (5 * d) as real;
    InRange(r, junk);
    assert r < (r.Floor + 1) as real;
  }

  /** No duration handed to the timer in the first `n` waits exceeds the cap, whatever the random factors. */
  ghost predicate RespectsCap(c: Config, junk: int, n: nat) {
    forall jitter: nat -> Jitter, k: nat :: k < n ==> Waits(c, jitter, junk, n)[k] <= c.maxDelay
  }

  lemma CapNeeds(c: Config, junk: int, n: nat, k: nat)
    requires Positive(c) && JitterFits(c) && k < n && RespectsCap(c, junk, n)
    ensures 5 * Ideal(c, k) < 4 * (c.maxDelay + 1)
  {
    var longest: nat -> Jitter := _ => 1.25;
    WaitAt(c, longest, junk, n, k);
    NoOverflow(c, k, junk);
    IdealRange(c, k);
    LongestJitter(Ideal(c, k), junk);
    assert Waits(c, longest, junk, n)[k] <= c.maxDelay;
  }

  lemma CapSuffices(c: Config, jitter: nat -> Jitter, junk: int, n: nat, k: nat)
    requires Positive(c) && JitterFits(c) && k < n
    requires 5 * Max(c.baseDelay, Ideal(c, n - 1)) < 4 * (c.maxDelay + 1)
    ensures Waits(c, jitter, junk, n)[k] <= c.maxDelay
  {
    WaitAt(c, jitter, junk, n, k);
    NoOverflow(c, k, junk);
    IdealRange(c, k);
    LargestDelay(c, k, n);
    JitterRange(Ideal(c, k), jitter(k), junk);
  }

  /**
   * Jitter comes after the cap, so the delays actually waited respect the cap if and only if five
   * quarters of the largest delay still do.
   */
  lemma CapOnWaits(c: Config, junk: int, n: nat)
    requires Positive(c) && JitterFits(c) && n >= 1
    ensures RespectsCap(c, junk, n) <==> 5 * Max(c.baseDelay, Ideal(c, n - 1)) < 4 * (c.maxDelay + 1)
  {
    if RespectsCap(c, junk, n) {
      CapNeeds(c, junk, n, 0);
      CapNeeds(c, junk, n, n - 1);
    }
    if 5 * Max(c.baseDelay, Ideal(c, n - 1)) < 4 * (c.maxDelay + 1) {
      forall jitter: nat -> Jitter, k: nat | k < n
        ensures Waits(c, jitter, junk, n)[k] <= c.maxDelay
      {
        CapSuffices(c, jitter, junk, n, k);
      }
    }
  }

  /** The same in closed form, for a whole multiplier and at least two waits. */
  lemma CapOnWaitsWhole(c: Config, m: int, junk: int, n: nat)
    requires Positive(c) && JitterFits(c) && c.multiplier == m as real && n >= 2
    ensures RespectsCap(c, junk, n) <==>
      5 * Max(c.baseDelay, Min(c.maxDelay, c.baseDelay * IPow(m, n - 1))) < 4 * (c.maxDelay + 1)
  {
    CapOnWaits(c, junk, n);
    WholeMultiplier(c, m, n - 1);
  }

  /** A base delay at the cap: the first wait can be a fifth longer than the cap. */
  lemma WaitBeyondCap(junk: int)
    ensures var c := Config(3, 10 * SECOND, 10 * SECOND, 2.0);
      c.baseDelay <= c.maxDelay && Waits(c, _ => 1.2, junk, 1) == [12 * SECOND]
  {
    var c := Config(3, 10 * SECOND, 10 * SECOND, 2.0);
    var r := c.baseDelay as real * 1.2;
    assert r == (12 * SECOND) as real;
    InRange(r, junk);
    assert Waits(c, _ => 1.2, junk, 0) == [];
  }

  lemma PlannedSmall(c: Config, k: nat, junk: int)
    requires Positive(c) && JitterFits(c)
    ensures Planned(c, k, junk) == Ideal(c, k) && Small(Ideal(c, k))
  {
    NoOverflow(c, k, junk);
    IdealRange(c, k);
  }

  /** Each wait is its ideal delay times its random factor, rounded down. */
  lemma WaitIsProduct(c: Config, jitter: nat -> Jitter, junk: int, n: nat, k: nat)
    requires Positive(c) && JitterFits(c) && k < n
    ensures IsWait(Waits(c, jitter, junk, n)[k], Ideal(c, k), jitter(k))
  {
    PlannedSmall(c, k, junk);
    WaitAt(c, jitter, junk, n, k);
    JitterIsProduct(Ideal(c, k), jitter(k), junk);
  }

  lemma {:induction false} TotalWait(c: Config, jitter: nat -> Jitter, junk: int, n: nat)
    requires Positive(c) && JitterFits(c)
    ensures var total := Sum(Waits(c, jitter, junk, n));
      SumLow(c, n) <= total && 4 * total <= 5 * SumIdeal(c, n)
  {
    if n > 0 {
      TotalWait(c, jitter, junk, n - 1);
      NoOverflow(c, n - 1, junk);
      IdealRange(c, n - 1);
      JitterRange(Ideal(c, n - 1), jitter(n - 1), junk);
      var w := Waits(c, jitter, junk, n);
      assert w[..n - 1] == Waits(c, jitter, junk, n - 1);
    }
  }

  lemma {:induction false} SumCapped(c: Config, n: nat)
    requires Positive(c) && n >= 1
    ensures SumIdeal(c, n) <= c.baseDelay + (n - 1) * c.maxDelay
  {
    if n == 1 {
      assert SumIdeal(c, 1) == SumIdeal(c, 0) + Ideal(c, 0);
    } else {
      SumCapped(c, n - 1);
      IdealRange(c, n - 1);
      assert (n - 1) * c.maxDelay == (n - 2) * c.maxDelay + c.maxDelay;
    }
  }

  lemma {:induction false} SumDoubling(c: Config, n: nat)
    requires Positive(c) && c.multiplier == 2.0
    ensures SumIdeal(c, n) <= c.baseDelay * (IPow(2, n) - 1)
  {
    if n > 0 {
      SumDoubling(c, n - 1);
      DoublingBound(c, n - 1);
      Geometric(c.baseDelay, IPow(2, n - 1));
    }
  }

  lemma Geometric(base: int, p: int)
    ensures base * (p - 1) + base * p == base * (p * 2 - 1)
  {
  }

  lemma {:induction false} DoublingBound(c: Config, k: nat)
    requires Positive(c) && c.multiplier == 2.0
    ensures Ideal(c, k) <= c.baseDelay * IPow(2, k)
  {
    if k > 0 {
      WholeMultiplier(c, 2, k);
    }
  }

  /** Everything that a call of Do with multiplier 2 and `n` waits asks the timer for. */
  lemma TotalWaitDoubling(c: Config, jitter: nat -> Jitter, junk: int, n: nat)
    requires Positive(c) && JitterFits(c) && c.multiplier == 2.0
    ensures var total := Sum(Waits(c, jitter, junk, n));
      && 4 * total <= 5 * (c.baseDelay * (IPow(2, n) - 1))
      && (n >= 1 ==> 4 * total <= 5 * (c.baseDelay + (n - 1) * c.maxDelay))
      && SumLow(c, n) <= total
  {
    TotalWait(c, jitter, junk, n);
    SumDoubling(c, n);
    if n >= 1 {
      SumCapped(c, n);
    }
  }
}
