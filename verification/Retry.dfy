/** Retry with exponential backoff: options, the loop with its three exits, and the delays. */
module Retry {

  // Durations are in nanoseconds.
  const MILLISECOND := 1_000_000
  const SECOND := 1_000_000_000

  datatype Error = Error(text: string)

  datatype Option<T> = None | Some(value: T)

  /** The error returned by Do; `Exhausted` wraps the last error of the function. */
  datatype Result = Success | Exhausted(last: Error) | Cancelled(cause: Error)

  datatype Config = Config(maxAttempts: int, baseDelay: int, maxDelay: int, multiplier: real)

  datatype Setting =
    | MaxAttempts(n: int)
    | BaseDelay(d: int)
    | MaxDelay(d: int)
    | Multiplier(m: real)

  const DEFAULTS := Config(3, 100 * MILLISECOND, 10 * SECOND, 2.0)

  /** A jitter factor; the upper bound is closed because the sum may round up to it. */
  type Jitter = r: real | 0.75 <= r <= 1.25 witness 1.0

  // ---------------------------------------------------------------- options

  datatype Field = Attempts | Base | Cap | Growth

  /** The setting has an effect on the field: a value that is not positive is ignored. */
  predicate Sets(o: Setting, f: Field) {
    match o
    case MaxAttempts(n) => f.Attempts? && n > 0
    case BaseDelay(d) => f.Base? && d > 0
    case MaxDelay(d) => f.Cap? && d > 0
    case Multiplier(m) => f.Growth? && m > 0.0
  }

  function Apply(c: Config, o: Setting): Config {
    match o
    case MaxAttempts(n) => if n > 0 then c.(maxAttempts := n) else c
    case BaseDelay(d) => if d > 0 then c.(baseDelay := d) else c
    case MaxDelay(d) => if d > 0 then c.(maxDelay := d) else c
    case Multiplier(m) => if m > 0.0 then c.(multiplier := m) else c
  }

  function Fold(opts: seq<Setting>): Config {
    if opts == [] then DEFAULTS else Apply(Fold(opts[..|opts| - 1]), opts[|opts| - 1])
  }

  /** Setting `i` is the last one with an effect on the field; -1 if there is none. */
  ghost predicate Last(opts: seq<Setting>, f: Field, i: int) {
    && -1 <= i < |opts|
    && (i >= 0 ==> Sets(opts[i], f))
    && forall j :: i < j < |opts| ==> !Sets(opts[j], f)
  }

  /** Setting `i` supplied the field's value; -1 stands for the default. */
  predicate Supplied(c: Config, opts: seq<Setting>, f: Field, i: int)
    requires -1 <= i < |opts| && (i >= 0 ==> Sets(opts[i], f))
  {
    match f
    case Attempts => c.maxAttempts == if i < 0 then DEFAULTS.maxAttempts else opts[i].n
    case Base => c.baseDelay == if i < 0 then DEFAULTS.baseDelay else opts[i].d
    case Cap => c.maxDelay == if i < 0 then DEFAULTS.maxDelay else opts[i].d
    case Growth => c.multiplier == if i < 0 then DEFAULTS.multiplier else opts[i].m
  }

  predicate Positive(c: Config) {
    c.maxAttempts > 0 && c.baseDelay > 0 && c.maxDelay > 0 && c.multiplier > 0.0
  }

  /** Without options: 3 attempts, 100 ms, at most 10 s, doubling. */
  lemma NoOptions()
    ensures Fold([]) == Config(3, 100_000_000, 10_000_000_000, 2.0)
  {
  }

  /** One more option at the end, in plain numbers. */
  lemma OneMoreOption(opts: seq<Setting>, n: int, d: int, m: real)
    ensures var c := Fold(opts);
      && Fold(opts + [MaxAttempts(n)]) == Config(if n > 0 then n else c.maxAttempts, c.baseDelay, c.maxDelay, c.multiplier)
      && Fold(opts + [BaseDelay(d)]) == Config(c.maxAttempts, if d > 0 then d else c.baseDelay, c.maxDelay, c.multiplier)
      && Fold(opts + [MaxDelay(d)]) == Config(c.maxAttempts, c.baseDelay, if d > 0 then d else c.maxDelay, c.multiplier)
      && Fold(opts + [Multiplier(m)]) == Config(c.maxAttempts, c.baseDelay, c.maxDelay, if m > 0.0 then m else c.multiplier)
  {
    FoldSnoc(opts, MaxAttempts(n));
    FoldSnoc(opts, BaseDelay(d));
    FoldSnoc(opts, MaxDelay(d));
    FoldSnoc(opts, Multiplier(m));
  }

  lemma FoldSnoc(opts: seq<Setting>, o: Setting)
    ensures Fold(opts + [o]) == Apply(Fold(opts), o)
  {
    assert (opts + [o])[..|opts|] == opts;
  }

  /** Every field ends up as the last positive value supplied for it, or else as its default. */
  lemma {:induction false} FoldTakesLast(opts: seq<Setting>, f: Field)
    ensures exists i :: Last(opts, f, i) && Supplied(Fold(opts), opts, f, i)
  {
    if opts == [] {
      assert Last(opts, f, -1) && Supplied(Fold(opts), opts, f, -1);
    } else {
      var front, n := opts[..|opts| - 1], |opts| - 1;
      FoldTakesLast(front, f);
      var i :| Last(front, f, i) && Supplied(Fold(front), front, f, i);
      var j := if Sets(opts[n], f) then n else i;
      assert Last(opts, f, j) && Supplied(Fold(opts), opts, f, j);
    }
  }

  lemma {:induction false} FoldPositive(opts: seq<Setting>)
    ensures Positive(Fold(opts))
  {
    if opts != [] {
      FoldPositive(opts[..|opts| - 1]);
    }
  }

  class Settings {
    var maxAttempts: int
    var baseDelay: int
    var maxDelay: int
    var multiplier: real

    function Value(): Config
      reads this
    {
      Config(maxAttempts, baseDelay, maxDelay, multiplier)
    }

    constructor ()
      ensures Value() == DEFAULTS == Config(3, 100_000_000, 10_000_000_000, 2.0)
    {
      maxAttempts, baseDelay := DEFAULTS.maxAttempts, DEFAULTS.baseDelay;
      maxDelay, multiplier := DEFAULTS.maxDelay, DEFAULTS.multiplier;
    }

    method Set(opt: Setting)
      modifies this
      ensures Value() == Apply(old(Value()), opt)
    {
      match opt
      case MaxAttempts(n) => if n > 0 { maxAttempts := n; }
      case BaseDelay(d) => if d > 0 { baseDelay := d; }
      case MaxDelay(d) => if d > 0 { maxDelay := d; }
      case Multiplier(m) => if m > 0.0 { multiplier := m; }
    }
  }

  method Configure(opts: seq<Setting>) returns (c: Config)
    ensures c == Fold(opts) && Positive(c)
  {
    var cfg := new Settings();
    for i := 0 to |opts|
      invariant cfg.Value() == Fold(opts[..i])
    {
      assert opts[..i + 1][..i] == opts[..i];
      cfg.Set(opts[i]);
    }
    assert opts[..|opts|] == opts;
    c := cfg.Value();
    FoldPositive(opts);
  }

  // ---------------------------------------------------------------- delays

  const TWO63 := 0x8000_0000_0000_0000

  /** Conversion of a real towards zero. */
  function Trunc(r: real): int {
    if r >= 0.0 then r.Floor else -((-r).Floor)
  }

  /** In range a conversion drops the fraction. */
  lemma ConversionDropsFraction(r: real, junk: int)
    requires 0.0 <= r < 9_223_372_036_854_775_808.0
    ensures ToInt64(r, junk) as real <= r < (ToInt64(r, junk) + 1) as real
  {
    InRange(r, junk);
  }

  /** Go's conversion to int64; outside its range the result is whatever the machine gives. */
  function ToInt64(r: real, junk: int): int {
    if -TWO63 <= Trunc(r) < TWO63 then Trunc(r) else junk
  }

  function Grow(c: Config, delay: int, junk: int): int {
    var d := ToInt64(delay as real * c.multiplier, junk);
    if d > c.maxDelay then c.maxDelay else d
  }

  /** The delay before jitter after `k` failed attempts have each grown it. */
  function Planned(c: Config, k: nat, junk: int): int {
    if k == 0 then c.baseDelay else Grow(c, Planned(c, k - 1, junk), junk)
  }

  function Jittered(delay: int, j: Jitter, junk: int): int {
    ToInt64(delay as real * j, junk)
  }

  lemma FloorBelow(r: real, n: int)
    requires r < n as real
    ensures r.Floor < n
  {
  }

  lemma InRange(r: real, junk: int)
    requires 0.0 <= r < TWO63 as real
    ensures ToInt64(r, junk) == r.Floor
  {
    FloorBelow(r, TWO63);
  }

  lemma ScaleRange(d: real, j: real)
    requires 0.0 <= d && 0.75 <= j <= 1.25
    ensures 0.75 * d <= d * j <= 1.25 * d
  {
  }

  /** `w` is the delay times the random factor, rounded down. */
  predicate IsWait(w: int, delay: int, j: Jitter) {
    w as real <= delay as real * j < (w + 1) as real
  }

  /** Small enough for the longest jitter. */
  predicate Small(delay: int) {
    0 <= delay && 5 * delay < 4 * TWO63
  }

  /** The jittered delay is the product rounded down, unless it could leave the range. */
  lemma JitterIsProduct(d: int, j: Jitter, junk: int)
    requires Small(d)
    ensures IsWait(Jittered(d, j, junk), d, j)
  {
    var r := Product(d, j);
    InRange(r, junk);
  }

  lemma Product(d: int, j: Jitter) returns (r: real)
    requires 0 <= d && 5 * d < 4 * TWO63
    ensures r == d as real * j && 0.0 <= r < TWO63 as real
  {
    r := d as real * j;
    ScaleRange(d as real, j);
    assert 1.25 * d as real < TWO63 as real;
  }

  /** The `n` durations that the first `n` failed attempts hand to the timer. */
  function Waits(c: Config, jitter: nat -> Jitter, junk: int, n: nat): (w: seq<int>)
    ensures |w| == n
  {
    if n == 0 then [] else Waits(c, jitter, junk, n - 1) + [Jittered(Planned(c, n - 1, junk), jitter(n - 1), junk)]
  }

  /** Every wait is its planned delay times its random factor, rounded down. */
  ghost predicate AreWaits(waits: seq<int>, c: Config, jitter: nat -> Jitter, junk: int) {
    forall k: nat :: k < |waits| && Small(Planned(c, k, junk)) ==> IsWait(waits[k], Planned(c, k, junk), jitter(k))
  }

  lemma {:induction false} WaitAt(c: Config, jitter: nat -> Jitter, junk: int, n: nat, k: nat)
    requires k < n
    ensures Waits(c, jitter, junk, n)[k] == Jittered(Planned(c, k, junk), jitter(k), junk)
  {
    if k < n - 1 {
      WaitAt(c, jitter, junk, n - 1, k);
    }
  }

  lemma WaitsAreWaits(c: Config, jitter: nat -> Jitter, junk: int, n: nat)
    ensures AreWaits(Waits(c, jitter, junk, n), c, jitter, junk)
  {
    forall k: nat | k < n && Small(Planned(c, k, junk))
      ensures IsWait(Waits(c, jitter, junk, n)[k], Planned(c, k, junk), jitter(k))
    {
      WaitAt(c, jitter, junk, n, k);
      JitterIsProduct(Planned(c, k, junk), jitter(k), junk);
    }
  }

  // ---------------------------------------------------------------- the loop

  /**
   * Runs a function until it succeeds. `fn(k)` is the outcome of its k-th call, `cancel(k)` tells
   * whether the k-th wait ends by cancellation and with which error, `jitter(k)` is the k-th random
   * factor. `waits` lists the durations handed to the timer.
   */
  method Do(fn: nat -> Option<Error>, cancel: nat -> Option<Error>, jitter: nat -> Jitter, junk: int, opts: seq<Setting>)
    returns (res: Result, calls: nat, waits: seq<int>)
    ensures Ended(fn, cancel, Fold(opts).maxAttempts, calls, res)
    ensures waits == Waits(Fold(opts), jitter, junk, if res.Cancelled? then calls else calls - 1)
    ensures AreWaits(waits, Fold(opts), jitter, junk)
  {
    var cfg := Configure(opts);
    calls, waits := 0, [];
    var delay := cfg.baseDelay;
    var lastErr: Option<Error> := None;
    while true
      invariant calls < cfg.maxAttempts
      invariant delay == Planned(cfg, calls, junk)
      invariant forall k :: 0 <= k < calls ==> fn(k).Some? && cancel(k).None?
      invariant waits == Waits(cfg, jitter, junk, calls)
      decreases cfg.maxAttempts - calls
    {
      var attempt := calls;
      lastErr := fn(attempt);
      calls := calls + 1;
      if lastErr.None? {
        WaitsAreWaits(cfg, jitter, junk, attempt);
        return Success, calls, waits;
      }
      if attempt == cfg.maxAttempts - 1 {
        WaitsAreWaits(cfg, jitter, junk, attempt);
        break;
      }
      var jittered := Jittered(delay, jitter(attempt), junk);
      waits := waits + [jittered];
      var stopped := cancel(attempt);
      if stopped.Some? {
        WaitsAreWaits(cfg, jitter, junk, calls);
        return Cancelled(stopped.value), calls, waits;
      }
      delay := Grow(cfg, delay, junk);
    }
    res := Exhausted(lastErr.value);
  }

  /** How a loop over these outcomes ends, told by its result and its number of calls. */
  ghost predicate Ended(fn: nat -> Option<Error>, cancel: nat -> Option<Error>, max: int, calls: nat, res: Result) {
    && 1 <= calls <= max
    && (forall k :: 0 <= k < calls - 1 ==> fn(k).Some? && cancel(k).None?)
    && match res
       case Success => fn(calls - 1).None?
       case Exhausted(e) => calls == max && fn(calls - 1) == Some(e)
       case Cancelled(e) => calls < max && fn(calls - 1).Some? && cancel(calls - 1) == Some(e)
  }

  /** The first `k` calls fail and no wait after them is cut short. */
  ghost predicate Undisturbed(fn: nat -> Option<Error>, cancel: nat -> Option<Error>, k: int) {
    forall j :: 0 <= j < k ==> fn(j).Some? && cancel(j).None?
  }

  /** Exactly one of three things has happened, and the outcomes say which. */
  lemma Trichotomy(fn: nat -> Option<Error>, cancel: nat -> Option<Error>, max: int, calls: nat, res: Result)
    requires Ended(fn, cancel, max, calls, res)
    ensures res.Success? <==> exists k :: 0 <= k < max && Undisturbed(fn, cancel, k) && fn(k).None?
    ensures res.Cancelled? <==>
      exists k :: 0 <= k < max - 1 && Undisturbed(fn, cancel, k) && fn(k).Some? && cancel(k).Some?
    ensures res.Exhausted? <==> Undisturbed(fn, cancel, max - 1) && fn(max - 1).Some?
    ensures forall k :: 0 <= k < max && Undisturbed(fn, cancel, k) && fn(k).None? ==> calls == k + 1
  {
    assert Undisturbed(fn, cancel, calls - 1);
    if k :| 0 <= k < max && Undisturbed(fn, cancel, k) && fn(k).None? {
      assert k == calls - 1;
    }
    if k :| 0 <= k < max - 1 && Undisturbed(fn, cancel, k) && fn(k).Some? && cancel(k).Some? {
      assert k == calls - 1;
    }
  }

  /** The same outcomes cannot end in two ways. */
  lemma EndedUnique(fn: nat -> Option<Error>, cancel: nat -> Option<Error>, max: int,
    m: nat, r: Result, n: nat, q: Result)
    requires Ended(fn, cancel, max, m, r) && Ended(fn, cancel, max, n, q)
    ensures m == n && r == q
  {
  }
}
