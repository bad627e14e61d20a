/** internal/anomaly/detector.go: a value is judged against a window that already contains it. */
module Anomaly {
  import opened Text

  // ---- statistics --------------------------------------------------------------------

  function Sum(s: seq<real>): real {
    if s == [] then 0.0 else Sum(s[..|s| - 1]) + s[|s| - 1]
  }

  /** The sum of the squared distances from m. */
  function Squares(s: seq<real>, m: real): real {
    if s == [] then 0.0 else Squares(s[..|s| - 1], m) + (s[|s| - 1] - m) * (s[|s| - 1] - m)
  }

  function Mean(s: seq<real>): real { if s == [] then 0.0 else Sum(s) / (|s| as real) }

  /** The square of the sample standard deviation. */
  function Variance(s: seq<real>): real {
    if |s| < 2 then 0.0 else Squares(s, Mean(s)) / ((|s| - 1) as real)
  }

  method MeanOf(values: seq<real>) returns (m: real)
    ensures m == Mean(values)
  {
    if |values| == 0 { return 0.0; }
    var sum := 0.0;
    for i := 0 to |values|
      invariant sum == Sum(values[..i])
    {
      assert values[..i + 1][..i] == values[..i];
      sum := sum + values[i];
    }
    assert values[..|values|] == values;
    m := sum / (|values| as real);
  }

  method VarianceOf(values: seq<real>, m: real) returns (v: real)
    requires m == Mean(values)
    ensures v == Variance(values)
  {
    if |values| < 2 { return 0.0; }
    var sumSq := 0.0;
    for i := 0 to |values|
      invariant sumSq == Squares(values[..i], m)
    {
      assert values[..i + 1][..i] == values[..i];
      var diff := values[i] - m;
      sumSq := sumSq + diff * diff;
    }
    assert values[..|values|] == values;
    v := sumSq / ((|values| - 1) as real);
  }

  function SumOfSquares(s: seq<real>): real {
    if s == [] then 0.0 else SumOfSquares(s[..|s| - 1]) + s[|s| - 1] * s[|s| - 1]
  }

  /** The signed distances from m. */
  function Distances(s: seq<real>, m: real): seq<real> { seq(|s|, i requires 0 <= i < |s| => s[i] - m) }

  lemma OneMore(n: real, count: real, m: real)
    requires count == n + 1.0
    ensures count * m == n * m + m
  {
  }

  lemma {:induction false} SumsOfDistances(s: seq<real>, m: real)
    ensures Sum(Distances(s, m)) == Sum(s) - (|s| as real) * m
    ensures SumOfSquares(Distances(s, m)) == Squares(s, m)
  {
    if s != [] {
      var front := s[..|s| - 1];
      SumsOfDistances(front, m);
      assert Distances(s, m)[..|s| - 1] == Distances(front, m);
      OneMore(|front| as real, |s| as real, m);
    }
  }

  // Real algebra in small steps.

  lemma SquareIsNonNegative(x: real)
    ensures x * x >= 0.0
  {
  }

  lemma NonNegative(a: real, b: real, product: real)
    requires a >= 0.0 && b >= 0.0 && product == a * b
    ensures product >= 0.0
  {
  }

  lemma Positive(a: real, b: real, product: real)
    requires a > 0.0 && b > 0.0 && product == a * b
    ensures product > 0.0
  {
  }

  lemma Scale(a: real, b: real, c: real)
    requires c >= 0.0 && a <= b
    ensures a * c <= b * c
  {
  }

  lemma ScaleStrictly(a: real, b: real, c: real)
    requires c > 0.0 && a < b
    ensures a * c < b * c
  {
  }

  lemma Cancel(a: real, b: real, c: real)
    requires c > 0.0 && a * c <= b * c
    ensures a <= b
  {
    if b < a { ScaleStrictly(b, a, c); }
  }

  lemma Associate(a: real, b: real, c: real)
    ensures a * (b * c) == (a * b) * c
  {
  }

  lemma SquareOfProduct(a: real, b: real)
    ensures (a * b) * (a * b) == (a * a) * (b * b)
  {
  }

  lemma SquareGrows(a: real, b: real)
    requires 0.0 <= a < b
    ensures a * a < b * b
  {
    Positive(b - a, b + a, b * b - a * a);
  }

  lemma CauchyIdentities(n: real, a: real, d: real, q: real)
    ensures (n + 1.0) * (a * a + q) - (a + d) * (a + d) == (n * (a * a) + q - 2.0 * (a * d)) + (n * q - d * d)
    ensures n * (n * (a * a) + q - 2.0 * (a * d)) == (n * a - d) * (n * a - d) + (n * q - d * d)
  {
  }

  /** (a + d)^2 <= (n + 1)(a^2 + q) whenever d^2 <= n q. */
  lemma CauchyStep(n: real, count: real, a: real, d: real, all: real, q: real, total: real)
    requires n >= 1.0 && d * d <= n * q && all == a + d && total == a * a + q && count == n + 1.0
    ensures all * all <= count * total
  {
    CauchyIdentities(n, a, d, q);
    SquareIsNonNegative(n * a - d);
    var gap := n * (a * a) + q - 2.0 * (a * d);
    assert 0.0 * n <= gap * n;
    Cancel(0.0, gap, n);
  }

  lemma CauchyOfOne(s: seq<real>)
    requires |s| == 1
    ensures Sum(s) * Sum(s) <= (|s| as real) * SumOfSquares(s)
  {
    assert s[..0] == [] && Sum(s) == s[0] && SumOfSquares(s) == s[0] * s[0];
  }

  lemma {:induction false} CauchySchwarz(s: seq<real>)
    ensures Sum(s) * Sum(s) <= (|s| as real) * SumOfSquares(s)
  {
    if |s| == 1 {
      CauchyOfOne(s);
    } else if |s| > 1 {
      var front, last := s[..|s| - 1], s[|s| - 1];
      CauchySchwarz(front);
      var n, count, d, q := |front| as real, |s| as real, Sum(front), SumOfSquares(front);
      assert n >= 1.0 && count == n + 1.0;
      CauchyStep(n, count, last, d, last + d, q, last * last + q);
    }
  }

  /** Samuelson's inequality for the value that was just appended, with m the mean: a value
      cannot be far from a mean it is part of. */
  lemma SelfInclusionBound(s: seq<real>, m: real)
    requires s != [] && (|s| as real) * m == Sum(s)
    ensures var d := s[|s| - 1] - m;
            (|s| as real) * (d * d) <= ((|s| - 1) as real) * Squares(s, m)
  {
    assert SumOfSquares(Distances(s, m)) == Squares(s, m) && Sum(Distances(s, m)) == 0.0 by { SumsOfDistances(s, m); }
    BalancedBound(Distances(s, m), s[|s| - 1] - m, Squares(s, m));
  }

  lemma MeanTimesCount(s: seq<real>)
    requires s != []
    ensures (|s| as real) * Mean(s) == Sum(s)
  {
  }

  lemma BalancedBound(s: seq<real>, last: real, total: real)
    requires s != [] && Sum(s) == 0.0 && last == s[|s| - 1] && total == SumOfSquares(s)
    ensures (|s| as real) * (last * last) <= ((|s| - 1) as real) * total
  {
    var front := s[..|s| - 1];
    CauchySchwarz(front);
    SamuelsonAlgebra(|front| as real, |s| as real, Sum(front), last, SumOfSquares(front), total);
  }

  lemma SamuelsonAlgebra(n: real, count: real, others: real, d: real, q: real, total: real)
    requires others == -d && count == n + 1.0 && total == q + d * d && others * others <= n * q
    ensures count * (d * d) <= n * total
  {
    assert others * others == d * d;
    assert count * (d * d) == n * (d * d) + d * d;
    assert n * total == n * q + n * (d * d);
  }

  /** The last value is more than c standard deviations from the mean. */
  ghost predicate Exceeds(s: seq<real>, c: real) {
    |s| >= 2 && (s[|s| - 1] - Mean(s)) * (s[|s| - 1] - Mean(s)) > c * c * Variance(s)
  }

  /** The distance from the mean, in squares: n d^2 <= (n - 1)^2 v. */
  lemma DistanceIsBounded(s: seq<real>)
    requires |s| >= 2
    ensures var d, k := s[|s| - 1] - Mean(s), (|s| - 1) as real;
            (|s| as real) * (d * d) <= (k * k) * Variance(s)
    ensures Variance(s) >= 0.0
  {
    var q, k := Squares(s, Mean(s)), (|s| - 1) as real;
    MeanTimesCount(s);
    SelfInclusionBound(s, Mean(s));
    SquaresNonNegative(s, Mean(s));
    VarianceAlgebra(q, k);
    assert Variance(s) == q / k;
  }

  lemma VarianceAlgebra(q: real, k: real)
    requires k > 0.0 && q >= 0.0
    ensures k * q == (k * k) * (q / k) && q / k >= 0.0
  {
    assert (q / k) * k == q;
    Associate(k, k, q / k);
    Cancel(0.0, q / k, k);
  }

  /** A window of n values has room for a deviation of c only if (n - 1)^2 > c^2 n. */
  lemma ExceedingNeedsRoom(s: seq<real>, c: real)
    requires Exceeds(s, c)
    ensures ((|s| - 1) as real) * ((|s| - 1) as real) > c * c * (|s| as real)
  {
    var d, k := s[|s| - 1] - Mean(s), (|s| - 1) as real;
    DistanceIsBounded(s);
    RoomFromBounds(|s| as real, k * k, c * c, d * d, Variance(s));
  }

  lemma RoomFromBounds(n: real, kk: real, cc: real, dd: real, v: real)
    requires n > 0.0 && v >= 0.0 && n * dd <= kk * v && dd > cc * v
    ensures kk > cc * n
  {
    ScaleStrictly(cc * v, dd, n);
    assert (cc * v) * n == (cc * n) * v;
    if kk <= cc * n { Scale(kk, cc * n, v); }
  }

  lemma {:induction false} SquaresNonNegative(s: seq<real>, m: real)
    ensures Squares(s, m) >= 0.0
  {
    if s != [] {
      SquaresNonNegative(s[..|s| - 1], m);
      SquareIsNonNegative(s[|s| - 1] - m);
    }
  }

  // ---- the bound is sharp ---------------------------------------------------------------

  function Spike(n: nat): seq<real>
    requires n >= 1
  {
    seq(n - 1, _ => 0.0) + [1.0]
  }

  lemma {:induction false} FlatStatistics(k: nat, m: real)
    ensures Sum(seq(k, _ => 0.0)) == 0.0
    ensures Squares(seq(k, _ => 0.0), m) == (k as real) * (m * m)
  {
    if k > 0 {
      FlatStatistics(k - 1, m);
      assert seq(k, _ => 0.0)[..k - 1] == seq(k - 1, _ => 0.0);
      assert (k as real) * (m * m) == ((k - 1) as real) * (m * m) + m * m;
    }
  }

  /** One spike in a flat window meets the bound with equality. */
  lemma SpikeStatistics(n: nat)
    requires n >= 2
    ensures Mean(Spike(n)) == 1.0 / (n as real) && Variance(Spike(n)) == 1.0 / (n as real)
  {
    var s, x := Spike(n), n as real;
    var m := Mean(s);
    assert s[..n - 1] == seq(n - 1, _ => 0.0);
    FlatStatistics(n - 1, m);
    assert Sum(s) == 1.0;
    SpikeAlgebra(x, m);
    assert Squares(s, m) == (x - 1.0) * (m * m) + (1.0 - m) * (1.0 - m);
  }

  lemma SpikeAlgebra(x: real, m: real)
    requires x >= 2.0 && m == 1.0 / x
    ensures ((x - 1.0) * (m * m) + (1.0 - m) * (1.0 - m)) / (x - 1.0) == m
  {
    assert x * m == 1.0;
    assert (x - 1.0) * (m * m) == (x * m) * m - m * m;
    assert (1.0 - m) * (1.0 - m) == 1.0 - 2.0 * m + m * m;
    assert (x - 1.0) * m == 1.0 - m;
    assert ((x - 1.0) * m) / (x - 1.0) == m;
  }

  lemma SpikeExceeds(n: nat, c: real)
    requires n >= 2 && ((n - 1) as real) * ((n - 1) as real) > c * c * (n as real)
    ensures Exceeds(Spike(n), c)
  {
    SpikeStatistics(n);
    ExceedAlgebra(n as real, 1.0 / (n as real), c * c);
  }

  lemma ExceedAlgebra(x: real, m: real, cc: real)
    requires x > 0.0 && m == 1.0 / x && (x - 1.0) * (x - 1.0) > cc * x
    ensures (1.0 - m) * (1.0 - m) > cc * m
  {
    assert x * m == 1.0;
    var d := 1.0 - m;
    assert x * d == x - 1.0;
    SquareOfProduct(x, d);
    assert (d * d) * (x * x) > cc * x;
    assert (cc * m) * (x * x) == cc * x by { assert (cc * m) * (x * x) == cc * ((x * m) * x); }
    if d * d <= cc * m {
      SquareIsNonNegative(x);
      Scale(d * d, cc * m, x * x);
    }
  }

  /** A deviation beyond six standard deviations, which is what "critical" means at the
      default sensitivity of three, is possible exactly in windows of at least 38 values. */
  lemma CriticalNeedsThirtyEight(n: nat)
    ensures (exists s :: |s| == n && Exceeds(s, 6.0)) <==> n >= 38
  {
    var x := n as real;
    ThirtyEight(n);
    if n >= 38 {
      SpikeExceeds(n, 6.0);
      assert |Spike(n)| == n;
    }
    forall s: seq<real> | |s| == n && Exceeds(s, 6.0) ensures n >= 38 {
      ExceedingNeedsRoom(s, 6.0);
    }
  }

  lemma ThirtyEight(n: nat)
    ensures n >= 1 ==> (((n - 1) as real) * ((n - 1) as real) > 36.0 * (n as real) <==> n >= 38)
  {
    var u := (n - 1) as real;
    if n >= 38 {
      NonNegative(u - 37.0, u, u * u - 37.0 * u);
    } else if n >= 1 {
      NonNegative(36.0 - u, u, 36.0 * u - u * u);
    }
  }

  // ---- the detector -----------------------------------------------------------------------

  datatype Config = Config(learningPeriod: int, sensitivity: real, minDataPoints: int)

  datatype Baseline = Baseline(values: seq<real>, mean: real, stdDev: real, min: real, max: real,
                               count: nat, learningUntil: int, lastUpdated: int)

  datatype Grade = Critical | High | Medium

  datatype Finding = Finding(key: string, value: real, expectedMean: real, expectedStdDev: real,
                             deviation: real, grade: Grade)

  /** The window after observing a value: the last thousand values, this one included. */
  function Window(values: seq<real>, value: real): (w: seq<real>)
    ensures w != [] && w[|w| - 1] == value
  {
    var all := values + [value];
    if |all| > 1000 then all[|all| - 1000..] else all
  }

  /** `root` is what math.Sqrt returns for the variance. */
  predicate IsRoot(root: real, variance: real) { root >= 0.0 && root * root == variance }

  function Distance(a: real, b: real): (d: real)
    ensures d >= 0.0 && (d == a - b || d == b - a)
  {
    if a >= b then a - b else b - a
  }

  function Graded(sensitivity: real, deviation: real): Grade {
    if deviation > sensitivity * 2.0 then Critical
    else if deviation > sensitivity * 1.5 then High
    else Medium
  }

  function Known(baselines: map<string, Baseline>, key: string): Option<Baseline> {
    if key in baselines then Some(baselines[key]) else None
  }

  function Values(known: Option<Baseline>): seq<real> { if known.Some? then known.value.values else [] }

  function Lesser(a: real, b: real): real { if a < b then a else b }

  function Greater(a: real, b: real): real { if a > b then a else b }

  /** The clock readings of one observation, in the order the source takes them; `start` is taken
      for the first value of a key only. */
  datatype Readings = Readings(start: int, update: int, check: int) {
    predicate Ordered() { start <= update <= check }
  }

  /** The baseline after a value; the first one starts the learning period. */
  function Updated(c: Config, known: Option<Baseline>, value: real, at: Readings, root: real): Baseline {
    var values := Window(Values(known), value);
    match known
    case None => Baseline(values, Mean(values), root, value, value, 1, at.start + c.learningPeriod, at.update)
    case Some(b) =>
      Baseline(values, Mean(values), root, Lesser(value, b.min), Greater(value, b.max), b.count + 1,
               b.learningUntil, at.update)
  }

  /** Whether the value just taken into the baseline is reported. */
  predicate Reports(c: Config, b: Baseline, value: real, now: int) {
    now >= b.learningUntil && b.count >= c.minDataPoints && b.stdDev != 0.0 &&
    Distance(value, b.mean) / b.stdDev >= c.sensitivity
  }

  function Report(c: Config, key: string, b: Baseline, value: real): Finding
    requires b.stdDev != 0.0
  {
    var deviation := Distance(value, b.mean) / b.stdDev;
    Finding(key, value, b.mean, b.stdDev, deviation, Graded(c.sensitivity, deviation))
  }

  /** The value lies at least that many standard deviations above or below the mean. */
  predicate AtLeast(value: real, b: Baseline, times: real) {
    b.stdDev != 0.0 && ((value - b.mean) / b.stdDev >= times || (b.mean - value) / b.stdDev >= times)
  }

  predicate MoreThan(value: real, b: Baseline, times: real) {
    b.stdDev != 0.0 && ((value - b.mean) / b.stdDev > times || (b.mean - value) / b.stdDev > times)
  }

  /** The report in so many words: it comes when learning is over, there are enough values, they
      vary, and this one lies at least `sensitivity` standard deviations from their mean; it is
      critical beyond twice and high beyond one and a half times as many. */
  predicate Tells(c: Config, key: string, value: real, now: int, b: Baseline, found: Option<Finding>) {
    (found.Some? <==> now >= b.learningUntil && b.count >= c.minDataPoints && AtLeast(value, b, c.sensitivity)) &&
    (found.Some? ==>
      (var f := found.value;
       f.key == key && f.value == value && f.expectedMean == b.mean && f.expectedStdDev == b.stdDev &&
       (f.grade == Critical <==> MoreThan(value, b, 2.0 * c.sensitivity)) &&
       (f.grade == High <==> MoreThan(value, b, 1.5 * c.sensitivity) && !MoreThan(value, b, 2.0 * c.sensitivity))))
  }

  lemma DeviationIsTheLarger(value: real, b: Baseline, times: real)
    requires b.stdDev > 0.0
    ensures AtLeast(value, b, times) <==> Distance(value, b.mean) / b.stdDev >= times
    ensures MoreThan(value, b, times) <==> Distance(value, b.mean) / b.stdDev > times
  {
    Quotients(value - b.mean, b.mean - value, b.stdDev);
    Quotients(b.mean - value, value - b.mean, b.stdDev);
  }

  lemma Quotients(d: real, e: real, root: real)
    requires root > 0.0 && d == -e
    ensures d >= 0.0 ==> d / root >= e / root
  {
    assert (d / root) * root == d && (e / root) * root == e;
    if d >= 0.0 && d / root < e / root { ScaleStrictly(d / root, e / root, root); }
  }

  lemma ReportTells(c: Config, key: string, value: real, now: int, b: Baseline)
    requires b.stdDev >= 0.0
    ensures Tells(c, key, value, now, b, if Reports(c, b, value, now) then Some(Report(c, key, b, value)) else None)
  {
    if b.stdDev > 0.0 {
      DeviationIsTheLarger(value, b, c.sensitivity);
      DeviationIsTheLarger(value, b, 2.0 * c.sensitivity);
      DeviationIsTheLarger(value, b, 1.5 * c.sensitivity);
    }
  }

  class Detector {
    const config: Config
    var baselines: map<string, Baseline>

    constructor (config: Config)
      ensures baselines == map[]
      ensures this.config.sensitivity == if config.sensitivity == 0.0 then 3.0 else config.sensitivity
      ensures this.config.minDataPoints == if config.minDataPoints == 0 then 30 else config.minDataPoints
      ensures this.config.learningPeriod == config.learningPeriod
    {
      this.config := Config(config.learningPeriod,
                            if config.sensitivity == 0.0 then 3.0 else config.sensitivity,
                            if config.minDataPoints == 0 then 30 else config.minDataPoints);
      baselines := map[];
    }

    /** Reports exactly when learning is over, the window varies, and the value lies at least
        `sensitivity` standard deviations from the mean of a window that contains it. */
    method Observe(key: string, value: real, at: Readings, root: real) returns (found: Option<Finding>)
      requires at.Ordered()
      requires IsRoot(root, Variance(Window(Values(Known(baselines, key)), value)))
      modifies this
      ensures baselines == old(baselines)[key := Updated(config, Known(old(baselines), key), value, at, root)]
      ensures found == if Reports(config, baselines[key], value, at.check)
                       then Some(Report(config, key, baselines[key], value)) else None
      ensures Tells(config, key, value, at.check, baselines[key], found)
    {
      var b := if key in baselines then baselines[key]
               else Baseline([], 0.0, 0.0, value, value, 0, at.start + config.learningPeriod, at.start);
      var values := b.values + [value];
      if |values| > 1000 {
        values := values[|values| - 1000..];
      }
      var m := MeanOf(values);
      var variance := VarianceOf(values, m);
      assert IsRoot(root, variance);
      b := Baseline(values, m, root, if value < b.min then value else b.min, if value > b.max then value else b.max,
                    b.count + 1, b.learningUntil, at.update);
      baselines := baselines[key := b];
      ReportTells(config, key, value, at.check, b);
      if at.check < b.learningUntil || b.count < config.minDataPoints || b.stdDev == 0.0 {
        return None;
      }
      var deviation := Distance(value, b.mean) / b.stdDev;
      if deviation < config.sensitivity {
        return None;
      }
      return Some(Finding(key, value, b.mean, b.stdDev, deviation, Graded(config.sensitivity, deviation)));
    }
  }

  lemma DistanceSquared(a: real, b: real)
    ensures Distance(a, b) * Distance(a, b) == (a - b) * (a - b)
  {
  }

  lemma DeviationExceeds(s: seq<real>, root: real, c: real)
    requires |s| >= 2 && IsRoot(root, Variance(s)) && root > 0.0 && c >= 0.0
    requires Distance(s[|s| - 1], Mean(s)) / root > c
    ensures Exceeds(s, c)
  {
    var d := Distance(s[|s| - 1], Mean(s));
    ExceedsInSquares(d, root, c);
    DistanceSquared(s[|s| - 1], Mean(s));
  }

  lemma ExceedsInSquares(d: real, root: real, c: real)
    requires root > 0.0 && c >= 0.0 && d / root > c
    ensures d * d > c * c * (root * root)
  {
    var x := d / root;
    assert x * root == d;
    ScaleStrictly(c, x, root);
    NonNegative(c, root, c * root);
    SquareGrows(c * root, d);
    SquareOfProduct(c, root);
  }

  /** Whatever was observed before: a deviation of c standard deviations needs a window with
      (n - 1)^2 >= c^2 n, and a critical report at sensitivity three needs 38 values. */
  lemma ReportsNeedRoom(values: seq<real>, value: real, root: real, sensitivity: real)
    requires sensitivity >= 0.0 && root != 0.0 && IsRoot(root, Variance(Window(values, value)))
    requires Distance(value, Mean(Window(values, value))) / root >= sensitivity
    ensures var n := |Window(values, value)|;
            ((n - 1) as real) * ((n - 1) as real) >= sensitivity * sensitivity * (n as real)
    ensures sensitivity == 3.0 &&
            Graded(sensitivity, Distance(value, Mean(Window(values, value))) / root) == Critical ==>
            |Window(values, value)| >= 38
  {
    var s := Window(values, value);
    var deviation := Distance(value, Mean(s)) / root;
    var n, k := |s| as real, (|s| - 1) as real;
    assert |s| >= 2 by { Positive(root, root, Variance(s)); }
    DeviationAtMost(s, root);
    if sensitivity < deviation { SquareGrows(sensitivity, deviation); }
    Scale(sensitivity * sensitivity, deviation * deviation, n);
    if sensitivity == 3.0 && deviation > 6.0 {
      DeviationExceeds(s, root, 6.0);
      CriticalNeedsThirtyEight(|s|);
    }
  }

  lemma DeviationAtMost(s: seq<real>, root: real)
    requires |s| >= 2 && root > 0.0 && IsRoot(root, Variance(s))
    ensures var deviation := Distance(s[|s| - 1], Mean(s)) / root;
            deviation * deviation * (|s| as real) <= ((|s| - 1) as real) * ((|s| - 1) as real)
  {
    var d, k := Distance(s[|s| - 1], Mean(s)), (|s| - 1) as real;
    DistanceIsBounded(s);
    DistanceSquared(s[|s| - 1], Mean(s));
    AtMostAlgebra(|s| as real, k * k, d, root);
  }

  lemma AtMostAlgebra(n: real, kk: real, d: real, root: real)
    requires root > 0.0 && n * (d * d) <= kk * (root * root)
    ensures (d / root) * (d / root) * n <= kk
  {
    var x, v := d / root, root * root;
    assert x * root == d;
    SquareOfProduct(x, root);
    Positive(root, root, v);
    assert n * ((x * x) * v) == (x * x * n) * v;
    Cancel(x * x * n, kk, v);
  }

  // ---- observations of one key ----------------------------------------------------------------

  /** The values observed for one key, the latest outermost, each with the clock and the root.
      Only the latest root takes part in a report. */
  datatype Watch = Nothing | Then(prev: Watch, value: real, at: Readings, root: real)

  function BaselineOf(c: Config, w: Watch): Option<Baseline> {
    match w
    case Nothing => None
    case Then(prev, value, at, root) => Some(Updated(c, BaselineOf(c, prev), value, at, root))
  }

  function Observed(w: Watch): seq<real> { if w.Nothing? then [] else Observed(w.prev) + [w.value] }

  function FirstTime(w: Watch): int
    requires w.Then?
  {
    if w.prev.Nothing? then w.at.start else FirstTime(w.prev)
  }

  predicate IsLeast(m: real, s: seq<real>) { m in s && forall i :: 0 <= i < |s| ==> m <= s[i] }

  predicate IsGreatest(m: real, s: seq<real>) { m in s && forall i :: 0 <= i < |s| ==> s[i] <= m }

  function Latest(s: seq<real>): seq<real> { if |s| > 1000 then s[|s| - 1000..] else s }

  lemma WindowIsLatest(s: seq<real>, value: real)
    ensures Window(Latest(s), value) == Latest(s + [value])
  {
  }

  /** The baseline learns from the first observation on, counts all of them, keeps the latest
      thousand, and its extremes are those of everything observed. */
  ghost predicate Describes(c: Config, b: Baseline, first: int, seen: seq<real>) {
    b.learningUntil == first + c.learningPeriod && b.count == |seen| && b.values == Latest(seen) &&
    IsLeast(b.min, seen) && IsGreatest(b.max, seen)
  }

  lemma ExtremesGrow(b: Baseline, seen: seq<real>, value: real)
    requires IsLeast(b.min, seen) && IsGreatest(b.max, seen)
    ensures IsLeast(Lesser(value, b.min), seen + [value]) && IsGreatest(Greater(value, b.max), seen + [value])
  {
    assert (seen + [value])[|seen|] == value;
  }

  lemma UpdateDescribes(c: Config, b: Baseline, first: int, seen: seq<real>, value: real, at: Readings,
                        root: real)
    requires Describes(c, b, first, seen)
    ensures Describes(c, Updated(c, Some(b), value, at, root), first, seen + [value])
  {
    WindowIsLatest(seen, value);
    ExtremesGrow(b, seen, value);
  }

  lemma FirstDescribes(c: Config, value: real, at: Readings, root: real)
    ensures Describes(c, Updated(c, None, value, at, root), at.start, [value])
  {
  }

  /** The baseline is decided by the observations. */
  lemma {:induction false} BaselineIsHistory(c: Config, w: Watch)
    requires w.Then?
    ensures Describes(c, BaselineOf(c, w).value, FirstTime(w), Observed(w))
  {
    if w.prev.Nothing? {
      FirstDescribes(c, w.value, w.at, w.root);
      assert [] + [w.value] == [w.value];
    } else {
      BaselineIsHistory(c, w.prev);
      UpdateDescribes(c, BaselineOf(c, w.prev).value, FirstTime(w.prev), Observed(w.prev), w.value, w.at, w.root);
    }
  }

  /** Nothing is reported before the first observation plus the learning period, nor before enough
      values; and at the default sensitivity nothing is critical before 38 of them. */
  lemma NothingReportedTooEarly(c: Config, w: Watch)
    requires w.Then? && IsRoot(w.root, Variance(Latest(Observed(w))))
    requires Reports(c, BaselineOf(c, w).value, w.value, w.at.check)
    ensures w.at.check >= FirstTime(w) + c.learningPeriod && |Observed(w)| >= c.minDataPoints
    ensures c.sensitivity == 3.0 && Report(c, "", BaselineOf(c, w).value, w.value).grade == Critical ==>
      |Observed(w)| >= 38
  {
    BaselineIsHistory(c, w);
    WindowIsLatest(Observed(w.prev), w.value);
    if c.sensitivity == 3.0 {
      ReportsNeedRoom(Latest(Observed(w.prev)), w.value, w.root, 3.0);
    }
  }

  // ---- critical reports -------------------------------------------------------------------------

  /** A base followed by pairs t, -t. */
  function Paired(base: seq<real>, pairs: nat, t: real): seq<real> {
    if pairs == 0 then base else Paired(base, pairs - 1, t) + [t] + [-t]
  }

  function Five(a: real, b: real): seq<real> { [a, a, a, a, b] }

  /** k values that sum to zero and whose squares sum to k t^2. */
  function Balanced(k: nat, t: real): seq<real>
    requires k % 2 == 0 || k >= 5
  {
    if k % 2 == 0 then Paired([], k / 2, t) else Paired(Five(t / 2.0, -2.0 * t), (k - 5) / 2, t)
  }

  lemma SumsOfOne(s: seq<real>, x: real)
    ensures Sum(s + [x]) == Sum(s) + x && SumOfSquares(s + [x]) == SumOfSquares(s) + x * x
  {
    assert (s + [x])[..|s|] == s;
  }

  lemma SumsOfFive(a: real, b: real)
    ensures Sum(Five(a, b)) == 4.0 * a + b && SumOfSquares(Five(a, b)) == 4.0 * (a * a) + b * b
  {
    var one, two, three, four := [] + [a], [] + [a] + [a], [] + [a] + [a] + [a], [] + [a] + [a] + [a] + [a];
    SumsOfOne([], a);
    SumsOfOne(one, a);
    SumsOfOne(two, a);
    SumsOfOne(three, a);
    SumsOfOne(four, b);
    assert Five(a, b) == four + [b];
  }

  /** k times x, without a product. */
  function Times(k: nat, x: real): real { if k == 0 then 0.0 else Times(k - 1, x) + x }

  lemma {:induction false} TimesIsProduct(k: nat, x: real)
    ensures Times(k, x) == (k as real) * x
  {
    if k > 0 {
      TimesIsProduct(k - 1, x);
      OneMore((k - 1) as real, k as real, x);
    }
  }

  lemma PairKeepsSum(s: seq<real>, t: real, tt: real)
    requires tt == t * t
    ensures Sum(s + [t] + [-t]) == Sum(s) && SumOfSquares(s + [t] + [-t]) == SumOfSquares(s) + (tt + tt)
  {
    SumsOfOne(s, t);
    SumsOfOne(s + [t], -t);
    assert (-t) * (-t) == t * t;
  }

  lemma {:induction false} PairedSums(base: seq<real>, pairs: nat, t: real, tt: real)
    requires tt == t * t
    ensures |Paired(base, pairs, t)| == |base| + 2 * pairs && Sum(Paired(base, pairs, t)) == Sum(base)
    ensures SumOfSquares(Paired(base, pairs, t)) == SumOfSquares(base) + Times(pairs, tt + tt)
  {
    if pairs > 0 {
      PairedSums(base, pairs - 1, t, tt);
      PairKeepsSum(Paired(base, pairs - 1, t), t, tt);
    }
  }

  lemma EvenSums(pairs: nat, k: nat, t: real, tt: real)
    requires k == 2 * pairs && tt == t * t
    ensures |Paired([], pairs, t)| == k && Sum(Paired([], pairs, t)) == 0.0
    ensures SumOfSquares(Paired([], pairs, t)) == (k as real) * tt
  {
    PairedSums([], pairs, t, tt);
    TimesIsProduct(pairs, tt + tt);
    DoubleCount(pairs as real, k as real, 0.0, tt);
  }

  lemma OddSums(pairs: nat, k: nat, t: real, tt: real)
    requires k == 2 * pairs + 5 && tt == t * t
    ensures var s := Paired(Five(t / 2.0, -2.0 * t), pairs, t);
      |s| == k && Sum(s) == 0.0 && SumOfSquares(s) == (k as real) * tt
  {
    var a, b := t / 2.0, -2.0 * t;
    PairedSums(Five(a, b), pairs, t, tt);
    SumsOfFive(a, b);
    assert 4.0 * (a * a) == tt && b * b == 4.0 * tt;
    TimesIsProduct(pairs, tt + tt);
    DoubleCount(pairs as real, k as real, 5.0, tt);
  }

  lemma DoubleCount(pairs: real, k: real, more: real, tt: real)
    requires k == 2.0 * pairs + more
    ensures k * tt == more * tt + pairs * (tt + tt)
  {
  }

  lemma BalancedSums(k: nat, t: real, tt: real)
    requires (k % 2 == 0 || k >= 5) && tt == t * t
    ensures |Balanced(k, t)| == k && Sum(Balanced(k, t)) == 0.0
    ensures SumOfSquares(Balanced(k, t)) == (k as real) * tt
  {
    if k % 2 == 0 {
      var pairs := k / 2;
      assert k == 2 * pairs;
      EvenSums(pairs, k, t, tt);
    } else {
      var pairs := (k - 5) / 2;
      assert k == 2 * pairs + 5;
      OddSums(pairs, k, t, tt);
    }
  }

  lemma {:induction false} SquaresAboutOne(s: seq<real>)
    ensures Squares(s, 1.0) == SumOfSquares(s) - 2.0 * Sum(s) + (|s| as real)
  {
    if s != [] {
      SquaresAboutOne(s[..|s| - 1]);
    }
  }

  /** A window of n values that ends in n, with mean one and variance n + t^2. */
  lemma PeakStatistics(n: nat, t: real)
    requires n >= 6
    ensures var s := Balanced(n - 1, t) + [n as real];
      |s| == n && Mean(s) == 1.0 && Variance(s) == t * t + (n as real)
  {
    BalancedSums(n - 1, t, t * t);
    PeakBehind(Balanced(n - 1, t), n, n as real, (n - 1) as real, t * t);
  }

  lemma PeakBehind(front: seq<real>, n: nat, x: real, k: real, tt: real)
    requires n >= 6 && |front| == n - 1 && x == n as real && k == (n - 1) as real
    requires Sum(front) == 0.0 && SumOfSquares(front) == k * tt
    ensures |front + [x]| == n && Mean(front + [x]) == 1.0 && Variance(front + [x]) == tt + x
  {
    var s := front + [x];
    PeakMean(front, n, x);
    var q := Squares(s, 1.0);
    PeakSquares(front, k, x, q);
    PeakAlgebra(x, k, tt, q);
    assert Variance(s) == q / k;
  }

  lemma PeakMean(front: seq<real>, n: nat, x: real)
    requires n >= 1 && |front| == n - 1 && x == n as real && Sum(front) == 0.0
    ensures Mean(front + [x]) == 1.0
  {
    var s := front + [x];
    SumsOfOne(front, x);
    assert s != [] && |s| as real == x && Sum(s) == x;
    OverItself(x);
  }

  lemma OverItself(x: real)
    requires x > 0.0
    ensures x / x == 1.0
  {
  }

  lemma PeakSquares(front: seq<real>, k: real, x: real, q: real)
    requires k == |front| as real && Sum(front) == 0.0 && q == Squares(front + [x], 1.0)
    ensures q == SumOfSquares(front) + k + (x - 1.0) * (x - 1.0)
  {
    var s := front + [x];
    assert s[..|s| - 1] == front && s[|s| - 1] == x;
    SquaresAboutOne(front);
  }

  lemma PeakAlgebra(x: real, k: real, tt: real, q: real)
    requires k > 0.0 && x == k + 1.0 && q == k * tt + k + (x - 1.0) * (x - 1.0)
    ensures q / k == tt + x
  {
    assert q == k * (tt + x);
  }

  /** t and the root r of n + t^2, both rational, with 6 r below n - 1 as soon as there is room. */
  lemma RationalRoot(x: real, k: real) returns (t: real, r: real)
    requires k > 0.0 && x > 0.0 && k * k > 36.0 * x
    ensures r > 0.0 && r * r == t * t + x && k / r > 6.0
  {
    var s := k / 6.0;
    var u := x / s;
    assert u * s == x;
    t, r := (u - s) / 2.0, (u + s) / 2.0;
    RootAlgebra(u, s, t, r);
    Positive(x, 1.0 / s, u);
    assert u < s by {
      if u >= s { Scale(s, u, s); }
    }
    assert k == 6.0 * s && r < s;
    assert (k / r) * r == k;
    if k / r <= 6.0 { Scale(k / r, 6.0, r); }
  }

  lemma RootAlgebra(u: real, s: real, t: real, r: real)
    requires t == (u - s) / 2.0 && r == (u + s) / 2.0
    ensures r * r == t * t + u * s
  {
    assert r - t == s && r + t == u;
    assert (r - t) * (r + t) == r * r - t * t;
  }

  /** A reading by which a learning period that began at zero is over. */
  function Learned(c: Config): int { if c.learningPeriod > 0 then c.learningPeriod else 0 }

  function WatchOf(values: seq<real>): Watch {
    if values == [] then Nothing
    else Then(WatchOf(values[..|values| - 1]), values[|values| - 1], Readings(0, 0, 0), 0.0)
  }

  lemma {:induction false} WatchSees(values: seq<real>)
    ensures Observed(WatchOf(values)) == values
    ensures values != [] ==> FirstTime(WatchOf(values)) == 0
  {
    if values != [] {
      WatchSees(values[..|values| - 1]);
    }
  }

  /** The latest observation is reported as critical, from a window of n values. */
  ghost predicate CriticalReport(c: Config, w: Watch, n: nat) {
    w.Then? && w.at.Ordered() && |Latest(Observed(w))| == n && IsRoot(w.root, Variance(Latest(Observed(w)))) &&
    Reports(c, BaselineOf(c, w).value, w.value, w.at.check) &&
      Report(c, "", BaselineOf(c, w).value, w.value).grade == Critical
  }

  lemma PeakIsCritical(c: Config, n: nat) returns (w: Watch)
    requires c.sensitivity == 3.0 && c.minDataPoints <= 38 <= n <= 1000
    ensures CriticalReport(c, w, n)
  {
    var x, k := n as real, (n - 1) as real;
    ThirtyEight(n);
    var t, r := RationalRoot(x, k);
    PeakStatistics(n, t);
    w := PeakIsReported(c, Balanced(n - 1, t), n, x, k, r);
  }

  lemma PeakIsReported(c: Config, front: seq<real>, n: nat, x: real, k: real, r: real) returns (w: Watch)
    requires c.sensitivity == 3.0 && c.minDataPoints <= 38 <= n <= 1000 && |front + [x]| == n
    requires k == x - 1.0 && k >= 0.0 && r > 0.0 && k / r > 6.0
    requires Mean(front + [x]) == 1.0 && Variance(front + [x]) == r * r
    ensures CriticalReport(c, w, n)
  {
    w := Then(WatchOf(front), x, Readings(0, 0, Learned(c)), r);
    PeakBaseline(c, front, x, r, w);
    PeakIsGradedCritical(c, BaselineOf(c, w).value, x, k, r);
  }

  lemma PeakBaseline(c: Config, front: seq<real>, x: real, r: real, w: Watch)
    requires 0 < |front| < 1000 && w == Then(WatchOf(front), x, Readings(0, 0, Learned(c)), r)
    ensures Observed(w) == front + [x] && Latest(Observed(w)) == front + [x]
    ensures var b := BaselineOf(c, w).value;
      b.mean == Mean(front + [x]) && b.stdDev == r && b.count == |front| + 1 && b.learningUntil == c.learningPeriod
  {
    WatchSees(front);
    BaselineIsHistory(c, w);
    assert BaselineOf(c, w).value.values == front + [x];
  }

  lemma PeakIsGradedCritical(c: Config, b: Baseline, x: real, k: real, r: real)
    requires c.sensitivity == 3.0 && c.minDataPoints <= b.count && b.learningUntil == c.learningPeriod
    requires k == x - 1.0 && k >= 0.0 && r > 0.0 && k / r > 6.0 && b.mean == 1.0 && b.stdDev == r
    ensures Reports(c, b, x, Learned(c)) && Report(c, "", b, x).grade == Critical
  {
    assert Distance(x, b.mean) == k;
  }

  /** At the default sensitivity a critical report comes from a window of n values, for some
      history of observations, if and only if n is at least 38 (and at most the window's size). */
  lemma CriticalReportsNeedThirtyEight(c: Config, n: nat)
    requires c.sensitivity == 3.0 && c.minDataPoints <= 38
    ensures (exists w :: CriticalReport(c, w, n)) <==> 38 <= n <= 1000
  {
    if 38 <= n <= 1000 {
      var w := PeakIsCritical(c, n);
    }
    forall w | CriticalReport(c, w, n) ensures 38 <= n <= 1000 {
      CriticalHasRoom(c, w, n);
    }
  }

  lemma CriticalHasRoom(c: Config, w: Watch, n: nat)
    requires c.sensitivity == 3.0 && CriticalReport(c, w, n)
    ensures 38 <= n <= 1000
  {
    BaselineIsHistory(c, w);
    WindowIsLatest(Observed(w.prev), w.value);
    ReportsNeedRoom(Latest(Observed(w.prev)), w.value, w.root, 3.0);
  }
}
