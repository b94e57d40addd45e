/** The server's probability functions: the binomial coefficient, the four
    probability mass functions with their support guards, the support over which
    each distribution is tabulated, the mean and variance, and the probability of
    the event `X = t`, `X <= t` or `X >= t`.

    Arithmetic is over the reals, not IEEE floats. `math.sqrt` and `math.exp`
    are taken from a `Builtins` value; everything else is computed as written. */
module ProbFuncs {
  import opened Wrappers
  import opened PyValues

  // ---------------------------------------------------------------------------
  // Combinatorics and powers

  function Fact(n: nat): (f: nat)
    ensures f >= 1
  {
    if n == 0 then 1 else n * Fact(n - 1)
  }

  /** The binomial coefficient, by Pascal's rule. */
  function Comb(n: nat, k: nat): nat
    requires k <= n
  {
    if k == 0 || k == n then 1 else Comb(n - 1, k - 1) + Comb(n - 1, k)
  }

  /** The arithmetic of one step of the induction below: with
      `K = k * (k-1)!` and `N = (n-k) * (n-k-1)!`, the two Pascal summands
      contribute `k * (n-1)!` and `(n-k) * (n-1)!`. */
  lemma PascalStep(n: int, k: int, a: int, c: int, fk1: int, fnk1: int, fn1: int)
    requires a * fk1 * ((n - k) * fnk1) == fn1
    requires c * (k * fk1) * fnk1 == fn1
    ensures (a + c) * (k * fk1) * ((n - k) * fnk1) == n * fn1
  {
    var bigK, bigN := k * fk1, (n - k) * fnk1;
    assert (a + c) * bigK * bigN == a * bigK * bigN + c * bigK * bigN;
    assert a * bigK * bigN == k * (a * fk1 * bigN);
    assert c * bigK * bigN == (n - k) * (c * bigK * fnk1);
  }

  /** Pascal's rule computes `n! / (k! (n-k)!)`, the value of `math.comb`. */
  lemma {:induction false} CombFactorials(n: nat, k: nat)
    requires k <= n
    ensures Comb(n, k) > 0
    ensures Comb(n, k) * Fact(k) * Fact(n - k) == Fact(n)
  {
    if k == 0 || k == n {
      assert Comb(n, k) == 1;
    } else {
      CombFactorials(n - 1, k - 1);
      CombFactorials(n - 1, k);
      assert Fact(k) == k * Fact(k - 1);
      assert Fact(n - k) == (n - k) * Fact(n - 1 - k);
      PascalStep(n, k, Comb(n - 1, k - 1), Comb(n - 1, k), Fact(k - 1), Fact(n - 1 - k), Fact(n - 1));
    }
  }

  /** `nCr(n, r)` (prob_funcs.py): zero when `r < 0` or `r > n`, otherwise the
      binomial coefficient `n! / (r! (n-r)!)`. */
  function NCr(n: int, r: int): (c: nat)
    ensures c > 0 <==> 0 <= r <= n
    ensures 0 <= r <= n ==> c * Fact(r) * Fact(n - r) == Fact(n)
  {
    if r < 0 || r > n then 0
    else
      CombFactorials(n, r);
      Comb(n, r)
  }

  /** `x ** k` for a float `x` and a non-negative int `k`. */
  function Pow(x: real, k: nat): real
  {
    if k == 0 then 1.0 else x * Pow(x, k - 1)
  }

  lemma {:induction false} PowPositive(x: real, k: nat)
    requires x > 0.0
    ensures Pow(x, k) > 0.0
  {
    if k > 0 {
      PowPositive(x, k - 1);
      assert Pow(x, k) == x * Pow(x, k - 1);
    }
  }

  lemma {:induction false} PowNonzero(x: real, k: nat)
    requires x != 0.0
    ensures Pow(x, k) != 0.0
  {
    if k > 0 {
      PowNonzero(x, k - 1);
      assert Pow(x, k) == x * Pow(x, k - 1);
    }
  }

  /** `x ** e` for an int `e` of either sign; Python raises ZeroDivisionError
      for `0.0 ** e` with `e < 0`, which the precondition excludes. */
  function PowInt(x: real, e: int): real
    requires e >= 0 || x != 0.0
  {
    if e >= 0 then Pow(x, e)
    else
      PowNonzero(x, -e);
      1.0 / Pow(x, -e)
  }

  // ---------------------------------------------------------------------------
  // Probability mass functions

  /** `binomial_pmf(n, p, k)`. */
  function BinomialPmf(n: int, p: real, k: int): (q: real)
    ensures k < 0 || k > n ==> q == 0.0
  {
    if k < 0 || k > n then 0.0
    else NCr(n, k) as real * Pow(p, k) * Pow(1.0 - p, n - k)
  }

  /** `negbin_pmf_total_trials(r, p, k)`: `k` is the total number of trials up
      to and including the r-th success. The precondition is the one under which
      Python's `p ** r` does not raise; the support computation checks `p != 0`
      before it ever evaluates the mass function. */
  function NegBinPmf(r: int, p: real, k: int): (q: real)
    requires r >= 0 || p != 0.0
    ensures k < r ==> q == 0.0
  {
    if k < r then 0.0
    else NCr(k - 1, r - 1) as real * PowInt(p, r) * Pow(1.0 - p, k - r)
  }

  /** `geometric_pmf_trial_count(p, k)`: `k` counts trials up to the first success. */
  function GeometricPmf(p: real, k: int): (q: real)
    ensures k < 1 ==> q == 0.0
  {
    if k < 1 then 0.0 else Pow(1.0 - p, k - 1) * p
  }

  /** `poisson_pmf(lam, k)`, with `math.exp` taken from `b`. */
  function PoissonPmf(lam: real, k: int, b: Builtins): (q: real)
    ensures k < 0 ==> q == 0.0
  {
    if k < 0 then 0.0 else b.exp(-lam) * Pow(lam, k) / Fact(k) as real
  }

  lemma BinomialPmfPositive(n: int, p: real, k: int)
    requires 0.0 < p < 1.0
    ensures BinomialPmf(n, p, k) > 0.0 <==> 0 <= k <= n
  {
    if 0 <= k <= n {
      PowPositive(p, k);
      PowPositive(1.0 - p, n - k);
      var c := NCr(n, k) as real;
      assert c > 0.0;
      assert c * Pow(p, k) > 0.0;
    }
  }

  lemma NegBinPmfPositive(r: int, p: real, k: int)
    requires r >= 1 && 0.0 < p < 1.0
    ensures NegBinPmf(r, p, k) > 0.0 <==> k >= r
  {
    if k >= r {
      PowPositive(p, r);
      PowPositive(1.0 - p, k - r);
      var c := NCr(k - 1, r - 1) as real;
      assert c > 0.0;
      assert c * PowInt(p, r) > 0.0;
    }
  }

  lemma GeometricPmfPositive(p: real, k: int)
    requires 0.0 < p < 1.0
    ensures GeometricPmf(p, k) > 0.0 <==> k >= 1
  {
    if k >= 1 {
      PowPositive(1.0 - p, k - 1);
    }
  }

  /** Positive exactly on the support, given that `math.exp` is positive. */
  lemma PoissonPmfPositive(lam: real, k: int, b: Builtins)
    requires lam > 0.0 && b.exp(-lam) > 0.0
    ensures PoissonPmf(lam, k, b) > 0.0 <==> k >= 0
  {
    if k >= 0 {
      PowPositive(lam, k);
      assert b.exp(-lam) * Pow(lam, k) > 0.0;
    }
  }

  // ---------------------------------------------------------------------------
  // Supports

  predicate KnownDistribution(dist: Value)
  {
    dist == Str("binomial") || dist == Str("negbin") || dist == Str("geometric") || dist == Str("poisson")
  }

  /** `int(params[key])`: KeyError when the key is absent. */
  function IntParam(params: map<string, Value>, key: string, b: Builtins): Result<int, PyError>
  {
    if key in params then ToInt(params[key], b) else Failure(KeyError(key))
  }

  /** `float(params[key])`: KeyError when the key is absent. */
  function FloatParam(params: map<string, Value>, key: string, b: Builtins): Result<real, PyError>
  {
    if key in params then ToFloat(params[key], b) else Failure(KeyError(key))
  }

  /** `list(range(lo, hi))`. */
  function Range(lo: int, hi: int): (xs: seq<int>)
    ensures |xs| == if hi <= lo then 0 else hi - lo
    ensures forall i :: 0 <= i < |xs| ==> xs[i] == lo + i
  {
    seq(if hi <= lo then 0 else hi - lo, i => lo + i)
  }

  /** `math.ceil`. */
  function Ceil(x: real): (c: int)
    ensures x <= c as real < x + 1.0
  {
    -((-x).Floor)
  }

  function Max(a: int, b: int): int
  {
    if a < b then b else a
  }

  const DivisionByZero := ZeroDivisionError("float division by zero")
  const MathDomain := ValueError("math domain error")

  /** `r / p` and `r * (1 - p) / p ** 2`: the negative binomial's mean and
      variance, computed alike by `support_and_pmf` and `stats_for`. */
  function NegBinMean(r: int, p: real): real
    requires p != 0.0
  {
    r as real / p
  }

  function NegBinVariance(r: int, p: real): real
    requires p != 0.0
  {
    r as real * (1.0 - p) / (p * p)
  }

  /** `1 / p` and `(1 - p) / p ** 2`: the geometric distribution's mean and variance. */
  function GeometricMean(p: real): real
    requires p != 0.0
  {
    1.0 / p
  }

  function GeometricVariance(p: real): real
    requires p != 0.0
  {
    (1.0 - p) / (p * p)
  }

  /** The last tabulated value for the negative binomial:
      `max(r + 10, ceil(mean + 6 * std))`, with the ZeroDivisionError of
      `r / p` and the math domain error of `sqrt` of a negative variance. */
  function NegBinCap(r: int, p: real, b: Builtins): (cap: Result<int, PyError>)
    ensures cap.Success? <==> p != 0.0 && NegBinVariance(r, p) >= 0.0
    ensures cap.Success? ==> cap.value >= r + 10
  {
    if p == 0.0 then Failure(DivisionByZero)
    else if NegBinVariance(r, p) < 0.0 then Failure(MathDomain)
    else Success(Max(r + 10, Ceil(NegBinMean(r, p) + 6.0 * b.sqrt(NegBinVariance(r, p)))))
  }

  /** The last tabulated value for the geometric distribution:
      `max(10, ceil(mean + 6 * std))`. */
  function GeometricCap(p: real, b: Builtins): (cap: Result<int, PyError>)
    ensures cap.Success? <==> p != 0.0 && GeometricVariance(p) >= 0.0
    ensures cap.Success? ==> cap.value >= 10
  {
    if p == 0.0 then Failure(DivisionByZero)
    else if GeometricVariance(p) < 0.0 then Failure(MathDomain)
    else Success(Max(10, Ceil(GeometricMean(p) + 6.0 * b.sqrt(GeometricVariance(p)))))
  }

  /** The last tabulated value for the Poisson distribution:
      `max(10, ceil(lam + 6 * sqrt(lam)))`. */
  function PoissonCap(lam: real, b: Builtins): (cap: Result<int, PyError>)
    ensures cap.Success? ==> cap.value >= 10
  {
    if lam < 0.0 then Failure(MathDomain)
    else Success(Max(10, Ceil(lam + 6.0 * b.sqrt(lam))))
  }

  /** The tabulated support `xs` and the masses `ps` at those points. */
  datatype Support = Support(xs: seq<int>, ps: seq<real>)

  /** `xs` holds the integers `lo, lo + 1, ...` in order. */
  predicate ConsecutiveFrom(xs: seq<int>, lo: int)
  {
    forall i :: 0 <= i < |xs| ==> xs[i] == lo + i
  }

  /** `support_and_pmf(dist, params)`. */
  function SupportAndPmf(dist: Value, params: map<string, Value>, b: Builtins): (r: Result<Support, PyError>)
    ensures !KnownDistribution(dist) ==> r == Failure(ValueError("Unknown distribution"))
    ensures r.Success? ==> |r.value.xs| == |r.value.ps| && (|r.value.xs| > 0 ==> ConsecutiveFrom(r.value.xs, r.value.xs[0]))
  {
    if dist == Str("binomial") then
      var n :- IntParam(params, "n", b);
      var p :- FloatParam(params, "p", b);
      var xs := Range(0, n + 1);
      Success(Support(xs, seq(|xs|, i requires 0 <= i < |xs| => BinomialPmf(n, p, xs[i]))))
    else if dist == Str("negbin") then
      var r :- IntParam(params, "r", b);
      var p :- FloatParam(params, "p", b);
      var cap :- NegBinCap(r, p, b);
      var xs := Range(r, cap + 1);
      Success(Support(xs, seq(|xs|, i requires 0 <= i < |xs| => NegBinPmf(r, p, xs[i]))))
    else if dist == Str("geometric") then
      var p :- FloatParam(params, "p", b);
      var cap :- GeometricCap(p, b);
      var xs := Range(1, cap + 1);
      Success(Support(xs, seq(|xs|, i requires 0 <= i < |xs| => GeometricPmf(p, xs[i]))))
    else if dist == Str("poisson") then
      var lam :- FloatParam(params, "lam", b);
      var cap :- PoissonCap(lam, b);
      var xs := Range(0, cap + 1);
      Success(Support(xs, seq(|xs|, i requires 0 <= i < |xs| => PoissonPmf(lam, xs[i], b))))
    else
      Failure(ValueError("Unknown distribution"))
  }

  /** The binomial support is exactly `0..n` in increasing order, `ps[i]` is
      the mass at `xs[i]`, and no value outside the support carries mass. */
  lemma BinomialSupport(params: map<string, Value>, b: Builtins, n: int, p: real)
    requires IntParam(params, "n", b) == Success(n) && FloatParam(params, "p", b) == Success(p)
    ensures SupportAndPmf(Str("binomial"), params, b).Success?
    ensures var s := SupportAndPmf(Str("binomial"), params, b).value;
      && |s.xs| == |s.ps|
      && ConsecutiveFrom(s.xs, 0)
      && (forall k :: k in s.xs <==> 0 <= k <= n)
      && (forall i :: 0 <= i < |s.xs| ==> s.ps[i] == BinomialPmf(n, p, s.xs[i]))
      && (forall k :: k !in s.xs ==> BinomialPmf(n, p, k) == 0.0)
  {
    var s := SupportAndPmf(Str("binomial"), params, b).value;
    assert s.xs == Range(0, n + 1);
    forall k | 0 <= k <= n ensures k in s.xs {
      assert s.xs[k] == k;
    }
  }

  /** The negative binomial support starts at `r` (total trials, not failures),
      runs over consecutive integers to at least `r + 10`, and every value
      below it has mass zero. */
  lemma NegBinSupport(params: map<string, Value>, b: Builtins, r: int, p: real)
    requires IntParam(params, "r", b) == Success(r) && FloatParam(params, "p", b) == Success(p)
    requires p != 0.0 && NegBinVariance(r, p) >= 0.0
    ensures SupportAndPmf(Str("negbin"), params, b).Success?
    ensures var s := SupportAndPmf(Str("negbin"), params, b).value;
      && |s.xs| == |s.ps| >= 11
      && ConsecutiveFrom(s.xs, r)
      && s.xs[|s.xs| - 1] >= r + 10
      && (forall i :: 0 <= i < |s.xs| ==> s.ps[i] == NegBinPmf(r, p, s.xs[i]))
      && (forall k :: k < r ==> k !in s.xs && NegBinPmf(r, p, k) == 0.0)
  {
    var cap := NegBinCap(r, p, b).value;
    var s := SupportAndPmf(Str("negbin"), params, b).value;
    assert s.xs == Range(r, cap + 1);
  }

  /** Otherwise `support_and_pmf` raises: ZeroDivisionError for `p == 0`, the
      math domain error of `sqrt` for a negative variance. */
  lemma NegBinSupportErrors(params: map<string, Value>, b: Builtins, r: int, p: real)
    requires IntParam(params, "r", b) == Success(r) && FloatParam(params, "p", b) == Success(p)
    ensures p == 0.0 ==> SupportAndPmf(Str("negbin"), params, b) == Failure(DivisionByZero)
    ensures p != 0.0 && NegBinVariance(r, p) < 0.0 ==>
      SupportAndPmf(Str("negbin"), params, b) == Failure(MathDomain)
  {
  }

  /** The geometric support is `1, 2, ...` up to at least 10, and nothing
      below 1 carries mass. */
  lemma GeometricSupport(params: map<string, Value>, b: Builtins, p: real)
    requires FloatParam(params, "p", b) == Success(p)
    requires p != 0.0 && GeometricVariance(p) >= 0.0
    ensures SupportAndPmf(Str("geometric"), params, b).Success?
    ensures var s := SupportAndPmf(Str("geometric"), params, b).value;
      && |s.xs| == |s.ps| >= 10
      && ConsecutiveFrom(s.xs, 1)
      && s.xs[|s.xs| - 1] >= 10
      && (forall i :: 0 <= i < |s.xs| ==> s.ps[i] == GeometricPmf(p, s.xs[i]))
      && (forall k :: k < 1 ==> k !in s.xs && GeometricPmf(p, k) == 0.0)
  {
    var cap := GeometricCap(p, b).value;
    var s := SupportAndPmf(Str("geometric"), params, b).value;
    assert s.xs == Range(1, cap + 1);
  }

  lemma GeometricSupportErrors(params: map<string, Value>, b: Builtins, p: real)
    requires FloatParam(params, "p", b) == Success(p)
    ensures p == 0.0 ==> SupportAndPmf(Str("geometric"), params, b) == Failure(DivisionByZero)
    ensures p != 0.0 && GeometricVariance(p) < 0.0 ==>
      SupportAndPmf(Str("geometric"), params, b) == Failure(MathDomain)
  {
  }

  /** The Poisson support is `0, 1, ...` up to at least 10 for `lam >= 0`; a
      negative rate fails in `sqrt`. */
  lemma PoissonSupport(params: map<string, Value>, b: Builtins, lam: real)
    requires FloatParam(params, "lam", b) == Success(lam)
    ensures lam < 0.0 ==> SupportAndPmf(Str("poisson"), params, b) == Failure(MathDomain)
    ensures lam >= 0.0 ==> SupportAndPmf(Str("poisson"), params, b).Success?
    ensures lam >= 0.0 ==> var s := SupportAndPmf(Str("poisson"), params, b).value;
      && |s.xs| == |s.ps| >= 11
      && ConsecutiveFrom(s.xs, 0)
      && s.xs[|s.xs| - 1] >= 10
      && (forall i :: 0 <= i < |s.xs| ==> s.ps[i] == PoissonPmf(lam, s.xs[i], b))
      && (forall k :: k < 0 ==> k !in s.xs && PoissonPmf(lam, k, b) == 0.0)
  {
  }

  // ---------------------------------------------------------------------------
  // Mean and variance

  datatype Moments = Moments(mean: real, variance: real)

  /** `stats_for(dist, params)`. */
  function StatsFor(dist: Value, params: map<string, Value>, b: Builtins): (r: Result<Moments, PyError>)
    ensures !KnownDistribution(dist) ==> r == Failure(ValueError("Unknown distribution"))
  {
    if dist == Str("binomial") then
      var n :- IntParam(params, "n", b);
      var p :- FloatParam(params, "p", b);
      Success(Moments(n as real * p, n as real * p * (1.0 - p)))
    else if dist == Str("negbin") then
      var r :- IntParam(params, "r", b);
      var p :- FloatParam(params, "p", b);
      if p == 0.0 then Failure(DivisionByZero)
      else Success(Moments(NegBinMean(r, p), NegBinVariance(r, p)))
    else if dist == Str("geometric") then
      var p :- FloatParam(params, "p", b);
      if p == 0.0 then Failure(DivisionByZero)
      else Success(Moments(GeometricMean(p), GeometricVariance(p)))
    else if dist == Str("poisson") then
      var lam :- FloatParam(params, "lam", b);
      Success(Moments(lam, lam))
    else
      Failure(ValueError("Unknown distribution"))
  }

  /** Binomial mean `n p` and variance `n p (1 - p)`; for a probability `p` and
      `n >= 0` the variance lies between 0 and the mean. */
  lemma BinomialMoments(params: map<string, Value>, b: Builtins, n: int, p: real)
    requires IntParam(params, "n", b) == Success(n) && FloatParam(params, "p", b) == Success(p)
    ensures StatsFor(Str("binomial"), params, b).Success?
    ensures var m := StatsFor(Str("binomial"), params, b).value;
      && m.mean == n as real * p
      && m.variance == m.mean * (1.0 - p)
      && (n >= 0 && 0.0 <= p <= 1.0 ==> 0.0 <= m.variance <= m.mean)
  {
    var m := StatsFor(Str("binomial"), params, b).value;
    if n >= 0 && 0.0 <= p <= 1.0 {
      ProductBounds(n as real, p);
      ProductBounds(m.mean, 1.0 - p);
    }
  }

  /** Scaling a non-negative number by a factor in [0, 1] stays between 0 and it. */
  lemma ProductBounds(a: real, q: real)
    requires a >= 0.0 && 0.0 <= q <= 1.0
    ensures 0.0 <= a * q <= a
  {
    assert a - a * q == a * (1.0 - q);
  }

  /** Negative binomial moments are `r` times the geometric ones: the total
      number of trials up to the r-th success is a sum of `r` independent
      trial counts up to one success. `p == 0` raises ZeroDivisionError. */
  lemma NegBinMoments(params: map<string, Value>, b: Builtins, r: int, p: real)
    requires IntParam(params, "r", b) == Success(r) && FloatParam(params, "p", b) == Success(p)
    ensures p == 0.0 ==> StatsFor(Str("negbin"), params, b) == Failure(DivisionByZero)
    ensures p != 0.0 ==> StatsFor(Str("negbin"), params, b).Success?
    ensures p != 0.0 ==>
      var m := StatsFor(Str("negbin"), params, b).value;
      m.mean == r as real * GeometricMean(p) && m.variance == r as real * GeometricVariance(p)
  {
    if p != 0.0 {
      assert StatsFor(Str("negbin"), params, b) == Success(Moments(NegBinMean(r, p), NegBinVariance(r, p)));
      NegBinScalesGeometric(r, p);
    }
  }

  /** The negative binomial's moments are `r` times the geometric ones. */
  lemma NegBinScalesGeometric(r: int, p: real)
    requires p != 0.0
    ensures NegBinMean(r, p) == r as real * GeometricMean(p)
    ensures NegBinVariance(r, p) == r as real * GeometricVariance(p)
  {
    ScaleQuotient(r as real, 1.0, p);
    ScaleQuotient(r as real, 1.0 - p, p * p);
  }

  lemma ScaleQuotient(a: real, x: real, d: real)
    requires d != 0.0
    ensures a * x / d == a * (x / d)
  {
  }

  /** Geometric moments: mean `1 / p`, variance `mean (mean - 1)`; `p == 0`
      raises ZeroDivisionError. */
  lemma GeometricMoments(params: map<string, Value>, b: Builtins, p: real)
    requires FloatParam(params, "p", b) == Success(p)
    ensures p == 0.0 ==> StatsFor(Str("geometric"), params, b) == Failure(DivisionByZero)
    ensures p != 0.0 ==> StatsFor(Str("geometric"), params, b).Success?
    ensures p != 0.0 ==>
      var m := StatsFor(Str("geometric"), params, b).value;
      m.mean == 1.0 / p && m.variance == m.mean * (m.mean - 1.0)
  {
    if p != 0.0 {
      GeometricVarianceFromMean(p);
    }
  }

  lemma GeometricVarianceFromMean(p: real)
    requires p != 0.0
    ensures GeometricVariance(p) == GeometricMean(p) * (GeometricMean(p) - 1.0)
  {
    var m := 1.0 / p;
    assert m * p == 1.0;
    assert (1.0 - p) / (p * p) == ((1.0 - p) / p) / p;
    assert (1.0 - p) / p == m - 1.0;
    assert (m - 1.0) / p == (m - 1.0) * m;
  }

  /** The Poisson mean and variance both equal the rate. */
  lemma PoissonMoments(params: map<string, Value>, b: Builtins, lam: real)
    requires FloatParam(params, "lam", b) == Success(lam)
    ensures StatsFor(Str("poisson"), params, b) == Success(Moments(lam, lam))
  {
  }

  // ---------------------------------------------------------------------------
  // The probability of the requested event

  /** The comparator's predicate: `exact` is `x == t`, `<=` is `x <= t`,
      `>=` is `x >= t`, and any other comparator selects nothing. */
  predicate Satisfies(comparator: string, x: int, target: int)
  {
    || (comparator == "exact" && x == target)
    || (comparator == "<=" && x <= target)
    || (comparator == ">=" && x >= target)
  }

  predicate KnownComparator(comparator: Value)
  {
    comparator == Str("exact") || comparator == Str("<=") || comparator == Str(">=")
  }

  /** The sum of `ps[i]` over the `i` whose `xs[i]` satisfies the comparator,
      accumulated from the left as the server's loops do. */
  function SumWhere(xs: seq<int>, ps: seq<real>, comparator: string, target: int): real
    requires |xs| == |ps|
    decreases |xs|
  {
    if |xs| == 0 then 0.0
    else
      SumWhere(xs[..|xs| - 1], ps[..|ps| - 1], comparator, target)
      + (if Satisfies(comparator, xs[|xs| - 1], target) then ps[|ps| - 1] else 0.0)
  }

  /** `xs.index(t)`: the first position holding `t`. */
  function IndexOf(xs: seq<int>, t: int): (i: nat)
    requires t in xs
    ensures i < |xs| && xs[i] == t
    ensures forall j :: 0 <= j < i ==> xs[j] != t
  {
    if xs[0] == t then 0 else 1 + IndexOf(xs[1..], t)
  }

  /** `compute_probability_given_condition(dist, params, comparator, target)`. */
  function Probability(dist: Value, params: map<string, Value>, comparator: Value, target: int, b: Builtins)
    : Result<real, PyError>
  {
    var s :- SupportAndPmf(dist, params, b);
    if comparator == Str("exact") then
      Success(if target in s.xs then s.ps[IndexOf(s.xs, target)] else 0.0)
    else if comparator == Str("<=") then
      Success(SumWhere(s.xs, s.ps, "<=", target))
    else if comparator == Str(">=") then
      Success(SumWhere(s.xs, s.ps, ">=", target))
    else
      Failure(ValueError("Unknown comparator"))
  }

  /** The running totals of `compute_probability_given_condition`. */
  method ComputeProbability(dist: Value, params: map<string, Value>, comparator: Value, target: int, b: Builtins)
    returns (r: Result<real, PyError>)
    ensures r == Probability(dist, params, comparator, target, b)
  {
    var support := SupportAndPmf(dist, params, b);
    if support.Failure? {
      return Failure(support.error);
    }
    var xs, ps := support.value.xs, support.value.ps;
    if comparator == Str("exact") {
      if target in xs {
        return Success(ps[IndexOf(xs, target)]);
      }
      return Success(0.0);
    }
    if comparator == Str("<=") {
      r := SumAtMost(xs, ps, target);
      return;
    }
    if comparator == Str(">=") {
      r := SumAtLeast(xs, ps, target);
      return;
    }
    return Failure(ValueError("Unknown comparator"));
  }

  /** The `<=` branch's loop: `total += p` for each `x <= target`. */
  method SumAtMost(xs: seq<int>, ps: seq<real>, target: int) returns (r: Result<real, PyError>)
    requires |xs| == |ps|
    ensures r == Success(SumWhere(xs, ps, "<=", target))
  {
    var total := 0.0;
    for i := 0 to |xs|
      invariant total == SumWhere(xs[..i], ps[..i], "<=", target)
    {
      assert xs[..i + 1][..i] == xs[..i] && ps[..i + 1][..i] == ps[..i];
      if xs[i] <= target {
        total := total + ps[i];
      }
    }
    assert xs[..|xs|] == xs && ps[..|ps|] == ps;
    return Success(total);
  }

  /** The `>=` branch's loop: `total += p` for each `x >= target`. */
  method SumAtLeast(xs: seq<int>, ps: seq<real>, target: int) returns (r: Result<real, PyError>)
    requires |xs| == |ps|
    ensures r == Success(SumWhere(xs, ps, ">=", target))
  {
    var total := 0.0;
    for i := 0 to |xs|
      invariant total == SumWhere(xs[..i], ps[..i], ">=", target)
    {
      assert xs[..i + 1][..i] == xs[..i] && ps[..i + 1][..i] == ps[..i];
      if xs[i] >= target {
        total := total + ps[i];
      }
    }
    assert xs[..|xs|] == xs && ps[..|ps|] == ps;
    return Success(total);
  }

  /** In a list of distinct values, summing the masses where `x == t` gives the
      mass at `t`'s position, or 0 when `t` does not occur. */
  lemma {:induction false} ExactSumIsPointMass(xs: seq<int>, ps: seq<real>, t: int)
    requires |xs| == |ps|
    requires forall i, j :: 0 <= i < j < |xs| ==> xs[i] != xs[j]
    ensures SumWhere(xs, ps, "exact", t) == if t in xs then ps[IndexOf(xs, t)] else 0.0
  {
    if |xs| > 0 {
      var m := |xs| - 1;
      var xs', ps' := xs[..m], ps[..m];
      ExactSumIsPointMass(xs', ps', t);
      if xs[m] == t {
        assert t !in xs';
        assert IndexOf(xs, t) == m;
      } else if t in xs' {
        var i := IndexOf(xs', t);
        assert xs[i] == t;
        assert IndexOf(xs, t) == i;
      } else {
        assert t !in xs;
      }
    }
  }

  /** The reported probability is the total mass of the support points that
      satisfy the comparator, for each of the three comparators. */
  lemma ProbabilityIsSelectedMass(dist: Value, params: map<string, Value>, comparator: string, target: int, b: Builtins)
    requires SupportAndPmf(dist, params, b).Success?
    requires KnownComparator(Str(comparator))
    ensures var s := SupportAndPmf(dist, params, b).value;
      Probability(dist, params, Str(comparator), target, b) == Success(SumWhere(s.xs, s.ps, comparator, target))
  {
    var s := SupportAndPmf(dist, params, b).value;
    if comparator == "exact" && |s.xs| > 0 {
      assert ConsecutiveFrom(s.xs, s.xs[0]);
      ExactSumIsPointMass(s.xs, s.ps, target);
    }
  }

  /** With a valid support, an unknown comparator raises ValueError. */
  lemma UnknownComparator(dist: Value, params: map<string, Value>, comparator: Value, target: int, b: Builtins)
    requires SupportAndPmf(dist, params, b).Success? && !KnownComparator(comparator)
    ensures Probability(dist, params, comparator, target, b) == Failure(ValueError("Unknown comparator"))
  {
  }
}
