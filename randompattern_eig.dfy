/** Spatially correlated, temporally autoregressive random streamfunction
    patterns drawn from the leading eigenvectors of a covariance matrix on
    the doubly periodic grid (sqgturb/randompattern_eig.py).

    The covariance kernel, the square root and the eigen-decomposition are
    numerical routines outside this model: the kernel and the square root
    are function parameters, and the eigenvalues and eigenvectors are given
    to the constructor. Random normal draws are inputs. */
module RandomPatternEig {
  import opened Numerics

  /** |a - b| folded onto the shorter way round a period of the given length. */
  function WrapDelta(a: real, b: real, period: real): (d: real)
    ensures 0.0 <= a < period && 0.0 <= b < period ==> 0.0 <= d <= period / 2.0
    ensures a == b && period >= 0.0 ==> d == 0.0
  {
    var dist := if a >= b then a - b else b - a;
    if dist > 0.5 * period then period - dist else dist
  }

  /** Squared distance between two points of a doubly periodic plane. */
  function CartDistSq(x1: real, y1: real, x2: real, y2: real, xmax: real, ymax: real): (d: real)
    ensures d >= 0.0
    ensures x1 == x2 && y1 == y2 && xmax >= 0.0 && ymax >= 0.0 ==> d == 0.0
  {
    var dx := WrapDelta(x1, x2, xmax);
    var dy := WrapDelta(y1, y2, ymax);
    dx * dx + dy * dy
  }

  /** The wrapped Euclidean distance; sqrt is the square root the source calls. */
  function CartDist(sqrt: real -> real, x1: real, y1: real, x2: real, y2: real, xmax: real, ymax: real): real
  {
    sqrt(CartDistSq(x1, y1, x2, y2, xmax, ymax))
  }

  lemma CartDistSymmetric(sqrt: real -> real, x1: real, y1: real, x2: real, y2: real, xmax: real, ymax: real)
    ensures CartDist(sqrt, x1, y1, x2, y2, xmax, ymax) == CartDist(sqrt, x2, y2, x1, y1, xmax, ymax)
  {
    assert WrapDelta(x1, x2, xmax) == WrapDelta(x2, x1, xmax);
    assert WrapDelta(y1, y2, ymax) == WrapDelta(y2, y1, ymax);
    assert CartDistSq(x1, y1, x2, y2, xmax, ymax) == CartDistSq(x2, y2, x1, y1, xmax, ymax);
  }

  /** Coordinates of point q of the flattened n x n meshgrid of
      arange(0, period, period/n): column q % n, row q / n. */
  function GridX(n: nat, period: real, q: nat): real
    requires n > 0
  {
    ((q % n) as real) * (period / (n as real))
  }

  function GridY(n: nat, period: real, q: nat): real
    requires n > 0
  {
    ((q / n) as real) * (period / (n as real))
  }

  function PointDistance(n: nat, period: real, sqrt: real -> real, a: nat, b: nat): real
    requires n > 0
  {
    CartDist(sqrt, GridX(n, period, a), GridY(n, period, a), GridX(n, period, b), GridY(n, period, b), period, period)
  }

  /** The covariance fill loop: row a holds the kernel of point a's distance
      to every grid point, for all n*n points in turn. */
  method Covariance(n: nat, period: real, kernel: real -> real, sqrt: real -> real) returns (cov: array2<real>)
    requires n > 0
    ensures cov.Length0 == n * n && cov.Length1 == n * n
    ensures forall a, b :: 0 <= a < n * n && 0 <= b < n * n ==>
      cov[a, b] == kernel(PointDistance(n, period, sqrt, a, b))
    ensures forall a, b :: 0 <= a < n * n && 0 <= b < n * n ==> cov[a, b] == cov[b, a]
  {
    var nn := n * n;
    cov := new real[nn, nn]((i, j) => 0.0);
    var row := 0;
    while row < nn
      invariant 0 <= row <= nn
      invariant forall a, b :: 0 <= a < row && 0 <= b < nn ==>
        cov[a, b] == kernel(PointDistance(n, period, sqrt, a, b))
    {
      forall b | 0 <= b < nn {
        cov[row, b] := kernel(PointDistance(n, period, sqrt, row, b));
      }
      row := row + 1;
    }
    forall a, b | 0 <= a < nn && 0 <= b < nn ensures cov[a, b] == cov[b, a] {
      CartDistSymmetric(sqrt, GridX(n, period, a), GridY(n, period, a), GridX(n, period, b), GridY(n, period, b), period, period);
    }
  }

  /** Fraction of the total variance held by the last (largest) k eigenvalues. */
  function TopFraction(evals: seq<real>, k: nat): real
    requires k <= |evals| && Sum(evals) != 0.0
  {
    Sum(evals[|evals| - k..]) / Sum(evals)
  }

  /** The eigenvector counting loop: add eigenvalues from the top until the
      fraction of variance they hold reaches thresh. */
  method CountEigenvectors(evals: seq<real>, thresh: real) returns (neig: nat, frac: real)
    requires Sum(evals) != 0.0
    requires thresh <= 1.0
    ensures neig <= |evals|
    ensures neig == 0 <==> thresh <= 0.0
    ensures neig == 0 ==> frac == 0.0
    ensures neig > 0 ==> frac == TopFraction(evals, neig) && frac >= thresh
    ensures forall k :: 1 <= k < neig ==> TopFraction(evals, k) < thresh
  {
    var evalsum := Sum(evals);
    neig, frac := 0, 0.0;
    while frac < thresh
      invariant neig <= |evals|
      invariant neig == 0 ==> frac == 0.0
      invariant thresh <= 0.0 ==> neig == 0
      invariant neig < |evals| || frac >= thresh
      invariant neig > 0 ==> frac == TopFraction(evals, neig)
      invariant forall k :: 1 <= k < neig ==> TopFraction(evals, k) < thresh
      decreases |evals| - neig
    {
      frac := Sum(evals[|evals| - neig - 1..]) / evalsum;
      neig := neig + 1;
      if neig == |evals| {
        assert evals[|evals| - neig..] == evals;
        assert frac == evalsum / evalsum == 1.0;
      }
    }
  }

  /** The constants that determine a pattern from its coefficients. */
  datatype PatternParams = PatternParams(
    n: nat,                     // the pattern is n x n per sample
    nsamples: nat,
    nevecs: nat,                // number of eigenvectors kept
    stdev: real,
    lag1corr: real,             // exp(-1)^(dt/tcorr)
    innov: real,                // sqrt(1 - lag1corr^2)
    scaledevecs: Plane<real>)   // n*n rows, nevecs columns

  /** Columns first .. first+count-1 of evecs, column j scaled by sqrt(evals[j]/frac). */
  function TruncatedEvecs(evecs: Plane<real>, evals: seq<real>, frac: real, first: nat, count: nat, sqrt: real -> real): (m: Plane<real>)
    requires first + count <= |evals| && frac != 0.0
    ensures IsPlane(m, |evecs|, count)
  {
    seq(|evecs|, q => seq(count, c requires 0 <= c < count => PAt(evecs, q, first + c) * sqrt(evals[first + c] / frac)))
  }

  /** Eigenvalues floored at 1e-10, for the keep-everything branch. */
  function FlooredEvals(evals: seq<real>): (f: seq<real>)
    ensures |f| == |evals|
    ensures forall j :: 0 <= j < |f| ==> f[j] >= 1.0e-10 && (evals[j] > 1.0e-10 ==> f[j] == evals[j])
    ensures forall j :: 0 <= j < |f| ==> (evals[j] <= 1.0e-10 ==> f[j] == 1.0e-10)
  {
    seq(|evals|, j requires 0 <= j < |evals| => if evals[j] > 1.0e-10 then evals[j] else 1.0e-10)
  }

  /** evecs with column j scaled by sqrt(w[j]). */
  function AllScaledEvecs(evecs: Plane<real>, w: seq<real>, sqrt: real -> real): (m: Plane<real>)
    ensures IsPlane(m, |evecs|, |w|)
  {
    seq(|evecs|, q => seq(|w|, j requires 0 <= j < |w| => PAt(evecs, q, j) * sqrt(w[j])))
  }

  /** The random draws read at the positions of a (rows, cols) draw. */
  function Fit(noise: Plane<real>, rows: nat, cols: nat): (m: Plane<real>)
    ensures IsPlane(m, rows, cols)
    ensures forall s, j :: 0 <= s < rows && 0 <= j < cols ==> m[s][j] == PAt(noise, s, j)
  {
    seq(rows, s => seq(cols, j => PAt(noise, s, j)))
  }

  /** sum over j < k of stdev * coeffs[s][j] * evecs[q][j], accumulated in j order. */
  function ColumnSum(stdev: real, coeffs: Plane<real>, s: nat, evecs: Plane<real>, q: nat, k: nat): real
  {
    if k == 0 then 0.0
    else ColumnSum(stdev, coeffs, s, evecs, q, k - 1) + stdev * PAt(coeffs, s, k - 1) * PAt(evecs, q, k - 1)
  }

  /** random_sample: sample s at grid row y, column x is the sum over kept
      eigenvectors of stdev * coeffs[s][j] * scaledevecs[y*n + x][j]. */
  function Sample(pp: PatternParams, coeffs: Plane<real>): (pat: Field<real>)
    ensures IsField(pat, pp.nsamples, pp.n, pp.n)
  {
    seq(pp.nsamples, s requires 0 <= s < pp.nsamples => seq(pp.n, y requires 0 <= y < pp.n => seq(pp.n, x requires 0 <= x < pp.n =>
      ColumnSum(pp.stdev, coeffs, s, pp.scaledevecs, y * pp.n + x, pp.nevecs))))
  }

  lemma SampleAt(pp: PatternParams, coeffs: Plane<real>, s: nat, y: nat, x: nat)
    requires s < pp.nsamples && y < pp.n && x < pp.n
    ensures Sample(pp, coeffs)[s][y][x] == ColumnSum(pp.stdev, coeffs, s, pp.scaledevecs, y * pp.n + x, pp.nevecs)
  {
  }

  /** The AR(1) coefficient update of evolve. */
  function AR1(pp: PatternParams, coeffs: Plane<real>, noise: Plane<real>): (c: Plane<real>)
    ensures IsPlane(c, pp.nsamples, pp.nevecs)
  {
    seq(pp.nsamples, s => seq(pp.nevecs, j => pp.innov * PAt(noise, s, j) + pp.lag1corr * PAt(coeffs, s, j)))
  }

  lemma AR1At(pp: PatternParams, coeffs: Plane<real>, noise: Plane<real>, s: nat)
    requires s < pp.nsamples
    ensures forall j :: 0 <= j < pp.nevecs ==>
      PAt(AR1(pp, coeffs, noise), s, j) == pp.innov * PAt(noise, s, j) + pp.lag1corr * PAt(coeffs, s, j)
  {
  }

  lemma {:induction false} ColumnSumLinear(stdev: real, a: real, x: Plane<real>, b: real, y: Plane<real>,
                                           z: Plane<real>, s: nat, evecs: Plane<real>, q: nat, k: nat)
    requires forall j :: 0 <= j < k ==> PAt(z, s, j) == a * PAt(x, s, j) + b * PAt(y, s, j)
    ensures ColumnSum(stdev, z, s, evecs, q, k)
         == a * ColumnSum(stdev, x, s, evecs, q, k) + b * ColumnSum(stdev, y, s, evecs, q, k)
  {
    if k > 0 {
      ColumnSumLinear(stdev, a, x, b, y, z, s, evecs, q, k - 1);
      var e := PAt(evecs, q, k - 1);
      calc {
        stdev * PAt(z, s, k - 1) * e;
        stdev * (a * PAt(x, s, k - 1) + b * PAt(y, s, k - 1)) * e;
        a * (stdev * PAt(x, s, k - 1) * e) + b * (stdev * PAt(y, s, k - 1) * e);
      }
    }
  }

  lemma EvolvedPatternAt(pp: PatternParams, coeffs: Plane<real>, noise: Plane<real>, s: nat, y: nat, x: nat)
    requires s < pp.nsamples && y < pp.n && x < pp.n
    ensures Sample(pp, AR1(pp, coeffs, noise))[s][y][x]
         == pp.innov * Sample(pp, noise)[s][y][x] + pp.lag1corr * Sample(pp, coeffs)[s][y][x]
  {
    var c := AR1(pp, coeffs, noise);
    AR1At(pp, coeffs, noise, s);
    ColumnSumLinear(pp.stdev, pp.innov, noise, pp.lag1corr, coeffs, c, s, pp.scaledevecs, y * pp.n + x, pp.nevecs);
    SampleAt(pp, c, s, y, x);
    SampleAt(pp, noise, s, y, x);
    SampleAt(pp, coeffs, s, y, x);
  }

  /** The pattern is linear in its coefficients, so after an AR(1) update of
      the coefficients the pattern itself follows the AR(1) recursion
      innov * (pattern of the noise) + lag1corr * (previous pattern). */
  lemma EvolvedPatternIsAR1(pp: PatternParams, coeffs: Plane<real>, noise: Plane<real>)
    ensures forall s, y, x :: 0 <= s < pp.nsamples && 0 <= y < pp.n && 0 <= x < pp.n ==>
      Sample(pp, AR1(pp, coeffs, noise))[s][y][x]
        == pp.innov * Sample(pp, noise)[s][y][x] + pp.lag1corr * Sample(pp, coeffs)[s][y][x]
  {
    forall s, y, x | 0 <= s < pp.nsamples && 0 <= y < pp.n && 0 <= x < pp.n
      ensures Sample(pp, AR1(pp, coeffs, noise))[s][y][x]
           == pp.innov * Sample(pp, noise)[s][y][x] + pp.lag1corr * Sample(pp, coeffs)[s][y][x]
    {
      EvolvedPatternAt(pp, coeffs, noise, s, y, x);
    }
  }

  /** What __init__ keeps of the eigen-decomposition: with thresh == 1 every
      eigenvector, scaled by the square root of its floored eigenvalue; otherwise
      the fewest leading eigenvectors whose variance fraction reaches thresh,
      scaled by sqrt(eigenvalue / fraction). */
  ghost predicate Selected(evals: seq<real>, evecs: Plane<real>, thresh: real, sqrt: real -> real,
                           nevecs: nat, scaled: Plane<real>)
    requires thresh != 1.0 ==> Sum(evals) != 0.0
  {
    if thresh == 1.0 then
      nevecs == |evals| && scaled == AllScaledEvecs(evecs, FlooredEvals(evals), sqrt)
    else
      nevecs <= |evals| &&
      (nevecs == 0 <==> thresh <= 0.0) &&
      (nevecs == 0 ==> IsPlane(scaled, |evecs|, 0)) &&
      (nevecs > 0 ==>
        TopFraction(evals, nevecs) >= thresh &&
        (forall k :: 1 <= k < nevecs ==> TopFraction(evals, k) < thresh) &&
        scaled == TruncatedEvecs(evecs, evals, TopFraction(evals, nevecs), |evals| - nevecs, nevecs, sqrt))
  }

  method SelectEigenvectors(evals: seq<real>, evecs: Plane<real>, thresh: real, sqrt: real -> real)
    returns (nevecs: nat, scaled: Plane<real>)
    requires thresh <= 1.0
    requires thresh != 1.0 ==> Sum(evals) != 0.0
    ensures Selected(evals, evecs, thresh, sqrt, nevecs, scaled)
    ensures IsPlane(scaled, |evecs|, nevecs)
  {
    if thresh == 1.0 {
      scaled := AllScaledEvecs(evecs, FlooredEvals(evals), sqrt);
      nevecs := |evals|;
    } else {
      var neig, frac := CountEigenvectors(evals, thresh);
      var divisor := if neig == 0 then 1.0 else frac;
      scaled := TruncatedEvecs(evecs, evals, divisor, |evals| - neig, neig, sqrt);
      nevecs := neig;
    }
  }

  class RandomPatternEig {
    const hcorr: real
    const tcorr: real
    const dt: real
    const L: real
    const thresh: real
    const params: PatternParams
    /** Seed of the generator the coefficients are drawn from (None: unseeded). */
    var rngSeed: Option<int>
    var coeffs: Plane<real>
    var pattern: Field<real>
    /** Number of evolve steps applied to this object. */
    ghost var evolutions: nat

    ghost predicate Valid()
      reads this
    {
      IsPlane(coeffs, params.nsamples, params.nevecs) && pattern == Sample(params, coeffs)
    }

    /** evals/evecs are the eigen-decomposition (ascending eigenvalues) of the
        n*n x n*n covariance built by Covariance; lag1corr is exp(-1)^(dt/tcorr);
        initialNoise holds the standard normal draws for the first coefficients. */
    constructor (hcorr: real, tcorr: real, L: real, n: nat, dt: real, nsamples: nat, stdev: real,
                 thresh: real, seed: Option<int>, lag1corr: real,
                 evals: seq<real>, evecs: Plane<real>, initialNoise: Plane<real>, sqrt: real -> real)
      requires |evals| == n * n && IsPlane(evecs, n * n, n * n)
      requires thresh <= 1.0
      requires thresh != 1.0 ==> Sum(evals) != 0.0
      ensures Valid() && evolutions == 0
      ensures this.hcorr == hcorr && this.tcorr == tcorr && this.L == L && this.dt == dt && this.thresh == thresh
      ensures params.n == n && params.nsamples == nsamples && params.stdev == stdev
      ensures params.lag1corr == lag1corr && params.innov == sqrt(1.0 - lag1corr * lag1corr)
      ensures Selected(evals, evecs, thresh, sqrt, params.nevecs, params.scaledevecs)
      ensures rngSeed == seed && coeffs == Fit(initialNoise, nsamples, params.nevecs)
    {
      var nevecs, scaled := SelectEigenvectors(evals, evecs, thresh, sqrt);
      this.hcorr := hcorr;
      this.tcorr := tcorr;
      this.dt := dt;
      this.L := L;
      this.thresh := thresh;
      var pp := PatternParams(n, nsamples, nevecs, stdev, lag1corr, sqrt(1.0 - lag1corr * lag1corr), scaled);
      this.params := pp;
      rngSeed := seed;
      coeffs := Fit(initialNoise, nsamples, nevecs);
      pattern := Sample(pp, Fit(initialNoise, nsamples, nevecs));
      evolutions := 0;
    }

    /** A shallow copy sharing eigenvectors and parameters, with its own
        generator and freshly drawn coefficients and pattern. */
    constructor CopyOf(from: RandomPatternEig, seed: int, noise: Plane<real>)
      ensures Valid() && evolutions == 0
      ensures hcorr == from.hcorr && tcorr == from.tcorr && dt == from.dt && L == from.L && thresh == from.thresh
      ensures params == from.params
      ensures rngSeed == Some(seed) && coeffs == Fit(noise, from.params.nsamples, from.params.nevecs)
    {
      hcorr, tcorr, dt, L, thresh := from.hcorr, from.tcorr, from.dt, from.L, from.thresh;
      params := from.params;
      rngSeed := Some(seed);
      coeffs := Fit(noise, from.params.nsamples, from.params.nevecs);
      pattern := Sample(from.params, Fit(noise, from.params.nsamples, from.params.nevecs));
      evolutions := 0;
    }

    /** copy(seed): the original keeps its generator, coefficients and pattern. */
    method Copy(seed: int, noise: Plane<real>) returns (c: RandomPatternEig)
      requires Valid()
      ensures fresh(c) && c.Valid()
      ensures c.params == params && c.hcorr == hcorr && c.tcorr == tcorr && c.dt == dt && c.L == L && c.thresh == thresh
      ensures c.rngSeed == Some(seed) && c.coeffs == Fit(noise, params.nsamples, params.nevecs)
      ensures rngSeed == old(rngSeed) && coeffs == old(coeffs) && pattern == old(pattern)
    {
      c := new RandomPatternEig.CopyOf(this, seed, noise);
    }

    /** random_sample(): the pattern of the current coefficients. */
    function RandomSample(): (pat: Field<real>)
      reads this
      ensures IsField(pat, params.nsamples, params.n, params.n)
    {
      Sample(params, coeffs)
    }

    /** evolve(): one AR(1) step of the coefficients with the given draws,
        then the pattern of the new coefficients. */
    method Evolve(noise: Plane<real>)
      requires Valid()
      modifies this`coeffs, this`pattern, this`evolutions
      ensures Valid()
      ensures coeffs == AR1(params, old(coeffs), noise)
      ensures pattern == Sample(params, coeffs)
      ensures evolutions == old(evolutions) + 1
    {
      coeffs := AR1(params, coeffs, noise);
      pattern := RandomSample();
      evolutions := evolutions + 1;
    }
  }
}
