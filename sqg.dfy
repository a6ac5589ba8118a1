/** The two-level surface quasi-geostrophic (SQG) model on a doubly periodic
    square (sqgturb/sqg.py): boundary potential temperature ("pv") at z=0
    and z=H is advanced in spectral space by a fourth-order Runge-Kutta step
    with an integrating factor for hyperdiffusion, thermal relaxation toward
    a jet, Ekman damping, and optionally 2/3-rule dealiasing and a
    stochastic wind perturbation (random shift of the pv field, or a random
    streamfunction pattern).

    A spectrum is levels x N x (N/2+1) complex coefficients; a grid field is
    levels x rows x cols reals. The 2-D real FFTs, the bilinear shift
    routine and the transcendental per-wavenumber coefficients (tanh, sinh,
    exp, sqrt) are parameters of the model. */
module Sqg {
  import opened Numerics
  import RP = RandomPatternEig

  type Spectrum = Field<Complex>
  type Grid = Field<real>

  // ---------------------------------------------------------------- setup

  datatype Precision = Single | Double

  datatype ConfigError =
    | LeadingDimNotTwo
    | OddGridSize
    | MissingTimeStep
    | MissingDiffusionEfold
    | UnknownPrecision
    | EmptyGrid            // the grid spacing L/N divides by zero
    | ZeroDomainSize       // np.arange(0, L, L/N) with a zero step
    | NegativeShiftScale   // the shift variant's initial N(0, pert_shift) draws

  /** Grid size N: the length of the second axis of pv. */
  function GridSize(pv: Grid): nat
  {
    if |pv| > 0 then |pv[0]| else 0
  }

  /** The constructor's argument checks, in the order it makes them; the
      last two are the grid spacing L/N, which divides by zero for N = 0,
      and the grid coordinates np.arange(0, L, L/N), whose step is zero for
      a domain size L = 0. */
  function CheckConfig(pv: Grid, dt: Option<real>, diffEfold: Option<real>, precision: string, domainSize: real): (res: Result<Precision, ConfigError>)
    ensures res.Failure? <==>
      (|pv| != 2 || GridSize(pv) % 2 == 1 || dt.None? || diffEfold.None? ||
       (precision != "single" && precision != "double") || GridSize(pv) == 0 || domainSize == 0.0)
    ensures |pv| != 2 ==> res == Failure(LeadingDimNotTwo)
    ensures |pv| == 2 && GridSize(pv) % 2 == 1 ==> res == Failure(OddGridSize)
    ensures |pv| == 2 && GridSize(pv) % 2 == 0 && dt.None? ==> res == Failure(MissingTimeStep)
    ensures |pv| == 2 && GridSize(pv) % 2 == 0 && dt.Some? && diffEfold.None? ==> res == Failure(MissingDiffusionEfold)
    ensures (|pv| == 2 && GridSize(pv) % 2 == 0 && dt.Some? && diffEfold.Some? &&
             precision != "single" && precision != "double") ==> res == Failure(UnknownPrecision)
    ensures (|pv| == 2 && GridSize(pv) == 0 && dt.Some? && diffEfold.Some? &&
             (precision == "single" || precision == "double")) ==> res == Failure(EmptyGrid)
    ensures (|pv| == 2 && GridSize(pv) >= 2 && GridSize(pv) % 2 == 0 && dt.Some? && diffEfold.Some? &&
             (precision == "single" || precision == "double") && domainSize == 0.0) ==> res == Failure(ZeroDomainSize)
    ensures res.Success? ==> GridSize(pv) >= 2 && GridSize(pv) % 2 == 0
    ensures res.Success? ==> (res.value == Single <==> precision == "single")
  {
    if |pv| != 2 then Failure(LeadingDimNotTwo)
    else if GridSize(pv) % 2 == 1 then Failure(OddGridSize)
    else if dt.None? then Failure(MissingTimeStep)
    else if diffEfold.None? then Failure(MissingDiffusionEfold)
    else if precision != "single" && precision != "double" then Failure(UnknownPrecision)
    else if GridSize(pv) == 0 then Failure(EmptyGrid)
    else if domainSize == 0.0 then Failure(ZeroDomainSize)
    else if precision == "single" then Success(Single)
    else Success(Double)
  }

  /** The checks of the constructor of a model variant: the argument checks,
      then, for the shift variant, its initial shift draws N(0, pert_shift),
      which numpy refuses for a negative scale. */
  function CheckModel(pv: Grid, dt: Option<real>, diffEfold: Option<real>, precision: string, domainSize: real,
                      forcing: Forcing): (res: Result<Precision, ConfigError>)
    ensures res.Failure? <==>
      (CheckConfig(pv, dt, diffEfold, precision, domainSize).Failure? ||
       (forcing.ShiftPerturbation? && forcing.sp.shiftScale < 0.0))
    ensures CheckConfig(pv, dt, diffEfold, precision, domainSize).Failure? ==>
      res == Failure(CheckConfig(pv, dt, diffEfold, precision, domainSize).error)
    ensures (CheckConfig(pv, dt, diffEfold, precision, domainSize).Success? &&
             forcing.ShiftPerturbation? && forcing.sp.shiftScale < 0.0) ==> res == Failure(NegativeShiftScale)
    ensures res.Success? ==> res == CheckConfig(pv, dt, diffEfold, precision, domainSize)
  {
    var check := CheckConfig(pv, dt, diffEfold, precision, domainSize);
    if check.Success? && forcing.ShiftPerturbation? && forcing.sp.shiftScale < 0.0 then Failure(NegativeShiftScale)
    else check
  }

  /** The per-wavenumber arrays the constructor computes with transcendental
      functions: H/mu, sinh(mu), tanh(mu) (mu clipped away from zero), the
      hyperdiffusion integrating factor, and the equilibrium jet pv on the grid. */
  datatype Coefficients = Coefficients(hovermu: Plane<real>, sinhmu: Plane<real>, tanhmu: Plane<real>,
                                       hyperdiff: Plane<real>, pvbar: Grid)

  predicate CoefficientsFit(co: Coefficients, n: nat)
  {
    IsPlane(co.hovermu, n, n / 2 + 1) && IsPlane(co.sinhmu, n, n / 2 + 1) &&
    IsPlane(co.tanhmu, n, n / 2 + 1) && IsPlane(co.hyperdiff, n, n / 2 + 1) &&
    (forall r, c :: 0 <= r < n && 0 <= c < n / 2 + 1 ==> co.sinhmu[r][c] > 0.0 && co.tanhmu[r][c] > 0.0)
  }

  /** The real 2-D FFT pair used by the model. */
  datatype Transforms = Transforms(rfft2: Grid -> Spectrum, irfft2: Spectrum -> Grid)

  datatype Params = Params(
    n: nat,
    dt: real,
    kscale: real,          // 2*pi/L: the dimensional unit wavenumber
    r: real,               // Ekman damping rate
    tdiab: real,           // thermal relaxation time scale
    symmetric: bool,
    dealias: bool,
    precision: Precision,
    co: Coefficients,
    pvspecEq: Spectrum)    // rfft2 of the equilibrium pv
  {
    /** Ekman damping is switched on for r >= 1e-10. */
    predicate Ekman() { !(r < 1.0e-10) }

    ghost predicate Valid()
    {
      n >= 2 && n % 2 == 0 && tdiab != 0.0 && CoefficientsFit(co, n)
    }
  }

  // ---------------------------------------------------------- wavenumbers

  /** Integer frequency of FFT index j for length m (numpy's m*fftfreq(m)[j]). */
  function FftFreq(m: nat, j: int): int
  {
    if j <= (m - 1) / 2 then j else j - m
  }

  /** The FFT index holding integer frequency w (the inverse of FftFreq). */
  function FftIndex(m: nat, w: int): int
  {
    if w >= 0 then w else w + m
  }

  /** The meridional wavenumbers of an even-length transform are the integers in
      [-n/2, n/2), each exactly once; the zonal (half-spectrum) wavenumbers are
      0 .. n/2-1 followed by the Nyquist wavenumber -n/2. */
  lemma FftFreqBijection(n: nat)
    requires n >= 2 && n % 2 == 0
    ensures forall j :: 0 <= j < n ==> -(n / 2) <= FftFreq(n, j) < n / 2 && FftIndex(n, FftFreq(n, j)) == j
    ensures forall w :: -(n / 2) <= w < n / 2 ==> 0 <= FftIndex(n, w) < n && FftFreq(n, FftIndex(n, w)) == w
    ensures forall c :: 0 <= c < n / 2 ==> FftFreq(n, c) == c
    ensures FftFreq(n, n / 2) == -(n / 2)
  {
  }

  /** |K|^2 = (kscale*k)^2 + (kscale*l)^2 on the half spectrum (row: l, column: k). */
  function KsqLsq(n: nat, kscale: real): (ksq: Plane<real>)
    ensures IsPlane(ksq, n, n / 2 + 1)
  {
    seq(n, r => seq(n / 2 + 1, c =>
      var k := kscale * (FftFreq(n, c) as real);
      var l := kscale * (FftFreq(n, r) as real);
      k * k + l * l))
  }

  lemma SquaresZero(a: real, b: real)
    ensures a * a + b * b >= 0.0
    ensures a * a + b * b == 0.0 <==> a == 0.0 && b == 0.0
  {
    SquareNonnegative(a);
    SquareNonnegative(b);
  }

  lemma SquareNonnegative(a: real)
    ensures a * a >= 0.0 && (a * a == 0.0 <==> a == 0.0)
  {
    ProductZero(a, a);
    if a < 0.0 {
      assert a * a == (-a) * (-a);
    }
  }

  /** |K|^2 is nonnegative and vanishes only for the domain mean, so Ekman
      damping leaves exactly the mean coefficient untouched. */
  lemma KsqLsqZeroOnlyAtMean(n: nat, kscale: real, r: nat, c: nat)
    requires n >= 2 && n % 2 == 0 && kscale != 0.0
    requires r < n && c < n / 2 + 1
    ensures KsqLsq(n, kscale)[r][c] >= 0.0
    ensures KsqLsq(n, kscale)[r][c] == 0.0 <==> r == 0 && c == 0
  {
    var fc, fr := FftFreq(n, c) as real, FftFreq(n, r) as real;
    var k, l := kscale * fc, kscale * fr;
    assert KsqLsq(n, kscale)[r][c] == k * k + l * l;
    SquaresZero(k, l);
    ProductZero(kscale, fc);
    ProductZero(kscale, fr);
  }

  lemma ProductZero(a: real, b: real)
    ensures a * b == 0.0 <==> a == 0.0 || b == 0.0
  {
    if a != 0.0 && b != 0.0 {
      assert (a * b) / a == b;
    }
  }

  /** x multiplied by i*w*k, k the zonal wavenumber of the column, on an
      m x cols half spectrum: the spectral x-derivative when w = kscale. */
  function TimesIK(m: nat, cols: nat, w: real, x: Spectrum): (y: Spectrum)
    ensures IsField(y, 2, m, cols)
  {
    seq(2, l => seq(m, r => seq(cols, c => CAt(x, l, r, c).TimesI(w * (FftFreq(m, c) as real)))))
  }

  /** x multiplied by i*w*l, l the meridional wavenumber of the row. */
  function TimesIL(m: nat, cols: nat, w: real, x: Spectrum): (y: Spectrum)
    ensures IsField(y, 2, m, cols)
  {
    seq(2, l => seq(m, r => seq(cols, c => CAt(x, l, r, c).TimesI(w * (FftFreq(m, r) as real)))))
  }

  // ------------------------------------------------ padding and truncation

  /** The coefficient that row r, column c of the 3/2-size array receives from
      an N x (N/2+1) spectrum x: row r (low block, r < N/2) or row r - N/2
      (high block, r >= N), scaled by 2.25; in column N/2 the conjugate of the
      scaled Nyquist coefficient; zero everywhere else. */
  function PadEntry(n: nat, x: Spectrum, l: int, r: int, c: int): Complex
  {
    var sr := if r < n / 2 then r else r - n / 2;
    if !((r < n / 2 || n <= r) && c <= n / 2) then CZero
    else if c < n / 2 then CAt(x, l, sr, c).Scale(2.25)
    else CAt(x, l, sr, n / 2).Scale(2.25).Conj()
  }

  /** The zero-padded spectrum on the 3N/2 x (3N/4+1) half spectrum. */
  function Padded(n: nat, x: Spectrum): (pad: Spectrum)
    ensures IsField(pad, 2, 3 * n / 2, 3 * n / 4 + 1)
  {
    seq(2, l => seq(3 * n / 2, r => seq(3 * n / 4 + 1, c => PadEntry(n, x, l, r, c))))
  }

  /** The coefficient that row r, column c of the N x (N/2+1) truncation
      receives: the first N/2 zonal wavenumbers of row r (r < N/2) or of row
      r - N + rows (the last N/2 rows of x); zero in the Nyquist column. */
  function TruncEntry(n: nat, x: Spectrum, l: int, r: int, c: int): Complex
  {
    if c < n / 2 then CAt(x, l, if r < n / 2 then r else r - n + Rows(x), c) else CZero
  }

  /** Number of rows of a spectrum (its second axis). */
  function Rows(x: Spectrum): nat
  {
    if |x| > 0 then |x[0]| else 0
  }

  /** The 2/3-rule truncated spectrum. */
  function Truncated(n: nat, x: Spectrum): (tr: Spectrum)
    ensures IsField(tr, 2, n, n / 2 + 1)
  {
    seq(2, l => seq(n, r => seq(n / 2 + 1, c => TruncEntry(n, x, l, r, c))))
  }

  /** z scaled by s, conjugated when conj. */
  function Moved(z: Complex, s: real, conj: bool): Complex
  {
    if conj then z.Scale(s).Conj() else z.Scale(s)
  }

  /** The slice assignment a[:, r0:r1, c0:c1] = s * src[:, r0+dr:r1+dr, c0:c1]
      (conjugated when conj). */
  method AssignSlice(a: array3<Complex>, r0: int, r1: int, c0: int, c1: int, src: Spectrum, dr: int, s: real, conj: bool)
    modifies a
    ensures forall l, r, c :: 0 <= l < a.Length0 && 0 <= r < a.Length1 && 0 <= c < a.Length2 ==>
      a[l, r, c] == if r0 <= r < r1 && c0 <= c < c1 then Moved(CAt(src, l, r + dr, c), s, conj) else old(a[l, r, c])
  {
    forall l, r, c | 0 <= l < a.Length0 && 0 <= r < a.Length1 && 0 <= c < a.Length2 && r0 <= r < r1 && c0 <= c < c1 {
      a[l, r, c] := Moved(CAt(src, l, r + dr, c), s, conj);
    }
  }

  /** specpad: a zero 2 x 3N/2 x (3N/4+1) array, then four slice assignments
      from the N x (N/2+1) spectrum x: low rows, high rows, and the conjugated
      Nyquist column (the last column of x) of both. */
  method SpecPad(n: nat, x: Spectrum) returns (pad: array3<Complex>)
    requires n % 2 == 0
    ensures pad.Length0 == 2 && pad.Length1 == 3 * n / 2 && pad.Length2 == 3 * n / 4 + 1
    ensures forall l, r, c :: 0 <= l < 2 && 0 <= r < 3 * n / 2 && 0 <= c < 3 * n / 4 + 1 ==>
      pad[l, r, c] == PadEntry(n, x, l, r, c)
  {
    var h, m, mc := n / 2, 3 * n / 2, 3 * n / 4 + 1;
    pad := new Complex[2, m, mc]((l, r, c) => CZero);
    PadColumns(n, x, pad, 0, h, false);
    PadColumns(n, x, pad, h, h + 1, true);
  }

  /** The two slice assignments of specpad for columns c0..c1-1: low rows
      0..N/2-1 in place, input rows N/2..N-1 to padded rows N..3N/2-1. */
  method PadColumns(n: nat, x: Spectrum, pad: array3<Complex>, c0: int, c1: int, conj: bool)
    requires n % 2 == 0 && pad.Length1 == 3 * n / 2 && pad.Length2 == 3 * n / 4 + 1
    requires (c0, c1, conj) == (0, n / 2, false) || (c0, c1, conj) == (n / 2, n / 2 + 1, true)
    modifies pad
    ensures forall l, r, c :: 0 <= l < pad.Length0 && 0 <= r < pad.Length1 && 0 <= c < pad.Length2 ==>
      pad[l, r, c] == if c0 <= c < c1 && (r < n / 2 || n <= r) then PadEntry(n, x, l, r, c) else old(pad[l, r, c])
  {
    var h := n / 2;
    AssignSlice(pad, 0, h, c0, c1, x, 0, 2.25, conj);
    AssignSlice(pad, n, 3 * n / 2, c0, c1, x, -h, 2.25, conj);
  }

  /** spectrunc: a zero 2 x N x (N/2+1) array, then the first N/2 columns of
      the first N/2 rows and of the last N/2 rows of x. */
  method SpecTrunc(n: nat, x: Spectrum) returns (tr: array3<Complex>)
    requires n % 2 == 0
    ensures tr.Length0 == 2 && tr.Length1 == n && tr.Length2 == n / 2 + 1
    ensures forall l, r, c :: 0 <= l < 2 && 0 <= r < n && 0 <= c < n / 2 + 1 ==>
      tr[l, r, c] == TruncEntry(n, x, l, r, c)
  {
    var h := n / 2;
    tr := new Complex[2, n, h + 1]((l, r, c) => CZero);
    AssignSlice(tr, 0, h, 0, h, x, 0, 1.0, false);
    AssignSlice(tr, n - h, n, 0, h, x, Rows(x) - n, 1.0, false);
  }

  /** Padding then truncating gives back the spectrum scaled by 2.25, less its
      Nyquist column. */
  lemma TruncOfPad(n: nat, x: Spectrum, l: nat, r: nat, c: nat)
    requires n % 2 == 0 && l < 2 && r < n && c < n / 2 + 1
    ensures Truncated(n, Padded(n, x))[l][r][c] == (if c < n / 2 then CAt(x, l, r, c).Scale(2.25) else CZero)
  {
    var pad := Padded(n, x);
    assert Truncated(n, pad)[l][r][c] == TruncEntry(n, pad, l, r, c);
    if c < n / 2 {
      PaddedSizes(n);
      assert Rows(pad) == n + n / 2;
      var pr := if r < n / 2 then r else r + n / 2;
      assert TruncEntry(n, pad, l, r, c) == CAt(pad, l, pr, c);
      PaddedEntry(n, x, l, pr, c);
    }
  }

  lemma PaddedSizes(n: nat)
    requires n % 2 == 0
    ensures 3 * n / 2 == n + n / 2 && n / 2 <= 3 * n / 4
  {
  }

  lemma PaddedEntry(n: nat, x: Spectrum, l: nat, pr: nat, c: nat)
    requires l < 2 && pr < 3 * n / 2 && c < 3 * n / 4 + 1
    ensures CAt(Padded(n, x), l, pr, c) == PadEntry(n, x, l, pr, c)
  {
  }

  // -------------------------------------------------------------- inversion

  /** x*a + y*b on the N x (N/2+1) half spectrum. */
  function Lin(n: nat, a: real, x: Spectrum, b: real, y: Spectrum): (z: Spectrum)
    ensures IsField(z, 2, n, n / 2 + 1)
  {
    seq(2, l => seq(n, r => seq(n / 2 + 1, c => CAt(x, l, r, c).Scale(a).Plus(CAt(y, l, r, c).Scale(b)))))
  }

  /** a*x on the N x (N/2+1) half spectrum. */
  function Scaled(n: nat, a: real, x: Spectrum): (z: Spectrum)
    ensures IsField(z, 2, n, n / 2 + 1)
  {
    seq(2, l => seq(n, r => seq(n / 2 + 1, c => CAt(x, l, r, c).Scale(a))))
  }

  /** One component of the inversion at one wavenumber, rs = 1/sinh(mu) and
      rt = 1/tanh(mu): hm*(q1*rs - q0*rt) at the surface, hm*(q1*rt - q0*rs) at the lid. */
  function InvertPair(l: int, hm: real, rs: real, rt: real, q0: real, q1: real): real
  {
    if l == 0 then hm * (rs * q1 - rt * q0) else hm * (rt * q1 - rs * q0)
  }

  function InvertAt(p: Params, l: int, q0: Complex, q1: Complex, r: nat, c: nat): Complex
    requires p.Valid() && r < p.n && c < p.n / 2 + 1
  {
    var hm, rs, rt := p.co.hovermu[r][c], 1.0 / p.co.sinhmu[r][c], 1.0 / p.co.tanhmu[r][c];
    Complex(InvertPair(l, hm, rs, rt, q0.re, q1.re), InvertPair(l, hm, rs, rt, q0.im, q1.im))
  }

  /** invert: boundary streamfunction from boundary pv, wavenumber by wavenumber. */
  function Invert(p: Params, pv: Spectrum): (psi: Spectrum)
    requires p.Valid()
    ensures IsField(psi, 2, p.n, p.n / 2 + 1)
  {
    seq(2, l => seq(p.n, r requires 0 <= r < p.n => seq(p.n / 2 + 1, c requires 0 <= c < p.n / 2 + 1 =>
      InvertAt(p, l, CAt(pv, 0, r, c), CAt(pv, 1, r, c), r, c))))
  }

  /** H/mu is nonzero and the sinh/tanh arrays obey coth^2 - csch^2 = 1. */
  ghost predicate HyperbolicCoefficients(p: Params)
    requires p.Valid()
  {
    forall r, c :: 0 <= r < p.n && 0 <= c < p.n / 2 + 1 ==>
      p.co.hovermu[r][c] != 0.0 &&
      (1.0 / p.co.tanhmu[r][c]) * (1.0 / p.co.tanhmu[r][c]) - (1.0 / p.co.sinhmu[r][c]) * (1.0 / p.co.sinhmu[r][c]) == 1.0
  }

  /** The pv at one wavenumber of the streamfunction (a0, a1): the inversion
      matrix is its own inverse up to the factor hm^2, so this is InvertPair with 1/hm. */
  function PvAt(p: Params, l: int, a0: Complex, a1: Complex, r: nat, c: nat): Complex
    requires p.Valid() && r < p.n && c < p.n / 2 + 1 && p.co.hovermu[r][c] != 0.0
  {
    var rhm, rs, rt := 1.0 / p.co.hovermu[r][c], 1.0 / p.co.sinhmu[r][c], 1.0 / p.co.tanhmu[r][c];
    Complex(InvertPair(l, rhm, rs, rt, a0.re, a1.re), InvertPair(l, rhm, rs, rt, a0.im, a1.im))
  }

  /** The boundary pv of a streamfunction. */
  function PvOf(p: Params, psi: Spectrum): (pv: Spectrum)
    requires p.Valid() && HyperbolicCoefficients(p)
    ensures IsField(pv, 2, p.n, p.n / 2 + 1)
  {
    seq(2, l => seq(p.n, r requires 0 <= r < p.n => seq(p.n / 2 + 1, c requires 0 <= c < p.n / 2 + 1 =>
      PvAt(p, l, CAt(psi, 0, r, c), CAt(psi, 1, r, c), r, c))))
  }

  /** The 2x2 inversion matrix hm*[[-rt, rs], [-rs, rt]] has inverse
      rhm*[[-rt, rs], [-rs, rt]] when rhm*hm = 1 and rt^2 - rs^2 = 1. */
  lemma InvertPairRoundTrip(hm: real, rhm: real, rs: real, rt: real, q0: real, q1: real)
    requires rhm * hm == 1.0 && rt * rt - rs * rs == 1.0
    ensures InvertPair(0, rhm, rs, rt, InvertPair(0, hm, rs, rt, q0, q1), InvertPair(1, hm, rs, rt, q0, q1)) == q0
    ensures InvertPair(1, rhm, rs, rt, InvertPair(0, hm, rs, rt, q0, q1), InvertPair(1, hm, rs, rt, q0, q1)) == q1
  {
    var p0, p1 := InvertPair(0, hm, rs, rt, q0, q1), InvertPair(1, hm, rs, rt, q0, q1);
    assert rs * p1 - rt * p0 == hm * q0 * (rt * rt - rs * rs);
    assert rt * p1 - rs * p0 == hm * q1 * (rt * rt - rs * rs);
  }

  lemma Reciprocal(x: real)
    requires x != 0.0
    ensures (1.0 / x) * x == 1.0
  {
  }

  /** At one wavenumber, PvAt undoes InvertAt. */
  lemma InvertAtRoundTrip(p: Params, q0: Complex, q1: Complex, r: nat, c: nat)
    requires p.Valid() && HyperbolicCoefficients(p) && r < p.n && c < p.n / 2 + 1
    ensures p.co.hovermu[r][c] != 0.0
    ensures PvAt(p, 0, InvertAt(p, 0, q0, q1, r, c), InvertAt(p, 1, q0, q1, r, c), r, c) == q0
    ensures PvAt(p, 1, InvertAt(p, 0, q0, q1, r, c), InvertAt(p, 1, q0, q1, r, c), r, c) == q1
  {
    var hm, rs, rt := p.co.hovermu[r][c], 1.0 / p.co.sinhmu[r][c], 1.0 / p.co.tanhmu[r][c];
    assert hm != 0.0 && rt * rt - rs * rs == 1.0;
    Reciprocal(hm);
    InvertPairRoundTrip(hm, 1.0 / hm, rs, rt, q0.re, q1.re);
    InvertPairRoundTrip(hm, 1.0 / hm, rs, rt, q0.im, q1.im);
  }

  /** Inversion loses nothing: the pv of the inverted streamfunction is the pv. */
  lemma InvertRoundTrip(p: Params, pv: Spectrum)
    requires p.Valid() && HyperbolicCoefficients(p)
    ensures forall l, r, c :: 0 <= l < 2 && 0 <= r < p.n && 0 <= c < p.n / 2 + 1 ==>
      PvOf(p, Invert(p, pv))[l][r][c] == CAt(pv, l, r, c)
  {
    var psi := Invert(p, pv);
    forall l, r, c | 0 <= l < 2 && 0 <= r < p.n && 0 <= c < p.n / 2 + 1
      ensures PvOf(p, psi)[l][r][c] == CAt(pv, l, r, c)
    {
      var q0, q1 := CAt(pv, 0, r, c), CAt(pv, 1, r, c);
      assert CAt(psi, 0, r, c) == InvertAt(p, 0, q0, q1, r, c);
      assert CAt(psi, 1, r, c) == InvertAt(p, 1, q0, q1, r, c);
      InvertAtRoundTrip(p, q0, q1, r, c);
    }
  }

  /** One component of the inversion is linear. */
  lemma InvertPairLinear(l: int, hm: real, rs: real, rt: real, a: real, x0: real, x1: real, b: real, y0: real, y1: real)
    ensures InvertPair(l, hm, rs, rt, a * x0 + b * y0, a * x1 + b * y1)
         == a * InvertPair(l, hm, rs, rt, x0, x1) + b * InvertPair(l, hm, rs, rt, y0, y1)
  {
  }

  /** At one wavenumber, inversion of a*x + b*y is a*(inversion of x) + b*(inversion of y). */
  lemma InvertAtLinear(p: Params, l: int, a: real, x0: Complex, x1: Complex, b: real, y0: Complex, y1: Complex, r: nat, c: nat)
    requires p.Valid() && r < p.n && c < p.n / 2 + 1
    ensures InvertAt(p, l, x0.Scale(a).Plus(y0.Scale(b)), x1.Scale(a).Plus(y1.Scale(b)), r, c)
         == InvertAt(p, l, x0, x1, r, c).Scale(a).Plus(InvertAt(p, l, y0, y1, r, c).Scale(b))
  {
    var hm, rs, rt := p.co.hovermu[r][c], 1.0 / p.co.sinhmu[r][c], 1.0 / p.co.tanhmu[r][c];
    InvertPairLinear(l, hm, rs, rt, a, x0.re, x1.re, b, y0.re, y1.re);
    InvertPairLinear(l, hm, rs, rt, a, x0.im, x1.im, b, y0.im, y1.im);
  }

  lemma InvertLinearAt(p: Params, a: real, x: Spectrum, b: real, y: Spectrum, l: nat, r: nat, c: nat)
    requires p.Valid() && l < 2 && r < p.n && c < p.n / 2 + 1
    ensures Invert(p, Lin(p.n, a, x, b, y))[l][r][c] == Lin(p.n, a, Invert(p, x), b, Invert(p, y))[l][r][c]
  {
    var x0, x1, y0, y1 := CAt(x, 0, r, c), CAt(x, 1, r, c), CAt(y, 0, r, c), CAt(y, 1, r, c);
    var z := Lin(p.n, a, x, b, y);
    assert CAt(z, 0, r, c) == x0.Scale(a).Plus(y0.Scale(b));
    assert CAt(z, 1, r, c) == x1.Scale(a).Plus(y1.Scale(b));
    assert CAt(Invert(p, x), l, r, c) == InvertAt(p, l, x0, x1, r, c);
    assert CAt(Invert(p, y), l, r, c) == InvertAt(p, l, y0, y1, r, c);
    InvertAtLinear(p, l, a, x0, x1, b, y0, y1, r, c);
  }

  /** Inversion is linear, so a Runge-Kutta stage input pv + a*k inverts to
      psi(pv) + a*psi(k). */
  lemma InvertLinear(p: Params, a: real, x: Spectrum, b: real, y: Spectrum)
    requires p.Valid()
    ensures Invert(p, Lin(p.n, a, x, b, y)) == Lin(p.n, a, Invert(p, x), b, Invert(p, y))
  {
    var lhs, rhs := Invert(p, Lin(p.n, a, x, b, y)), Lin(p.n, a, Invert(p, x), b, Invert(p, y));
    forall l, r, c | 0 <= l < 2 && 0 <= r < p.n && 0 <= c < p.n / 2 + 1
      ensures lhs[l][r][c] == rhs[l][r][c]
    {
      InvertLinearAt(p, a, x, b, y, l, r, c);
    }
    FieldEq(lhs, rhs, 2, p.n, p.n / 2 + 1);
  }

  // -------------------------------------------------------------- tendency

  datatype Wind = Wind(u: Grid, v: Grid)

  /** Winds (u, v) = (-dpsi/dy, dpsi/dx) on the physical grid; on the 3/2-size
      grid when dealiasing. */
  function Velocity(p: Params, fft: Transforms, psi: Spectrum): Wind
    requires p.Valid()
  {
    if p.dealias then
      var pad := Padded(p.n, psi);
      Wind(fft.irfft2(TimesIL(3 * p.n / 2, 3 * p.n / 4 + 1, -p.kscale, pad)),
           fft.irfft2(TimesIK(3 * p.n / 2, 3 * p.n / 4 + 1, p.kscale, pad)))
    else
      Wind(fft.irfft2(TimesIL(p.n, p.n / 2 + 1, -p.kscale, psi)),
           fft.irfft2(TimesIK(p.n, p.n / 2 + 1, p.kscale, psi)))
  }

  /** The pv gradient (d/dx, d/dy) on the same grid as the winds. */
  function Gradient(p: Params, fft: Transforms, pv: Spectrum): Wind
    requires p.Valid()
  {
    if p.dealias then
      var pad := Padded(p.n, pv);
      Wind(fft.irfft2(TimesIK(3 * p.n / 2, 3 * p.n / 4 + 1, p.kscale, pad)),
           fft.irfft2(TimesIL(3 * p.n / 2, 3 * p.n / 4 + 1, p.kscale, pad)))
    else
      Wind(fft.irfft2(TimesIK(p.n, p.n / 2 + 1, p.kscale, pv)),
           fft.irfft2(TimesIL(p.n, p.n / 2 + 1, p.kscale, pv)))
  }

  /** a + b pointwise, on the shape of a. */
  function GridPlus(a: Grid, b: Grid): (s: Grid)
    ensures |s| == |a|
  {
    seq(|a|, l requires 0 <= l < |a| => seq(|a[l]|, r requires 0 <= r < |a[l]| => seq(|a[l][r]|, c requires 0 <= c < |a[l][r]| =>
      a[l][r][c] + RAt(b, l, r, c))))
  }

  /** k*a pointwise. */
  function GridScale(k: real, a: Grid): (s: Grid)
    ensures |s| == |a|
  {
    seq(|a|, l requires 0 <= l < |a| => seq(|a[l]|, r requires 0 <= r < |a[l]| => seq(|a[l][r]|, c requires 0 <= c < |a[l][r]| =>
      k * a[l][r][c])))
  }

  /** u * dpv/dx + v * dpv/dy on the grid of u. */
  function Advection(w: Wind, g: Wind): (adv: Grid)
    ensures |adv| == |w.u|
  {
    var u := w.u;
    seq(|u|, l requires 0 <= l < |u| => seq(|u[l]|, r requires 0 <= r < |u[l]| => seq(|u[l][r]|, c requires 0 <= c < |u[l][r]| =>
      u[l][r][c] * RAt(g.u, l, r, c) + RAt(w.v, l, r, c) * RAt(g.v, l, r, c))))
  }

  /** Spectrum of the advection, truncated by the 2/3 rule when dealiasing. */
  function JacobianSpectrum(p: Params, fft: Transforms, w: Wind, g: Wind): Spectrum
  {
    var jac := fft.rfft2(Advection(w, g));
    if p.dealias then Truncated(p.n, jac) else jac
  }

  /** r * |K|^2 * psi at the surface, its negative at the lid for the symmetric
      jet, zero elsewhere and when Ekman damping is off. */
  function EkmanDamping(p: Params, psi: Spectrum, l: int, r: int, c: int): Complex
  {
    var rate := p.r * PAt(KsqLsq(p.n, p.kscale), r, c);
    if p.Ekman() && l == 0 then CAt(psi, 0, r, c).Scale(rate)
    else if p.Ekman() && p.symmetric && l == 1 then CAt(psi, 1, r, c).Scale(-rate)
    else CZero
  }

  /** Level lev of x, with (r*|K|^2*psi[lev]) added or subtracted. */
  function DampLevel(p: Params, x: Spectrum, lev: int, psi: Spectrum, subtract: bool): (y: Spectrum)
    ensures IsField(y, 2, p.n, p.n / 2 + 1)
    ensures forall l, r, c :: 0 <= l < 2 && 0 <= r < p.n && 0 <= c < p.n / 2 + 1 ==>
      y[l][r][c] == DampedAt(p, x, lev, psi, subtract, l, r, c)
  {
    seq(2, l => seq(p.n, r => seq(p.n / 2 + 1, c => DampedAt(p, x, lev, psi, subtract, l, r, c))))
  }

  function DampedAt(p: Params, x: Spectrum, lev: int, psi: Spectrum, subtract: bool, l: int, r: int, c: int): Complex
  {
    var term := CAt(psi, lev, r, c).Scale(p.r * PAt(KsqLsq(p.n, p.kscale), r, c));
    if l != lev then CAt(x, l, r, c)
    else if subtract then CAt(x, l, r, c).Minus(term)
    else CAt(x, l, r, c).Plus(term)
  }

  function RelaxAt(p: Params, pv: Spectrum, jac: Spectrum, l: int, r: int, c: int): Complex
    requires p.tdiab != 0.0
  {
    CAt(p.pvspecEq, l, r, c).Minus(CAt(pv, l, r, c)).Scale(1.0 / p.tdiab).Minus(CAt(jac, l, r, c))
  }

  /** Thermal relaxation minus the Jacobian. */
  function Relaxation(p: Params, pv: Spectrum, jac: Spectrum): (base: Spectrum)
    requires p.tdiab != 0.0
    ensures IsField(base, 2, p.n, p.n / 2 + 1)
    ensures forall l, r, c :: 0 <= l < 2 && 0 <= r < p.n && 0 <= c < p.n / 2 + 1 ==>
      base[l][r][c] == RelaxAt(p, pv, jac, l, r, c)
  {
    seq(2, l => seq(p.n, r => seq(p.n / 2 + 1, c => RelaxAt(p, pv, jac, l, r, c))))
  }

  /** dpv/dt = (pv_eq - pv)/tdiab - J, then the Ekman terms. */
  function Assemble(p: Params, pv: Spectrum, jac: Spectrum, psi: Spectrum): (tend: Spectrum)
    requires p.Valid()
    ensures IsField(tend, 2, p.n, p.n / 2 + 1)
    ensures forall l, r, c :: 0 <= l < 2 && 0 <= r < p.n && 0 <= c < p.n / 2 + 1 ==>
      tend[l][r][c] == RelaxAt(p, pv, jac, l, r, c).Plus(EkmanDamping(p, psi, l, r, c))
  {
    var base := Relaxation(p, pv, jac);
    var surface := if p.Ekman() then DampLevel(p, base, 0, psi, false) else base;
    var tend := if p.Ekman() && p.symmetric then DampLevel(p, surface, 1, psi, true) else surface;
    assert forall l, r, c :: 0 <= l < 2 && 0 <= r < p.n && 0 <= c < p.n / 2 + 1 ==>
      CAt(base, l, r, c) == RelaxAt(p, pv, jac, l, r, c) && CAt(surface, l, r, c) == surface[l][r][c];
    tend
  }

  datatype Tendency = Tendency(dpvdt: Spectrum, u: Grid, v: Grid)

  /** gettend(pvspec): the pv tendency and the winds that advect the pv, the
      perturbation winds (when given) added to the balanced winds. */
  function Tend(p: Params, fft: Transforms, pv: Spectrum, pert: Option<Wind>): (t: Tendency)
    requires p.Valid()
    ensures IsField(t.dpvdt, 2, p.n, p.n / 2 + 1)
    ensures pert.None? ==> Wind(t.u, t.v) == Velocity(p, fft, Invert(p, pv))
    ensures pert.Some? ==> Wind(t.u, t.v) == Wind(GridPlus(Velocity(p, fft, Invert(p, pv)).u, pert.value.u),
                                                  GridPlus(Velocity(p, fft, Invert(p, pv)).v, pert.value.v))
    ensures t.dpvdt == Assemble(p, pv, JacobianSpectrum(p, fft, Wind(t.u, t.v), Gradient(p, fft, pv)), Invert(p, pv))
  {
    var psi := Invert(p, pv);
    var w0 := Velocity(p, fft, psi);
    var w := if pert.Some? then Wind(GridPlus(w0.u, pert.value.u), GridPlus(w0.v, pert.value.v)) else w0;
    Tendency(Assemble(p, pv, JacobianSpectrum(p, fft, w, Gradient(p, fft, pv)), psi), w.u, w.v)
  }

  /** Damping a level and then undamping it by the same streamfunction
      gives back the field. */
  lemma DampLevelInverse(p: Params, x: Spectrum, lev: int, psi: Spectrum)
    requires IsField(x, 2, p.n, p.n / 2 + 1)
    ensures DampLevel(p, DampLevel(p, x, lev, psi, false), lev, psi, true) == x
  {
    var y := DampLevel(p, x, lev, psi, false);
    var z := DampLevel(p, y, lev, psi, true);
    forall l, r, c | 0 <= l < 2 && 0 <= r < p.n && 0 <= c < p.n / 2 + 1 ensures z[l][r][c] == x[l][r][c] {
      assert CAt(y, l, r, c) == y[l][r][c];
      assert CAt(x, l, r, c) == x[l][r][c];
    }
    FieldEq(z, x, 2, p.n, p.n / 2 + 1);
  }

  /** The equilibrium pv is a fixed point of the relaxation when there is no
      Jacobian. */
  lemma RelaxationAtEquilibrium(p: Params, jac: Spectrum)
    requires p.tdiab != 0.0
    requires forall l, r, c :: CAt(jac, l, r, c) == CZero
    ensures forall l, r, c :: 0 <= l < 2 && 0 <= r < p.n && 0 <= c < p.n / 2 + 1 ==>
      Relaxation(p, p.pvspecEq, jac)[l][r][c] == CZero
  {
    forall l, r, c | 0 <= l < 2 && 0 <= r < p.n && 0 <= c < p.n / 2 + 1
      ensures RelaxAt(p, p.pvspecEq, jac, l, r, c) == CZero
    {
      var q := CAt(p.pvspecEq, l, r, c);
      assert q.Minus(q) == CZero;
      assert CZero.Scale(1.0 / p.tdiab) == CZero;
    }
  }

  /** Adding a grid that is zero everywhere changes nothing. */
  lemma GridPlusZero(a: Grid, b: Grid)
    requires forall l, r, c :: RAt(b, l, r, c) == 0.0
    ensures GridPlus(a, b) == a
  {
    var s := GridPlus(a, b);
    forall l | 0 <= l < |a| ensures s[l] == a[l] {
      forall r | 0 <= r < |a[l]| ensures s[l][r] == a[l][r] {
        assert |s[l][r]| == |a[l][r]|;
      }
    }
  }

  /** A perturbation wind that is zero everywhere gives the tendency and the
      winds of the unperturbed model. */
  lemma TendZeroPert(p: Params, fft: Transforms, pv: Spectrum, w: Wind)
    requires p.Valid()
    requires forall l, r, c :: RAt(w.u, l, r, c) == 0.0
    requires forall l, r, c :: RAt(w.v, l, r, c) == 0.0
    ensures Tend(p, fft, pv, Some(w)) == Tend(p, fft, pv, None)
  {
    var w0 := Velocity(p, fft, Invert(p, pv));
    GridPlusZero(w0.u, w.u);
    GridPlusZero(w0.v, w.v);
  }

  /** With dealiasing the 2/3 rule leaves no Jacobian in the Nyquist column,
      so the tendency there is thermal relaxation plus Ekman damping alone,
      whatever the winds. */
  lemma TendDealiasedNyquist(p: Params, fft: Transforms, pv: Spectrum, pert: Option<Wind>, l: nat, r: nat)
    requires p.Valid() && p.dealias && l < 2 && r < p.n
    ensures Tend(p, fft, pv, pert).dpvdt[l][r][p.n / 2] ==
      CAt(p.pvspecEq, l, r, p.n / 2).Minus(CAt(pv, l, r, p.n / 2)).Scale(1.0 / p.tdiab)
        .Plus(EkmanDamping(p, Invert(p, pv), l, r, p.n / 2))
  {
    var t := Tend(p, fft, pv, pert);
    var jac := JacobianSpectrum(p, fft, Wind(t.u, t.v), Gradient(p, fft, pv));
    assert CAt(jac, l, r, p.n / 2) == CZero;
  }

  // ------------------------------------------------------------- forcing

  /** The shift perturbation's parameters: amplitude pert_amp, shift standard
      deviation pert_shift, AR(1) correlation pert_corr, innov =
      sqrt(1 - pert_corr^2), the perturbation diffusion factor (all ones when
      no perturbation diffusion is configured), and shift(pv, a1, a2), the
      periodic bilinear shift by a1 along the row axis and a2 along the column axis. */
  datatype ShiftParams = ShiftParams(amp: real, shiftScale: real, corr: real, innov: real,
                                     hyperdiffPert: Plane<real>, shift: (Grid, real, real) -> Grid)

  /** The wind perturbation of the model variant: none (SQG), a random shift
      of the pv (SQGpert), a random streamfunction pattern (SQGrandom, with or
      without a pattern object). */
  datatype Forcing =
    | Unforced
    | ShiftPerturbation(sp: ShiftParams)
    | RandomPatternForcing(pattern: Option<RP.PatternParams>)

  /** Whether the variant adds perturbation winds. */
  predicate Active(f: Forcing)
  {
    (f.ShiftPerturbation? && f.sp.amp > 0.0) || (f.RandomPatternForcing? && f.pattern.Some?)
  }

  /** x - hd*x: the part of x the perturbation diffusion factor removes. */
  function HighPass(n: nat, hd: Plane<real>, x: Spectrum): (y: Spectrum)
    ensures IsField(y, 2, n, n / 2 + 1)
    ensures forall l, r, c :: 0 <= l < 2 && 0 <= r < n && 0 <= c < n / 2 + 1 ==>
      y[l][r][c].Plus(CAt(x, l, r, c).Scale(PAt(hd, r, c))) == CAt(x, l, r, c)
  {
    seq(2, l => seq(n, r => seq(n / 2 + 1, c => CAt(x, l, r, c).Minus(CAt(x, l, r, c).Scale(PAt(hd, r, c))))))
  }

  /** Where the perturbation diffusion factor is 1 (everywhere, when no
      perturbation diffusion is configured) the high-passed pv is zero; where
      it is 0 the pv passes unchanged. */
  lemma HighPassFactor(n: nat, hd: Plane<real>, x: Spectrum, l: nat, r: nat, c: nat)
    requires l < 2 && r < n && c < n / 2 + 1
    ensures PAt(hd, r, c) == 1.0 ==> HighPass(n, hd, x)[l][r][c] == CZero
    ensures PAt(hd, r, c) == 0.0 ==> HighPass(n, hd, x)[l][r][c] == CAt(x, l, r, c)
  {
    var z := CAt(x, l, r, c);
    assert z.Scale(1.0) == z && z.Minus(z) == CZero;
    assert z.Scale(0.0) == CZero && z.Minus(CZero) == z;
  }

  /** The pv whose streamfunction gives the shift perturbation: the high-passed
      shifted pv when the shift scale is positive, the high-passed pv otherwise. */
  function ShiftedPvPert(p: Params, fft: Transforms, sp: ShiftParams, pv: Spectrum, cx: real, cy: real): Spectrum
  {
    if sp.shiftScale > 0.0 then HighPass(p.n, sp.hyperdiffPert, fft.rfft2(sp.shift(fft.irfft2(pv), cx, cy)))
    else HighPass(p.n, sp.hyperdiffPert, pv)
  }

  /** Perturbation winds of the shift variant: the balanced winds of the
      perturbation pv, scaled by the amplitude. */
  function ShiftPertWind(p: Params, fft: Transforms, sp: ShiftParams, pv: Spectrum, cx: real, cy: real): (w: Wind)
    requires p.Valid()
  {
    var b := Velocity(p, fft, Invert(p, ShiftedPvPert(p, fft, sp, pv, cx, cy)));
    Wind(GridScale(sp.amp, b.u), GridScale(sp.amp, b.v))
  }

  /** Perturbation winds of the random-pattern variant: the pattern is a streamfunction. */
  function PatternPertWind(p: Params, fft: Transforms, pattern: Grid): Wind
    requires p.Valid()
  {
    Velocity(p, fft, fft.rfft2(pattern))
  }

  // ----------------------------------------------------------- time step

  /** The fourth-order Runge-Kutta combination at one wavenumber: the
      integrating factor hd applied to y + (k1 + 2 k2 + 2 k3 + k4)/6. */
  function RK4Combine(y: Complex, k1: Complex, k2: Complex, k3: Complex, k4: Complex, hd: real): Complex
  {
    y.Plus(k1.Plus(k2.Scale(2.0)).Plus(k3.Scale(2.0)).Plus(k4).Scale(1.0 / 6.0)).Scale(hd)
  }

  /** The Runge-Kutta update of the whole spectrum, with the hyperdiffusion factor. */
  function RK4Update(p: Params, pv: Spectrum, k1: Spectrum, k2: Spectrum, k3: Spectrum, k4: Spectrum): (next: Spectrum)
    ensures IsField(next, 2, p.n, p.n / 2 + 1)
  {
    seq(2, l => seq(p.n, r => seq(p.n / 2 + 1, c =>
      RK4Combine(CAt(pv, l, r, c), CAt(k1, l, r, c), CAt(k2, l, r, c), CAt(k3, l, r, c), CAt(k4, l, r, c),
                 PAt(p.co.hyperdiff, r, c)))))
  }

  /** The weights 1, 2, 2, 1 over 6 sum to one. */
  lemma {:induction false} WeightsSumToOne(a: real)
    ensures (1.0 / 6.0) * (((a + 2.0 * a) + 2.0 * a) + a) == a
  {
  }

  /** Consistency of the scheme: if all four stage increments equal k, the step
      is the integrating factor applied to pv + k (pure hyperdiffusion when k = 0). */
  lemma RK4UpdateConstantIncrement(p: Params, pv: Spectrum, k: Spectrum, l: nat, r: nat, c: nat)
    requires l < 2 && r < p.n && c < p.n / 2 + 1
    ensures RK4Update(p, pv, k, k, k, k)[l][r][c] == CAt(pv, l, r, c).Plus(CAt(k, l, r, c)).Scale(PAt(p.co.hyperdiff, r, c))
  {
    var z := CAt(k, l, r, c);
    WeightsSumToOne(z.re);
    WeightsSumToOne(z.im);
    assert z.Plus(z.Scale(2.0)).Plus(z.Scale(2.0)).Plus(z).Scale(1.0 / 6.0) == z;
  }

  /** The routines a model instance calls: its gettend (with the perturbation
      winds to add, if any), the shift variant's perturbation winds from
      (pv, x shift, y shift), and the pattern variant's winds from a pattern. */
  datatype Routines = Routines(tend: (Spectrum, Option<Wind>) -> Tendency,
                               shiftWind: (Spectrum, real, real) -> Wind,
                               patternWind: Grid -> Wind)

  /** The constants of one model instance. */
  datatype Setup = Setup(p: Params, fft: Transforms, forcing: Forcing, rt: Routines)

  /** The routines of m are the model's own tendency and perturbation winds. */
  ghost predicate Bound(m: Setup)
  {
    m.p.Valid() &&
    (forall pv, w :: m.rt.tend(pv, w) == Tend(m.p, m.fft, pv, w)) &&
    (m.forcing.ShiftPerturbation? ==>
       forall pv, cx, cy :: m.rt.shiftWind(pv, cx, cy) == ShiftPertWind(m.p, m.fft, m.forcing.sp, pv, cx, cy)) &&
    (forall g :: m.rt.patternWind(g) == PatternPertWind(m.p, m.fft, g))
  }

  /** The setup of a model with parameters p, transforms fft and forcing f. */
  function Bind(p: Params, fft: Transforms, f: Forcing): (m: Setup)
    requires p.Valid()
    ensures m.p == p && m.fft == fft && m.forcing == f && Bound(m)
  {
    var sw := if f.ShiftPerturbation? then (pv, cx, cy) => ShiftPertWind(p, fft, f.sp, pv, cx, cy)
              else (pv, cx, cy) => Wind([], []);
    Setup(p, fft, f, Routines((pv, w) => Tend(p, fft, pv, w), sw, g => PatternPertWind(p, fft, g)))
  }

  datatype RKResult = RKResult(pvspec: Spectrum, u: Grid, v: Grid)

  /** One Runge-Kutta step of pv with the tendency routine of m: all four
      stages share the perturbation winds; the winds returned are those of the
      last stage. */
  function RK4(m: Setup, pv: Spectrum, pert: Option<Wind>): (res: RKResult)
    ensures IsField(res.pvspec, 2, m.p.n, m.p.n / 2 + 1)
  {
    RK4From(m, pv, pert, Scaled(m.p.n, m.p.dt, m.rt.tend(pv, pert).dpvdt))
  }

  /** The rest of a Runge-Kutta step of pv once the first increment k1 is known. */
  function RK4From(m: Setup, pv: Spectrum, pert: Option<Wind>, k1: Spectrum): (res: RKResult)
    ensures IsField(res.pvspec, 2, m.p.n, m.p.n / 2 + 1)
  {
    var n, dt := m.p.n, m.p.dt;
    var k2 := Scaled(n, dt, m.rt.tend(Lin(n, 1.0, pv, 0.5, k1), pert).dpvdt);
    var k3 := Scaled(n, dt, m.rt.tend(Lin(n, 1.0, pv, 0.5, k2), pert).dpvdt);
    var t4 := m.rt.tend(Lin(n, 1.0, pv, 1.0, k3), pert);
    var k4 := Scaled(n, dt, t4.dpvdt);
    RKResult(RK4Update(m.p, pv, k1, k2, k3, k4), t4.u, t4.v)
  }

  /** The evolving state of a model instance, including the perturbation
      noise state and (for the random-pattern variant) the pattern's coefficients. */
  datatype Dyn = Dyn(pvspec: Spectrum, t: real, u: Grid, v: Grid, upert: Grid, vpert: Grid,
                     prevX: real, prevY: real, coeffs: Plane<real>, pattern: Grid)

  /** The draws one step consumes: N(0, pert_shift) draws for the two shift
      components and the standard normal noise of the pattern's AR(1) update. */
  datatype StepDraws = StepDraws(shiftX: real, shiftY: real, patternNoise: Plane<real>)

  /** The first Runge-Kutta stage's redraw of the perturbation winds from the
      stage input pv, with the AR(1) update of the noise state: the shift
      variant moves its shifts one AR(1) step and recomputes the winds from the
      shifted pv; the pattern variant takes its winds from the current pattern
      and then evolves the pattern once. Nothing else changes. */
  function Redraw(m: Setup, s: Dyn, pv: Spectrum, d: StepDraws): (s': Dyn)
    ensures s'.pvspec == s.pvspec && s'.t == s.t && s'.u == s.u && s'.v == s.v
    ensures !Active(m.forcing) ==> s' == s
    ensures m.forcing.ShiftPerturbation? && Active(m.forcing) ==>
      var sp := m.forcing.sp;
      s'.prevX == sp.innov * d.shiftX + sp.corr * s.prevX &&
      s'.prevY == sp.innov * d.shiftY + sp.corr * s.prevY &&
      Wind(s'.upert, s'.vpert) == m.rt.shiftWind(pv, s'.prevX, s'.prevY) &&
      s'.coeffs == s.coeffs && s'.pattern == s.pattern
    ensures m.forcing.RandomPatternForcing? && Active(m.forcing) ==>
      Wind(s'.upert, s'.vpert) == m.rt.patternWind(s.pattern) &&
      s'.coeffs == RP.AR1(m.forcing.pattern.value, s.coeffs, d.patternNoise) &&
      s'.pattern == RP.Sample(m.forcing.pattern.value, s'.coeffs) &&
      s'.prevX == s.prevX && s'.prevY == s.prevY
  {
    match m.forcing
    case Unforced => s
    case ShiftPerturbation(sp) =>
      if sp.amp > 0.0 then
        var cx := sp.innov * d.shiftX + sp.corr * s.prevX;
        var cy := sp.innov * d.shiftY + sp.corr * s.prevY;
        var w := m.rt.shiftWind(pv, cx, cy);
        s.(upert := w.u, vpert := w.v, prevX := cx, prevY := cy)
      else s
    case RandomPatternForcing(pp) =>
      if pp.Some? then
        var w := m.rt.patternWind(s.pattern);
        var c := RP.AR1(pp.value, s.coeffs, d.patternNoise);
        s.(upert := w.u, vpert := w.v, coeffs := c, pattern := RP.Sample(pp.value, c))
      else s
  }

  /** The perturbation winds the tendency adds, if the variant has any. */
  function PertOf(m: Setup, s: Dyn): Option<Wind>
  {
    if Active(m.forcing) then Some(Wind(s.upert, s.vpert)) else None
  }

  /** One model time step on the state: one redraw (in the first stage), then
      a Runge-Kutta step whose four stages all use the redrawn winds. */
  function Step(m: Setup, s: Dyn, d: StepDraws): (s': Dyn)
    ensures s'.t == s.t + m.p.dt
  {
    var s1 := Redraw(m, s, s.pvspec, d);
    var rk := RK4(m, s.pvspec, PertOf(m, s1));
    s1.(pvspec := rk.pvspec, t := s.t + m.p.dt, u := rk.u, v := rk.v)
  }

  /** Successive time steps, one per element of draws. */
  function Run(m: Setup, s: Dyn, draws: seq<StepDraws>): Dyn
    decreases |draws|
  {
    if |draws| == 0 then s else Run(m, Step(m, s, draws[0]), draws[1..])
  }

  /** Advancing by a then by b is advancing by a + b. */
  lemma {:induction false} RunAppend(m: Setup, s: Dyn, a: seq<StepDraws>, b: seq<StepDraws>)
    ensures Run(m, s, a + b) == Run(m, Run(m, s, a), b)
    decreases |a|
  {
    if |a| == 0 {
      assert a + b == b;
    } else {
      assert (a + b)[1..] == a[1..] + b;
      RunAppend(m, Step(m, s, a[0]), a[1..], b);
    }
  }

  /** Advancing by a and then one more step. */
  lemma {:induction false} RunSnoc(m: Setup, s: Dyn, a: seq<StepDraws>, d: StepDraws)
    ensures Run(m, s, a + [d]) == Step(m, Run(m, s, a), d)
    decreases |a|
  {
    if |a| == 0 {
      assert a + [d] == [d];
    } else {
      assert (a + [d])[1..] == a[1..] + [d];
      RunSnoc(m, Step(m, s, a[0]), a[1..], d);
    }
  }

  lemma TakeAll<T>(xs: seq<T>)
    ensures xs[..|xs|] == xs
  {
  }

  lemma TakeSnoc<T>(xs: seq<T>, i: nat)
    requires i < |xs|
    ensures xs[..i + 1] == xs[..i] + [xs[i]]
  {
  }

  /** The model clock advances by dt per step. */
  lemma {:induction false} RunClock(m: Setup, s: Dyn, draws: seq<StepDraws>)
    ensures Run(m, s, draws).t == s.t + (|draws| as real) * m.p.dt
    decreases |draws|
  {
    if |draws| > 0 {
      var s' := Step(m, s, draws[0]);
      RunClock(m, s', draws[1..]);
      OneMoreStep(s.t, m.p.dt, |draws| - 1);
    }
  }

  lemma OneMoreStep(t0: real, dt: real, k: nat)
    ensures (t0 + dt) + (k as real) * dt == t0 + ((k + 1) as real) * dt
  {
  }

  /** The shift perturbation moves its shifts by exactly one AR(1) step per
      time step, however many Runge-Kutta stages the step has; the x shift
      follows the shiftX draws and the y shift the shiftY draws. */
  lemma {:induction false} RunShiftNoise(m: Setup, s: Dyn, draws: seq<StepDraws>)
    requires m.forcing.ShiftPerturbation? && Active(m.forcing)
    ensures Run(m, s, draws).prevX == ShiftNoise(m.forcing.sp, s.prevX, draws, false)
    ensures Run(m, s, draws).prevY == ShiftNoise(m.forcing.sp, s.prevY, draws, true)
    decreases |draws|
  {
    if |draws| > 0 {
      var sp, s' := m.forcing.sp, Step(m, s, draws[0]);
      assert Run(m, s, draws) == Run(m, s', draws[1..]);
      StepShiftNoise(m, s, draws[0]);
      assert ShiftNoise(sp, s.prevX, draws, false) == ShiftNoise(sp, ArStep(sp, draws[0].shiftX, s.prevX), draws[1..], false);
      assert ShiftNoise(sp, s.prevY, draws, true) == ShiftNoise(sp, ArStep(sp, draws[0].shiftY, s.prevY), draws[1..], true);
      RunShiftNoise(m, s', draws[1..]);
    }
  }

  lemma StepShiftNoise(m: Setup, s: Dyn, d: StepDraws)
    requires m.forcing.ShiftPerturbation? && Active(m.forcing)
    ensures Step(m, s, d).prevX == ArStep(m.forcing.sp, d.shiftX, s.prevX)
    ensures Step(m, s, d).prevY == ArStep(m.forcing.sp, d.shiftY, s.prevY)
  {
    assert Step(m, s, d).prevX == Redraw(m, s, s.pvspec, d).prevX;
    assert Step(m, s, d).prevY == Redraw(m, s, s.pvspec, d).prevY;
  }

  /** One AR(1) update innov * e + corr * x of a shift component. */
  function ArStep(sp: ShiftParams, e: real, x: real): real
  {
    sp.innov * e + sp.corr * x
  }

  /** The AR(1) recurrence x := innov * e + corr * x over the draws e of one
      shift component (shiftY when yAxis, shiftX otherwise). */
  function ShiftNoise(sp: ShiftParams, x: real, draws: seq<StepDraws>, yAxis: bool): real
    decreases |draws|
  {
    if |draws| == 0 then x
    else ShiftNoise(sp, ArStep(sp, if yAxis then draws[0].shiftY else draws[0].shiftX, x), draws[1..], yAxis)
  }

  /** A shift-perturbation model with zero amplitude is the unperturbed model:
      it evolves pv and the winds as the plain SQG model does. */
  lemma ZeroAmplitudeIsUnforced(p: Params, fft: Transforms, sp: ShiftParams, rt: Routines, s: Dyn, d: StepDraws)
    requires sp.amp <= 0.0
    ensures Step(Setup(p, fft, ShiftPerturbation(sp), rt), s, d) == Step(Setup(p, fft, Unforced, rt), s, d)
  {
  }

  // ----------------------------------------------------------- the model

  class SQGModel {
    const setup: Setup
    const randomPattern: RP.RandomPatternEig?
    var pvspec: Spectrum
    var t: real
    /** Steps taken by each call of Advance. */
    var timesteps: nat
    /** True during the first Runge-Kutta stage of a step. */
    var rkfirst: bool
    var u: Grid
    var v: Grid
    var upert: Grid
    var vpert: Grid
    var pertShiftPrevX: real
    var pertShiftPrevY: real
    /** Calls of the tendency routine so far. */
    ghost var tendCalls: nat
    /** Recomputations of the perturbation winds so far. */
    ghost var windRedraws: nat

    /** The random pattern object is present exactly when the variant has a
        pattern, with that pattern's parameters. (The constant setup's own
        validity is Bound(setup), which Create establishes.) */
    ghost predicate Valid()
      reads this, randomPattern
    {
      if setup.forcing.RandomPatternForcing? && setup.forcing.pattern.Some?
      then randomPattern != null && randomPattern.params == setup.forcing.pattern.value && randomPattern.Valid()
      else randomPattern == null
    }

    ghost function State(): Dyn
      reads this, randomPattern
    {
      Dyn(pvspec, t, u, v, upert, vpert, pertShiftPrevX, pertShiftPrevY,
          if randomPattern != null then randomPattern.coeffs else [],
          if randomPattern != null then randomPattern.pattern else [])
    }

    constructor (setup: Setup, randomPattern: RP.RandomPatternEig?, pvspec: Spectrum, prevX: real, prevY: real)
      ensures this.setup == setup && this.randomPattern == randomPattern
      ensures this.pvspec == pvspec && t == 0.0 && timesteps == 1 && !rkfirst
      ensures u == [] && v == [] && upert == [] && vpert == []
      ensures pertShiftPrevX == prevX && pertShiftPrevY == prevY
      ensures tendCalls == 0 && windRedraws == 0
    {
      this.setup := setup;
      this.randomPattern := randomPattern;
      this.pvspec := pvspec;
      t := 0.0;
      timesteps := 1;
      rkfirst := false;
      u, v, upert, vpert := [], [], [], [];
      pertShiftPrevX, pertShiftPrevY := prevX, prevY;
      tendCalls, windRedraws := 0, 0;
    }

    /** The constructor of the SQG classes: argument checks, then the model
        with pvspec = rfft2(pv), time 0 and one step per Advance. prevX and
        prevY are the initial N(0, pert_shift) shift draws of the shift variant. */
    static method Create(pv: Grid, dt: Option<real>, diffEfold: Option<real>, precision: string,
                         domainSize: real, kscale: real, r: real, tdiab: real, symmetric: bool, dealias: bool,
                         co: Coefficients, fft: Transforms, forcing: Forcing,
                         randomPattern: RP.RandomPatternEig?, prevX: real, prevY: real)
      returns (res: Result<SQGModel, ConfigError>)
      requires CheckModel(pv, dt, diffEfold, precision, domainSize, forcing).Success? ==>
        tdiab != 0.0 && CoefficientsFit(co, GridSize(pv))
      requires forcing.RandomPatternForcing? && forcing.pattern.Some? ==>
        randomPattern != null && randomPattern.params == forcing.pattern.value && randomPattern.Valid()
      requires !(forcing.RandomPatternForcing? && forcing.pattern.Some?) ==> randomPattern == null
      ensures res.Failure? <==> CheckModel(pv, dt, diffEfold, precision, domainSize, forcing).Failure?
      ensures res.Failure? ==> res.error == CheckModel(pv, dt, diffEfold, precision, domainSize, forcing).error
      ensures res.Success? ==>
        var mdl := res.value;
        fresh(mdl) && mdl.Valid() && Bound(mdl.setup) &&
        mdl.setup.p == Params(GridSize(pv), dt.value, kscale, r, tdiab, symmetric, dealias,
                              CheckModel(pv, dt, diffEfold, precision, domainSize, forcing).value, co, fft.rfft2(co.pvbar)) &&
        mdl.setup.fft == fft && mdl.setup.forcing == forcing && mdl.randomPattern == randomPattern &&
        mdl.pvspec == fft.rfft2(pv) && mdl.t == 0.0 && mdl.timesteps == 1 &&
        mdl.pertShiftPrevX == prevX && mdl.pertShiftPrevY == prevY
    {
      var check := CheckModel(pv, dt, diffEfold, precision, domainSize, forcing);
      if check.Failure? {
        return Failure(check.error);
      }
      var p := Params(GridSize(pv), dt.value, kscale, r, tdiab, symmetric, dealias, check.value, co, fft.rfft2(co.pvbar));
      var mdl := new SQGModel(Bind(p, fft, forcing), randomPattern, fft.rfft2(pv), prevX, prevY);
      return Success(mdl);
    }

    /** gettend(pv): in the first Runge-Kutta stage, redraw the perturbation
        winds (and evolve the random pattern); then the tendency with the
        current perturbation winds, saving the advecting winds. */
    method GetTend(pv: Spectrum, d: StepDraws) returns (dpvdt: Spectrum)
      requires Valid()
      modifies this`u, this`v, this`upert, this`vpert, this`pertShiftPrevX, this`pertShiftPrevY,
               this`tendCalls, this`windRedraws, randomPattern
      ensures randomPattern != null ==> randomPattern.rngSeed == old(randomPattern.rngSeed)
      ensures Valid()
      ensures var s1 := if rkfirst then Redraw(setup, old(State()), pv, d) else old(State());
              var r := setup.rt.tend(pv, PertOf(setup, s1));
              dpvdt == r.dpvdt && State() == s1.(u := r.u, v := r.v)
      ensures tendCalls == old(tendCalls) + 1
      ensures windRedraws == old(windRedraws) + (if rkfirst && Active(setup.forcing) then 1 else 0)
      ensures randomPattern != null ==>
        randomPattern.evolutions == old(randomPattern.evolutions) + (if rkfirst then 1 else 0)
    {
      if rkfirst {
        match setup.forcing
        case Unforced =>
        case ShiftPerturbation(sp) =>
          if sp.amp > 0.0 {
            RedrawShift(pv, d);
          }
        case RandomPatternForcing(pp) =>
          if randomPattern != null {
            RedrawPattern(d);
          }
      }
      var res := setup.rt.tend(pv, if Active(setup.forcing) then Some(Wind(upert, vpert)) else None);
      u, v := res.u, res.v;
      dpvdt := res.dpvdt;
      tendCalls := tendCalls + 1;
    }

    /** The shift variant's first-stage redraw: one AR(1) step of the shifts,
        then the winds of the shifted perturbation pv. */
    method RedrawShift(pv: Spectrum, d: StepDraws)
      requires setup.forcing.ShiftPerturbation? && setup.forcing.sp.amp > 0.0
      modifies this`upert, this`vpert, this`pertShiftPrevX, this`pertShiftPrevY, this`windRedraws
      ensures State() == Redraw(setup, old(State()), pv, d)
      ensures windRedraws == old(windRedraws) + 1
    {
      var sp := setup.forcing.sp;
      var cx := sp.innov * d.shiftX + sp.corr * pertShiftPrevX;
      var cy := sp.innov * d.shiftY + sp.corr * pertShiftPrevY;
      var w := setup.rt.shiftWind(pv, cx, cy);
      upert, vpert := w.u, w.v;
      pertShiftPrevX, pertShiftPrevY := cx, cy;
      windRedraws := windRedraws + 1;
    }

    /** The pattern variant's first-stage redraw: the winds of the current
        pattern, then one evolve() of the pattern. */
    method RedrawPattern(d: StepDraws)
      requires Valid() && randomPattern != null
      modifies this`upert, this`vpert, this`windRedraws, randomPattern
      ensures randomPattern != null ==> randomPattern.rngSeed == old(randomPattern.rngSeed)
      ensures Valid()
      ensures forall pv :: State() == Redraw(setup, old(State()), pv, d)
      ensures windRedraws == old(windRedraws) + 1
      ensures randomPattern.evolutions == old(randomPattern.evolutions) + 1
    {
      var w := setup.rt.patternWind(randomPattern.pattern);
      upert, vpert := w.u, w.v;
      randomPattern.Evolve(d.patternNoise);
      windRedraws := windRedraws + 1;
    }

    /** timestep(): one Runge-Kutta step, the perturbation drawn in the first stage only. */
    method Timestep(d: StepDraws)
      requires Valid()
      modifies this`pvspec, this`t, this`rkfirst, this`u, this`v, this`upert, this`vpert,
               this`pertShiftPrevX, this`pertShiftPrevY, this`tendCalls, this`windRedraws, randomPattern
      ensures randomPattern != null ==> randomPattern.rngSeed == old(randomPattern.rngSeed)
      ensures Valid()
      ensures State() == Step(setup, old(State()), d)
      ensures t == old(t) + setup.p.dt
      ensures !rkfirst
      ensures tendCalls == old(tendCalls) + 4
      ensures windRedraws == old(windRedraws) + (if Active(setup.forcing) then 1 else 0)
      ensures randomPattern != null ==> randomPattern.evolutions == old(randomPattern.evolutions) + 1
    {
      ghost var s1 := Redraw(setup, State(), pvspec, d);
      rkfirst := true;
      var d1 := GetTend(pvspec, d);
      assert PertOf(setup, State()) == PertOf(setup, s1);
      rkfirst := false;
      Finish(Scaled(setup.p.n, setup.p.dt, d1));
    }

    /** The second to fourth Runge-Kutta stages and the update of pvspec and t,
        from the first increment k1. */
    method Finish(k1: Spectrum)
      requires !rkfirst
      modifies this`pvspec, this`t, this`u, this`v, this`tendCalls
      ensures var rk := RK4From(setup, old(pvspec), PertOf(setup, old(State())), k1);
              pvspec == rk.pvspec && u == rk.u && v == rk.v
      ensures t == old(t) + setup.p.dt
      ensures tendCalls == old(tendCalls) + 3
    {
      var n, dt := setup.p.n, setup.p.dt;
      var d2 := Stage(Lin(n, 1.0, pvspec, 0.5, k1));
      var k2 := Scaled(n, dt, d2);
      var d3 := Stage(Lin(n, 1.0, pvspec, 0.5, k2));
      var k3 := Scaled(n, dt, d3);
      var d4 := Stage(Lin(n, 1.0, pvspec, 1.0, k3));
      var k4 := Scaled(n, dt, d4);
      pvspec := RK4Update(setup.p, pvspec, k1, k2, k3, k4);
      t := t + dt;
    }

    /** A later Runge-Kutta stage: gettend(pv) with rkfirst false, which keeps
        the perturbation winds and saves the advecting winds. */
    method Stage(pv: Spectrum) returns (dpvdt: Spectrum)
      requires !rkfirst
      modifies this`u, this`v, this`tendCalls
      ensures var r := setup.rt.tend(pv, PertOf(setup, old(State())));
              dpvdt == r.dpvdt && u == r.u && v == r.v
      ensures tendCalls == old(tendCalls) + 1
    {
      var res := setup.rt.tend(pv, if Active(setup.forcing) then Some(Wind(upert, vpert)) else None);
      u, v := res.u, res.v;
      dpvdt := res.dpvdt;
      tendCalls := tendCalls + 1;
    }

    /** advance(pv): optionally restart from rfft2(pv), take timesteps steps and
        return the pv on the grid. */
    method Advance(pv: Option<Grid>, draws: seq<StepDraws>) returns (out: Grid)
      requires Valid() && |draws| == timesteps
      modifies this`pvspec, this`t, this`rkfirst, this`u, this`v, this`upert, this`vpert,
               this`pertShiftPrevX, this`pertShiftPrevY, this`tendCalls, this`windRedraws, randomPattern
      ensures randomPattern != null ==> randomPattern.rngSeed == old(randomPattern.rngSeed)
      ensures Valid()
      ensures State() == Run(setup, old(State()).(pvspec := if pv.Some? then setup.fft.rfft2(pv.value) else old(pvspec)), draws)
      ensures out == setup.fft.irfft2(pvspec)
      ensures tendCalls == old(tendCalls) + 4 * |draws|
      ensures windRedraws == old(windRedraws) + (if Active(setup.forcing) then |draws| else 0)
      ensures randomPattern != null ==> randomPattern.evolutions == old(randomPattern.evolutions) + |draws|
    {
      ghost var s0 := State().(pvspec := if pv.Some? then setup.fft.rfft2(pv.value) else pvspec);
      if pv.Some? {
        pvspec := setup.fft.rfft2(pv.value);
      }
      assert State() == s0;
      Steps(draws);
      out := setup.fft.irfft2(pvspec);
    }

    /** |draws| time steps. */
    method Steps(draws: seq<StepDraws>)
      requires Valid()
      modifies this`pvspec, this`t, this`rkfirst, this`u, this`v, this`upert, this`vpert,
               this`pertShiftPrevX, this`pertShiftPrevY, this`tendCalls, this`windRedraws, randomPattern
      ensures randomPattern != null ==> randomPattern.rngSeed == old(randomPattern.rngSeed)
      ensures Valid()
      ensures State() == Run(setup, old(State()), draws)
      ensures tendCalls == old(tendCalls) + 4 * |draws|
      ensures windRedraws == old(windRedraws) + (if Active(setup.forcing) then |draws| else 0)
      ensures randomPattern != null ==> randomPattern.evolutions == old(randomPattern.evolutions) + |draws|
    {
      ghost var s0 := State();
      var i := 0;
      while i < |draws|
        invariant 0 <= i <= |draws|
        invariant Valid()
        invariant State() == Run(setup, s0, draws[..i])
        invariant tendCalls == old(tendCalls) + 4 * i
        invariant windRedraws == old(windRedraws) + (if Active(setup.forcing) then i else 0)
        invariant randomPattern != null ==> randomPattern.evolutions == old(randomPattern.evolutions) + i
        invariant randomPattern != null ==> randomPattern.rngSeed == old(randomPattern.rngSeed)
      {
        Extend(s0, draws, i);
        i := i + 1;
      }
      TakeAll(draws);
    }

    /** Time step i + 1 of draws from s0. */
    method Extend(ghost s0: Dyn, draws: seq<StepDraws>, i: nat)
      requires i < |draws|
      requires Valid() && State() == Run(setup, s0, draws[..i])
      modifies this`pvspec, this`t, this`rkfirst, this`u, this`v, this`upert, this`vpert,
               this`pertShiftPrevX, this`pertShiftPrevY, this`tendCalls, this`windRedraws, randomPattern
      ensures randomPattern != null ==> randomPattern.rngSeed == old(randomPattern.rngSeed)
      ensures Valid()
      ensures State() == Run(setup, s0, draws[..i + 1])
      ensures tendCalls == old(tendCalls) + 4
      ensures windRedraws == old(windRedraws) + (if Active(setup.forcing) then 1 else 0)
      ensures randomPattern != null ==> randomPattern.evolutions == old(randomPattern.evolutions) + 1
    {
      Timestep(draws[i]);
      RunSnoc(setup, s0, draws[..i], draws[i]);
      TakeSnoc(draws, i);
    }
  }
}
