/** Value types shared by the model: Option/Result, complex spectral
    coefficients, array shapes with total accessors (an entry outside the
    array reads as zero), finite sums over reals, and integer division facts. */
module Numerics {

  datatype Option<T> = None | Some(value: T)

  datatype Result<T, E> = Success(value: T) | Failure(error: E)

  /** A complex Fourier coefficient. */
  datatype Complex = Complex(re: real, im: real) {
    function Plus(o: Complex): Complex { Complex(re + o.re, im + o.im) }
    function Minus(o: Complex): Complex { Complex(re - o.re, im - o.im) }
    function Scale(s: real): Complex { Complex(s * re, s * im) }
    function Conj(): Complex { Complex(re, -im) }
    /** This coefficient multiplied by the imaginary number i*w. */
    function TimesI(w: real): Complex { Complex(-(w * im), w * re) }
  }

  const CZero := Complex(0.0, 0.0)

  /** rows x cols */
  type Plane<T> = seq<seq<T>>
  /** levels x rows x cols */
  type Field<T> = seq<seq<seq<T>>>

  predicate IsPlane<T>(x: Plane<T>, rows: nat, cols: nat)
  {
    |x| == rows && forall r :: 0 <= r < rows ==> |x[r]| == cols
  }

  predicate IsField<T>(x: Field<T>, levels: nat, rows: nat, cols: nat)
  {
    |x| == levels && forall l :: 0 <= l < levels ==> IsPlane(x[l], rows, cols)
  }

  function CAt(x: Field<Complex>, l: int, r: int, c: int): Complex
  {
    if 0 <= l < |x| && 0 <= r < |x[l]| && 0 <= c < |x[l][r]| then x[l][r][c] else CZero
  }

  function RAt(x: Field<real>, l: int, r: int, c: int): real
  {
    if 0 <= l < |x| && 0 <= r < |x[l]| && 0 <= c < |x[l][r]| then x[l][r][c] else 0.0
  }

  function PAt(x: Plane<real>, r: int, c: int): real
  {
    if 0 <= r < |x| && 0 <= c < |x[r]| then x[r][c] else 0.0
  }

  /** Entrywise equality of two fields of one shape is equality. */
  lemma FieldEq<T>(a: Field<T>, b: Field<T>, levels: nat, rows: nat, cols: nat)
    requires IsField(a, levels, rows, cols) && IsField(b, levels, rows, cols)
    requires forall l, r, c :: 0 <= l < levels && 0 <= r < rows && 0 <= c < cols ==> a[l][r][c] == b[l][r][c]
    ensures a == b
  {
    forall l | 0 <= l < levels ensures a[l] == b[l] {
      forall r | 0 <= r < rows ensures a[l][r] == b[l][r] {
        assert |a[l][r]| == |b[l][r]| == cols;
      }
    }
  }

  /** Entrywise equality of two planes of one shape is equality. */
  lemma PlaneEq<T>(a: Plane<T>, b: Plane<T>, rows: nat, cols: nat)
    requires IsPlane(a, rows, cols) && IsPlane(b, rows, cols)
    requires forall r, c :: 0 <= r < rows && 0 <= c < cols ==> a[r][c] == b[r][c]
    ensures a == b
  {
    forall r | 0 <= r < rows ensures a[r] == b[r] {
      assert |a[r]| == |b[r]| == cols;
    }
  }

  /** xs[0] + xs[1] + ... */
  function Sum(xs: seq<real>): real
  {
    if |xs| == 0 then 0.0 else xs[0] + Sum(xs[1..])
  }

  /** The sequence a*xs[i] + b. */
  function Affine(xs: seq<real>, a: real, b: real): (ys: seq<real>)
    ensures |ys| == |xs|
  {
    seq(|xs|, i requires 0 <= i < |xs| => a * xs[i] + b)
  }

  lemma {:induction false} SumAffine(xs: seq<real>, a: real, b: real)
    ensures Sum(Affine(xs, a, b)) == a * Sum(xs) + (|xs| as real) * b
  {
    if |xs| > 0 {
      var ys, tail := Affine(xs, a, b), Affine(xs[1..], a, b);
      AffineTail(xs, a, b);
      SumAffine(xs[1..], a, b);
      AffineStep(Sum(ys), ys[0], Sum(tail), Sum(xs), xs[0], Sum(xs[1..]), a, b, (|xs| - 1) as real);
    }
  }

  /** Dropping the first term commutes with Affine. */
  lemma AffineTail(xs: seq<real>, a: real, b: real)
    requires |xs| > 0
    ensures Affine(xs, a, b)[1..] == Affine(xs[1..], a, b)
  {
    var ys, tail := Affine(xs, a, b), Affine(xs[1..], a, b);
    forall i | 0 <= i < |xs| - 1
      ensures ys[1..][i] == tail[i]
    {
      assert xs[1..][i] == xs[i + 1];
    }
  }

  /** The induction step of SumAffine, on the sums as plain numbers. */
  lemma AffineStep(sumY: real, y0: real, sumTail: real, sumX: real, x0: real, sumXTail: real, a: real, b: real, n: real)
    requires sumY == y0 + sumTail && y0 == a * x0 + b
    requires sumTail == a * sumXTail + n * b && sumX == x0 + sumXTail
    ensures sumY == a * sumX + (n + 1.0) * b
  {
  }

  /** A sum of nonnegative terms is nonnegative, and it is zero only when every term is. */
  lemma {:induction false} SumNonnegative(xs: seq<real>)
    requires forall i :: 0 <= i < |xs| ==> xs[i] >= 0.0
    ensures Sum(xs) >= 0.0
    ensures Sum(xs) == 0.0 ==> forall i :: 0 <= i < |xs| ==> xs[i] == 0.0
  {
    if |xs| > 0 {
      SumNonnegative(xs[1..]);
      forall i | 0 <= i < |xs| && Sum(xs) == 0.0 ensures xs[i] == 0.0 {
        if i > 0 { assert xs[i] == xs[1..][i - 1]; }
      }
    }
  }

  lemma MulAtLeast(x: int, d: int)
    requires x >= 1 && d > 0
    ensures x * d >= d
  {
    var y := x - 1;
    assert x * d == y * d + d;
    assert y * d >= 0;
  }

  /** Euclidean division is determined by quotient and remainder. */
  lemma DivModUnique(a: int, d: int, q: int, r: int)
    requires d > 0 && 0 <= r < d && a == q * d + r
    ensures a / d == q && a % d == r
  {
    var q', r' := a / d, a % d;
    if q' > q {
      MulAtLeast(q' - q, d);
    } else if q' < q {
      MulAtLeast(q - q', d);
    }
  }
}
