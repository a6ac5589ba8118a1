/** The discrete and algebraic logic of the EnKF cycling driver for the SQG
    model: the fixed observing network, the model-clock check, the forward
    operator, the state-vector reshape, ensemble spread, posterior inflation
    and direct insertion. */
module SqgEnkf {
  import opened Numerics

  // --------------------------------------------- Python integer arithmetic

  /** Python 2 integer division a / b: the floor of the quotient. */
  function PyDiv(a: int, b: int): int
    requires b != 0
  {
    if b > 0 then a / b else (-a) / (-b)
  }

  /** Python's a % b, which takes the sign of b. */
  function PyMod(a: int, b: int): (r: int)
    requires b != 0
    ensures a == b * PyDiv(a, b) + r
    ensures b > 0 ==> 0 <= r < b
    ensures b < 0 ==> b < r <= 0
  {
    a - b * PyDiv(a, b)
  }

  /** Negating a multiple of d gives a multiple of d, and the quotient negates. */
  lemma {:induction false} NegDivMod(a: int, d: int)
    requires d > 0
    ensures (-a) % d == 0 <==> a % d == 0
    ensures a % d == 0 ==> (-a) / d == -(a / d)
  {
    if a % d == 0 {
      DivModUnique(-a, d, -(a / d), 0);
    } else {
      DivModUnique(-a, d, -(a / d) - 1, d - a % d);
    }
  }

  // ------------------------------------------------ the observing network

  /** The network chosen by nobs: nobs > 0 random locations, or for nobs < 0
      a fixed network of every (-nobs)th grid point with nobs reset to the
      number of its points. */
  datatype Network = Network(fixed: bool, nobs: int)

  datatype SetupError = NotDivisible(nx: nat, nskip: nat)

  /** The network setup for an nx x nx grid. */
  function ObNetwork(nx: nat, nobs: int): (res: Result<Network, SetupError>)
    ensures res.Failure? <==> nobs < 0 && nx % (-nobs) != 0
    ensures res.Failure? ==> res.error == NotDivisible(nx, -nobs)
    ensures res.Success? && nobs < 0 ==> res.value == Network(true, (nx / (-nobs)) * (nx / (-nobs)))
    ensures nobs >= 0 ==> res == Success(Network(false, nobs))
  {
    if nobs < 0 then
      NegDivMod(nx, -nobs);
      if PyMod(nx, nobs) != 0 then Failure(NotDivisible(nx, -nobs))
      else
        var q := PyDiv(nx, nobs);
        assert q * q == (nx / (-nobs)) * (nx / (-nobs));
        Success(Network(true, q * q))
    else Success(Network(false, nobs))
  }

  /** nskip = int(nx / sqrt(nobs)) for the fixed network, with the square
      root of the perfect square nobs given as q. */
  function Nskip(nx: nat, q: nat): nat
    requires q > 0
  {
    nx / q
  }

  /** The nonnegative square root of a perfect square is unique. */
  lemma {:induction false} RootUnique(r: nat, q: nat)
    requires r * r == q * q
    ensures r == q
  {
  }

  /** The nskip recomputed in each cycle from nobs = (nx / s)^2 is s. */
  lemma {:induction false} NskipRecovered(nx: nat, s: nat, r: nat)
    requires s > 0 && nx > 0 && nx % s == 0
    requires r * r == ObNetwork(nx, -(s as int)).value.nobs
    ensures r == nx / s && r > 0 && Nskip(nx, r) == s
  {
    var q := nx / s;
    RootUnique(r, q);
    assert nx == q * s;
    DivModUnique(nx, q, s, 0);
  }

  /** Membership of j in the Python slice off::step. */
  predicate Strided(j: int, off: nat, step: nat)
    requires step > 0
  {
    j >= off && (j - off) % step == 0
  }

  /** The start of the strided mask: with every other point observed, odd
      cycles shift the network by one point so every point is observed
      every two cycles. */
  function Offset(nskip: nat, ntime: nat): (off: nat)
    ensures nskip > 0 ==> off < nskip
  {
    if nskip == 2 && ntime % 2 == 1 then 1 else 0
  }

  /** Whether grid point (row j, column i) is on the strided sub-grid. */
  predicate OnSubgrid(nskip: nat, off: nat, j: int, i: int)
    requires nskip > 0
  {
    Strided(j, off, nskip) && Strided(i, off, nskip)
  }

  /** Whether flat row-major index x (row x / nx, column x % nx) is on the network. */
  predicate OnNetwork(nx: nat, nskip: nat, off: nat, x: int)
    requires nx > 0 && nskip > 0
  {
    OnSubgrid(nskip, off, x / nx, x % nx)
  }

  /** The network's flat indices below k, in ascending order. */
  function Picked(nx: nat, nskip: nat, off: nat, k: nat): seq<int>
    requires nx > 0 && nskip > 0
  {
    if k == 0 then []
    else Picked(nx, nskip, off, k - 1) + (if OnNetwork(nx, nskip, off, k - 1) then [k - 1] else [])
  }

  /** The indices below k that Picked lists are exactly the network points
      below k, strictly increasing. */
  lemma {:induction false} PickedExactly(nx: nat, nskip: nat, off: nat, k: nat)
    requires nx > 0 && nskip > 0
    ensures var idx := Picked(nx, nskip, off, k);
      (forall a :: 0 <= a < |idx| ==> 0 <= idx[a] < k && OnNetwork(nx, nskip, off, idx[a])) &&
      (forall a, b :: 0 <= a < b < |idx| ==> idx[a] < idx[b]) &&
      (forall x :: 0 <= x < k && OnNetwork(nx, nskip, off, x) ==> x in idx)
  {
    if k > 0 {
      var prev, idx := Picked(nx, nskip, off, k - 1), Picked(nx, nskip, off, k);
      PickedExactly(nx, nskip, off, k - 1);
      if OnNetwork(nx, nskip, off, k - 1) {
        assert idx == prev + [k - 1];
        forall x | 0 <= x < k && OnNetwork(nx, nskip, off, x) ensures x in idx {
          if x < k - 1 {
            assert x in prev;
          } else {
            assert idx[|prev|] == x;
          }
        }
      } else {
        assert idx == prev;
      }
    }
  }

  /** Row j*nx + i of the flat row-major index is row j, column i. */
  lemma {:induction false} FlatIndex(nx: nat, j: nat, i: nat)
    requires i < nx
    ensures (j * nx + i) / nx == j && (j * nx + i) % nx == i
  {
    DivModUnique(j * nx + i, nx, j, i);
  }

  /** j * nx + i lies below ny * nx for j < ny, i < nx. */
  lemma {:induction false} FlatBound(nx: nat, ny: nat, j: nat, i: nat)
    requires j < ny && i < nx
    ensures j * nx + i < ny * nx
  {
    assert j * nx + i < j * nx + nx == (j + 1) * nx;
    assert (j + 1) * nx <= ny * nx;
  }

  /** A flat index below ny * nx splits into a row below ny and a column below nx. */
  lemma {:induction false} FlatSplit(x: int, ny: nat, nx: nat)
    requires 0 <= x < ny * nx
    ensures nx > 0 && 0 <= x / nx < ny && 0 <= x % nx < nx && x == (x / nx) * nx + x % nx
  {
  }

  /** The number of j in [0, m) in the slice off::step. */
  function Count(off: nat, step: nat, m: nat): nat
    requires step > 0
  {
    if m == 0 then 0 else Count(off, step, m - 1) + (if Strided(m - 1, off, step) then 1 else 0)
  }

  /** Below q*step + r (r <= step) the slice has q points, plus one once r passes off. */
  lemma {:induction false} CountBlocks(off: nat, step: nat, q: nat, r: nat)
    requires off < step && r <= step
    ensures Count(off, step, q * step + r) == q + (if r > off then 1 else 0)
    decreases q, r
  {
    var m := q * step + r;
    if r == 0 {
      if q > 0 {
        MulSucc(q - 1, step);
        assert m == (q - 1) * step + step;
        CountBlocks(off, step, q - 1, step);
      }
    } else {
      var prev := q * step + (r - 1);
      assert m == prev + 1;
      assert Count(off, step, m) == Count(off, step, prev) + (if Strided(prev, off, step) then 1 else 0);
      CountBlocks(off, step, q, r - 1);
      StridedInBlock(off, step, q, r - 1);
    }
  }

  /** Within block q, the slice holds exactly the point at offset off. */
  lemma {:induction false} StridedInBlock(off: nat, step: nat, q: nat, s: nat)
    requires off < step && s < step
    ensures Strided(q * step + s, off, step) <==> s == off
  {
    var x := q * step + s;
    if s >= off {
      DivModUnique(x - off, step, q, s - off);
    } else if q > 0 {
      assert x - off == (q - 1) * step + (step + s - off);
      DivModUnique(x - off, step, q - 1, step + s - off);
    }
  }

  /** A multiple of step holds exactly m / step points of the slice. */
  lemma {:induction false} CountMultiple(off: nat, step: nat, m: nat)
    requires off < step && m % step == 0
    ensures Count(off, step, m) == m / step
  {
    assert m == (m / step) * step + 0;
    CountBlocks(off, step, m / step, 0);
  }

  /** Picking one more flat index adds it when it is on the network. */
  lemma {:induction false} PickedStep(nx: nat, nskip: nat, off: nat, k: nat)
    requires nx > 0 && nskip > 0
    ensures Picked(nx, nskip, off, k + 1) == Picked(nx, nskip, off, k) + (if OnNetwork(nx, nskip, off, k) then [k] else [])
  {
  }

  lemma {:induction false} MulSucc(a: nat, b: nat)
    ensures (a + 1) * b == a * b + b
  {
  }

  /** The network below row j, column i holds Count(j) full rows of
      Count(nx) points, and Count(i) more when row j is on the network. */
  lemma {:induction false} PickedCount(nx: nat, nskip: nat, off: nat, j: nat, i: nat)
    requires nx > 0 && nskip > 0 && i <= nx
    ensures |Picked(nx, nskip, off, j * nx + i)| ==
      Count(off, nskip, j) * Count(off, nskip, nx) + (if Strided(j, off, nskip) then Count(off, nskip, i) else 0)
    decreases j, i
  {
    var rows, full := Count(off, nskip, j), Count(off, nskip, nx);
    if i > 0 {
      var k := j * nx + (i - 1);
      PickedCount(nx, nskip, off, j, i - 1);
      PickedStep(nx, nskip, off, k);
      FlatIndex(nx, j, i - 1);
      assert k + 1 == j * nx + i;
    } else if j > 0 {
      var k := (j - 1) * nx + nx;
      PickedCount(nx, nskip, off, j - 1, nx);
      MulSucc(j - 1, nx);
      assert k == j * nx + i;
      if Strided(j - 1, off, nskip) {
        MulSucc(Count(off, nskip, j - 1), full);
      }
    }
  }

  /** The fixed network of an nx x nx grid has exactly the (nx / nskip)^2
      points the setup assigned to nobs, in every cycle. */
  lemma {:induction false} FixedNetworkSize(nx: nat, nskip: nat, ntime: nat)
    requires nx > 0 && nskip > 0 && nx % nskip == 0
    ensures |Picked(nx, nskip, Offset(nskip, ntime), nx * nx)| == ObNetwork(nx, -(nskip as int)).value.nobs
  {
    var off := Offset(nskip, ntime);
    assert nx * nx == nx * nx + 0;
    PickedCount(nx, nskip, off, nx, 0);
    CountMultiple(off, nskip, nx);
  }

  /** mask = zeros((ny, nx)); mask[off:ny:nskip, off:nx:nskip] = True. */
  method FixedMask(nx: nat, ny: nat, nskip: nat, off: nat) returns (mask: array2<bool>)
    requires nskip > 0
    ensures fresh(mask) && mask.Length0 == ny && mask.Length1 == nx
    ensures forall j, i :: 0 <= j < ny && 0 <= i < nx ==>
      mask[j, i] == OnSubgrid(nskip, off, j, i)
  {
    mask := new bool[ny, nx]((j, i) => false);
    forall j, i | 0 <= j < ny && 0 <= i < nx && OnSubgrid(nskip, off, j, i) {
      mask[j, i] := true;
    }
  }

  /** The fixed network of cycle ntime: the flat indices j*nx + i of the
      mask's true entries in row-major order (tmp[mask.nonzero()]). */
  method FixedObIndices(nx: nat, ny: nat, nskip: nat, ntime: nat) returns (indxob: seq<int>)
    requires nx > 0 && nskip > 0
    ensures indxob == Picked(nx, nskip, Offset(nskip, ntime), ny * nx)
  {
    var off := Offset(nskip, ntime);
    var mask := FixedMask(nx, ny, nskip, off);
    indxob := [];
    var j := 0;
    while j < ny
      invariant 0 <= j <= ny
      invariant indxob == Picked(nx, nskip, off, j * nx)
      invariant forall j', i' :: 0 <= j' < ny && 0 <= i' < nx ==> mask[j', i'] == OnSubgrid(nskip, off, j', i')
    {
      var i := 0;
      while i < nx
        invariant 0 <= i <= nx
        invariant indxob == Picked(nx, nskip, off, j * nx + i)
        invariant forall j', i' :: 0 <= j' < ny && 0 <= i' < nx ==> mask[j', i'] == OnSubgrid(nskip, off, j', i')
      {
        var k := j * nx + i;
        FlatIndex(nx, j, i);
        PickedStep(nx, nskip, off, k);
        assert OnNetwork(nx, nskip, off, k) == OnSubgrid(nskip, off, j, i) == mask[j, i];
        if mask[j, i] {
          indxob := indxob + [k];
        }
        assert k + 1 == j * nx + (i + 1);
        i := i + 1;
      }
      assert j * nx + nx == (j + 1) * nx;
      j := j + 1;
    }
  }

  /** Every fixed-network index is a distinct grid point of the ny x nx grid,
      on the strided sub-grid, and the indices ascend. */
  lemma {:induction false} FixedIndicesValid(nx: nat, ny: nat, nskip: nat, ntime: nat)
    requires nx > 0 && nskip > 0
    ensures var idx := Picked(nx, nskip, Offset(nskip, ntime), ny * nx);
      (forall a :: 0 <= a < |idx| ==> (0 <= idx[a] < ny * nx &&
         Strided(idx[a] / nx, Offset(nskip, ntime), nskip) && Strided(idx[a] % nx, Offset(nskip, ntime), nskip))) &&
      (forall a, b :: 0 <= a < b < |idx| ==> idx[a] < idx[b])
  {
    PickedExactly(nx, nskip, Offset(nskip, ntime), ny * nx);
  }

  // ---------------------------------------------------------- model clock

  /** A mismatch between the model clock and an observation time, or an
      observation time the driver reads (obtimes[0], obtimes[1] for the
      interval, obtimes[ntime] in the loop) that the file does not have. */
  datatype ClockError =
    | TimeMismatch(ntime: nat, modelTime: real, obTime: real)
    | ObTimeMissing(index: nat)

  /** The model clock after k forecasts of interval = assim_timesteps * dt from t0. */
  function Clock(t0: real, interval: real, k: nat): real
  {
    if k == 0 then t0 else Clock(t0, interval, k - 1) + interval
  }

  lemma {:induction false} ClockLinear(t0: real, interval: real, k: nat)
    ensures Clock(t0, interval, k) == t0 + (k as real) * interval
  {
    if k > 0 {
      ClockLinear(t0, interval, k - 1);
    }
  }

  /** The cycling loop's clock: the assimilation interval reads obtimes[0]
      and obtimes[1]; the clock starts at obtimes[0]; each cycle first checks
      it against obtimes[ntime], raising the mismatch, and the forecast then
      advances it by interval. Reading past the end of obtimes is the
      IndexError of the source. The analysis itself is not part of this method. */
  method CycleClock(obtimes: seq<real>, nassim: nat, interval: real) returns (res: Result<nat, ClockError>)
    ensures res.Success? <==>
      (|obtimes| >= 2 && nassim <= |obtimes| &&
       forall k :: 0 <= k < nassim ==> obtimes[k] == Clock(obtimes[0], interval, k))
    ensures res.Success? ==> res.value == nassim
    ensures res.Failure? && res.error.ObTimeMissing? ==>
      res.error.index == |obtimes| &&
      (|obtimes| < 2 ||
       (|obtimes| < nassim && forall k :: 0 <= k < |obtimes| ==> obtimes[k] == Clock(obtimes[0], interval, k)))
    ensures res.Failure? && res.error.TimeMismatch? ==>
      var k := res.error.ntime;
      |obtimes| >= 2 && k < nassim && k < |obtimes| &&
      res.error.obTime == obtimes[k] && res.error.modelTime == Clock(obtimes[0], interval, k) &&
      obtimes[k] != Clock(obtimes[0], interval, k) &&
      forall k' :: 0 <= k' < k ==> obtimes[k'] == Clock(obtimes[0], interval, k')
  {
    if |obtimes| < 2 {
      return Failure(ObTimeMissing(|obtimes|));
    }
    var t := obtimes[0];
    var ntime := 0;
    while ntime < nassim
      invariant 0 <= ntime <= nassim && ntime <= |obtimes|
      invariant t == Clock(obtimes[0], interval, ntime)
      invariant forall k :: 0 <= k < ntime ==> obtimes[k] == Clock(obtimes[0], interval, k)
    {
      if ntime == |obtimes| {
        return Failure(ObTimeMissing(ntime));
      }
      if t != obtimes[ntime] {
        return Failure(TimeMismatch(ntime, t, obtimes[ntime]));
      }
      t := t + interval;
      ntime := ntime + 1;
    }
    return Success(nassim);
  }

  // ------------------------------------------------------------- reshape

  /** Row-major ravel of an ny x nx plane. */
  function Ravel(p: Plane<real>, ny: nat, nx: nat): (f: seq<real>)
    ensures |f| == ny * nx
  {
    if nx == 0 then assert ny * nx == 0; []
    else seq(ny * nx, k requires 0 <= k < ny * nx => PAt(p, k / nx, k % nx))
  }

  /** f reshaped to ny x nx. */
  function Unravel(f: seq<real>, ny: nat, nx: nat): (p: Plane<real>)
    ensures IsPlane(p, ny, nx)
  {
    seq(ny, j => seq(nx, i => if 0 <= j * nx + i < |f| then f[j * nx + i] else 0.0))
  }

  lemma {:induction false} UnravelRavel(p: Plane<real>, ny: nat, nx: nat)
    requires IsPlane(p, ny, nx)
    ensures Unravel(Ravel(p, ny, nx), ny, nx) == p
  {
    var q := Unravel(Ravel(p, ny, nx), ny, nx);
    forall j, i | 0 <= j < ny && 0 <= i < nx ensures q[j][i] == p[j][i] {
      FlatBound(nx, ny, j, i);
      FlatIndex(nx, j, i);
    }
    PlaneEq(q, p, ny, nx);
  }

  lemma {:induction false} RavelUnravel(f: seq<real>, ny: nat, nx: nat)
    requires |f| == ny * nx
    ensures Ravel(Unravel(f, ny, nx), ny, nx) == f
  {
    var g := Ravel(Unravel(f, ny, nx), ny, nx);
    forall k | 0 <= k < |f| ensures g[k] == f[k] {
      FlatSplit(k, ny, nx);
    }
  }

  /** A member (levels x ny x nx) as its state vector (levels x nx*ny). */
  function Flatten(member: Field<real>, ny: nat, nx: nat): (x: Plane<real>)
    ensures IsPlane(x, |member|, ny * nx)
  {
    seq(|member|, l requires 0 <= l < |member| => Ravel(member[l], ny, nx))
  }

  /** A state vector back on the grid. */
  function Unflatten(x: Plane<real>, ny: nat, nx: nat): (member: Field<real>)
    ensures IsField(member, |x|, ny, nx)
  {
    seq(|x|, l requires 0 <= l < |x| => Unravel(x[l], ny, nx))
  }

  /** Reshaping a member to its state vector and back is the identity, ... */
  lemma {:induction false} UnflattenFlatten(member: Field<real>, ny: nat, nx: nat)
    requires IsField(member, |member|, ny, nx)
    ensures Unflatten(Flatten(member, ny, nx), ny, nx) == member
  {
    forall l | 0 <= l < |member| ensures Unflatten(Flatten(member, ny, nx), ny, nx)[l] == member[l] {
      UnravelRavel(member[l], ny, nx);
    }
  }

  /** ... and so is the reshape of a state vector to the grid and back. */
  lemma {:induction false} FlattenUnflatten(x: Plane<real>, ny: nat, nx: nat)
    requires IsPlane(x, |x|, ny * nx)
    ensures Flatten(Unflatten(x, ny, nx), ny, nx) == x
  {
    forall l | 0 <= l < |x| ensures Flatten(Unflatten(x, ny, nx), ny, nx)[l] == x[l] {
      RavelUnravel(x[l], ny, nx);
    }
  }

  /** for nanal: xens[nanal] = pvens[nanal].reshape((2, nx*ny)) */
  method ToStateVectors(pvens: seq<Field<real>>, ny: nat, nx: nat) returns (xens: seq<Plane<real>>)
    ensures |xens| == |pvens| && forall n :: 0 <= n < |pvens| ==> xens[n] == Flatten(pvens[n], ny, nx)
  {
    xens := [];
    var n := 0;
    while n < |pvens|
      invariant 0 <= n <= |pvens|
      invariant |xens| == n && forall m :: 0 <= m < n ==> xens[m] == Flatten(pvens[m], ny, nx)
    {
      xens := xens + [Flatten(pvens[n], ny, nx)];
      n := n + 1;
    }
  }

  /** for nanal: pvens[nanal] = xens[nanal].reshape((2, ny, nx)) */
  method ToGrid(xens: seq<Plane<real>>, ny: nat, nx: nat) returns (pvens: seq<Field<real>>)
    ensures |pvens| == |xens| && forall n :: 0 <= n < |xens| ==> pvens[n] == Unflatten(xens[n], ny, nx)
  {
    pvens := [];
    var n := 0;
    while n < |xens|
      invariant 0 <= n <= |xens|
      invariant |pvens| == n && forall m :: 0 <= m < n ==> pvens[m] == Unflatten(xens[m], ny, nx)
    {
      pvens := pvens + [Unflatten(xens[n], ny, nx)];
      n := n + 1;
    }
  }

  // ---------------------------------------------------- forward operator

  /** scalefact times the flattened level lev of member at each ob index. */
  function Gather(member: Field<real>, lev: nat, indxob: seq<int>, ny: nat, nx: nat, sf: real): (h: seq<real>)
    requires lev < |member|
    requires forall m :: 0 <= m < |indxob| ==> 0 <= indxob[m] < ny * nx
    ensures |h| == |indxob|
  {
    var flat := Ravel(member[lev], ny, nx);
    seq(|indxob|, m requires 0 <= m < |indxob| => sf * flat[indxob[m]])
  }

  /** Each gathered value is scalefact times the member's value at the ob's
      grid point (row indxob[m] / nx, column indxob[m] % nx). */
  lemma {:induction false} GatherAt(member: Field<real>, lev: nat, indxob: seq<int>, ny: nat, nx: nat, sf: real, m: nat)
    requires lev < |member| && IsPlane(member[lev], ny, nx)
    requires forall m :: 0 <= m < |indxob| ==> 0 <= indxob[m] < ny * nx
    requires m < |indxob|
    ensures nx > 0 && 0 <= indxob[m] / nx < ny && 0 <= indxob[m] % nx < nx
    ensures Gather(member, lev, indxob, ny, nx, sf)[m] == sf * member[lev][indxob[m] / nx][indxob[m] % nx]
  {
    FlatSplit(indxob[m], ny, nx);
    var flat := Ravel(member[lev], ny, nx);
    assert flat[indxob[m]] == PAt(member[lev], indxob[m] / nx, indxob[m] % nx);
  }

  /** The levels the driver's loops read for the observation levels levob:
      the loop counter k itself (pv_truth[ntime, k], pvens[nanal, k]). */
  function AsWrittenLevels(levob: seq<nat>): (levels: seq<nat>)
    ensures |levels| == |levob| && forall k :: 0 <= k < |levob| ==> levels[k] == k
  {
    seq(|levob|, k requires 0 <= k < |levob| => k)
  }

  /** The as-written levels are the intended ones exactly when every ob
      level equals its position in levob. */
  lemma {:induction false} AsWrittenIsIntendedIff(levob: seq<nat>)
    ensures AsWrittenLevels(levob) == levob <==> forall k :: 0 <= k < |levob| ==> levob[k] == k
  {
    var w := AsWrittenLevels(levob);
    if forall k :: 0 <= k < |levob| ==> levob[k] == k {
      assert forall k :: 0 <= k < |levob| ==> w[k] == levob[k];
    }
  }

  /** With obs at both boundaries the loop counter and the level agree. */
  lemma {:induction false} AsWrittenAgreesOnBothBoundaries()
    ensures AsWrittenLevels([0, 1]) == [0, 1]
  {
  }

  /** With lid obs only (levob = [1]) the as-written gather reads the surface
      level: for a member whose surface is 0 and lid is 1 at the one grid
      point, the as-written forward operator yields 0 where the lid value 1 is meant. */
  lemma {:induction false} AsWrittenLidObsReadSurface()
    ensures var member: Field<real> := [[[0.0]], [[1.0]]];
      Gather(member, AsWrittenLevels([1])[0], [0], 1, 1, 1.0) == [0.0] &&
      Gather(member, 1, [0], 1, 1, 1.0) == [1.0]
  {
    var member: Field<real> := [[[0.0]], [[1.0]]];
    assert Ravel(member[0], 1, 1) == [0.0];
    assert Ravel(member[1], 1, 1) == [1.0];
  }

  /** hxens[nanal, k, :] = scalefact * pvens[nanal, levob[k]].ravel()[indxob]:
      the ensemble in observation space, each ob level read from the level it
      names. */
  method ForwardOperator(pvens: seq<Field<real>>, levob: seq<nat>, indxob: seq<int>, ny: nat, nx: nat, sf: real)
    returns (hxens: seq<seq<seq<real>>>)
    requires forall n, k :: 0 <= n < |pvens| && 0 <= k < |levob| ==> levob[k] < |pvens[n]|
    requires forall m :: 0 <= m < |indxob| ==> 0 <= indxob[m] < ny * nx
    ensures |hxens| == |pvens|
    ensures forall n :: 0 <= n < |pvens| ==> (|hxens[n]| == |levob| &&
      forall k :: 0 <= k < |levob| ==> hxens[n][k] == Gather(pvens[n], levob[k], indxob, ny, nx, sf))
  {
    hxens := [];
    var nanal := 0;
    while nanal < |pvens|
      invariant 0 <= nanal <= |pvens| && |hxens| == nanal
      invariant forall n :: 0 <= n < nanal ==> (|hxens[n]| == |levob| &&
        forall k :: 0 <= k < |levob| ==> hxens[n][k] == Gather(pvens[n], levob[k], indxob, ny, nx, sf))
    {
      var row := GatherLevels(pvens[nanal], levob, indxob, ny, nx, sf);
      hxens := hxens + [row];
      nanal := nanal + 1;
    }
  }

  /** One member's rows of hxens: level levob[k] gathered for each k. */
  method GatherLevels(member: Field<real>, levob: seq<nat>, indxob: seq<int>, ny: nat, nx: nat, sf: real)
    returns (row: seq<seq<real>>)
    requires forall k :: 0 <= k < |levob| ==> levob[k] < |member|
    requires forall m :: 0 <= m < |indxob| ==> 0 <= indxob[m] < ny * nx
    ensures |row| == |levob|
    ensures forall k :: 0 <= k < |levob| ==> row[k] == Gather(member, levob[k], indxob, ny, nx, sf)
  {
    row := [];
    var k := 0;
    while k < |levob|
      invariant 0 <= k <= |levob| && |row| == k
      invariant forall k' :: 0 <= k' < k ==> row[k'] == Gather(member, levob[k'], indxob, ny, nx, sf)
    {
      row := row + [Gather(member, levob[k], indxob, ny, nx, sf)];
      k := k + 1;
    }
  }

  /** pvob[k] = scalefact * pv_truth[ntime, levob[k]].ravel()[indxob] + ob errors. */
  function Observations(truth: Field<real>, levob: seq<nat>, indxob: seq<int>, ny: nat, nx: nat, sf: real,
                        oberr: seq<seq<real>>): (pvob: seq<seq<real>>)
    requires forall k :: 0 <= k < |levob| ==> levob[k] < |truth|
    requires forall m :: 0 <= m < |indxob| ==> 0 <= indxob[m] < ny * nx
    requires |oberr| == |levob| && forall k :: 0 <= k < |levob| ==> |oberr[k]| == |indxob|
    ensures |pvob| == |levob| && forall k :: 0 <= k < |levob| ==> |pvob[k]| == |indxob|
  {
    seq(|levob|, k requires 0 <= k < |levob| =>
      var h := Gather(truth, levob[k], indxob, ny, nx, sf);
      seq(|indxob|, m requires 0 <= m < |indxob| => h[m] + oberr[k][m]))
  }

  /** Observation m at ob level k is scalefact times the truth on level
      levob[k] at the grid point that indxob[m] names (a point of the grid),
      plus its error. */
  lemma {:induction false} ObservationAt(truth: Field<real>, levob: seq<nat>, indxob: seq<int>, ny: nat, nx: nat, sf: real,
                                         oberr: seq<seq<real>>, k: nat, m: nat)
    requires forall k :: 0 <= k < |levob| ==> levob[k] < |truth|
    requires forall m :: 0 <= m < |indxob| ==> 0 <= indxob[m] < ny * nx
    requires |oberr| == |levob| && forall k :: 0 <= k < |levob| ==> |oberr[k]| == |indxob|
    requires k < |levob| && m < |indxob| && IsPlane(truth[levob[k]], ny, nx)
    ensures nx > 0 && 0 <= indxob[m] / nx < ny && 0 <= indxob[m] % nx < nx
    ensures Observations(truth, levob, indxob, ny, nx, sf, oberr)[k][m] ==
            sf * PAt(truth[levob[k]], indxob[m] / nx, indxob[m] % nx) + oberr[k][m]
  {
    GatherAt(truth, levob[k], indxob, ny, nx, sf, m);
    ObservationEntry(truth, levob, indxob, ny, nx, sf, oberr, k, m);
    var row, col := indxob[m] / nx, indxob[m] % nx;
    var t := truth[levob[k]][row][col];
    assert PAt(truth[levob[k]], row, col) == t;
    assert Gather(truth, levob[k], indxob, ny, nx, sf)[m] == sf * t;
  }

  /** Entry m of ob level k is the gathered truth plus its error. */
  lemma {:induction false} ObservationEntry(truth: Field<real>, levob: seq<nat>, indxob: seq<int>, ny: nat, nx: nat, sf: real,
                                            oberr: seq<seq<real>>, k: nat, m: nat)
    requires forall k :: 0 <= k < |levob| ==> levob[k] < |truth|
    requires forall m :: 0 <= m < |indxob| ==> 0 <= indxob[m] < ny * nx
    requires |oberr| == |levob| && forall k :: 0 <= k < |levob| ==> |oberr[k]| == |indxob|
    requires k < |levob| && m < |indxob|
    ensures Observations(truth, levob, indxob, ny, nx, sf, oberr)[k][m] ==
            Gather(truth, levob[k], indxob, ny, nx, sf)[m] + oberr[k][m]
  {
  }

  // ------------------------------------------------------ ensemble spread

  /** The ensemble mean at one location. */
  function Mean(xs: seq<real>): real
    requires |xs| > 0
  {
    Sum(xs) / (|xs| as real)
  }

  function Sq(e: real): (s: real)
    ensures s >= 0.0
  {
    e * e
  }

  /** The squared deviations from m. */
  function SqDevFrom(xs: seq<real>, m: real): (d: seq<real>)
    ensures |d| == |xs| && forall n :: 0 <= n < |xs| ==> d[n] >= 0.0
  {
    seq(|xs|, n requires 0 <= n < |xs| => Sq(xs[n] - m))
  }

  /** The squared deviations from the mean. */
  function SqDev(xs: seq<real>): (d: seq<real>)
    requires |xs| > 0
    ensures |d| == |xs| && forall n :: 0 <= n < |xs| ==> d[n] >= 0.0
  {
    SqDevFrom(xs, Mean(xs))
  }

  /** The ensemble variance at one location, with the n - 1 denominator. */
  function Spread(xs: seq<real>): real
    requires |xs| >= 2
  {
    SpreadAbout(xs, Mean(xs))
  }

  /** The sum of squared deviations from m over n - 1. */
  function SpreadAbout(xs: seq<real>, m: real): real
    requires |xs| >= 2
  {
    Sum(SqDevFrom(xs, m)) / ((|xs| - 1) as real)
  }

  /** The spread is nonnegative, and zero when every member equals the mean. */
  lemma {:induction false} SpreadNonnegative(xs: seq<real>)
    requires |xs| >= 2
    ensures Spread(xs) >= 0.0
    ensures (forall n :: 0 <= n < |xs| ==> xs[n] == Mean(xs)) ==> Spread(xs) == 0.0
  {
    var d := SqDev(xs);
    SumNonnegative(d);
    var m := Mean(xs);
    if forall n :: 0 <= n < |xs| ==> xs[n] == m {
      forall k | 0 <= k < |d| ensures d[k] == Affine(d, 0.0, 0.0)[k] {
        assert xs[k] - m == 0.0;
        assert d[k] == Sq(0.0) == 0.0;
      }
      assert d == Affine(d, 0.0, 0.0);
      SumAffine(d, 0.0, 0.0);
    }
  }



  /** The values at one grid location of every member. */
  function Column(ens: seq<Field<real>>, l: int, j: int, i: int): (xs: seq<real>)
    ensures |xs| == |ens|
  {
    seq(|ens|, n requires 0 <= n < |ens| => RAt(ens[n], l, j, i))
  }

  /** The spread field fsprd / asprd: the spread at every location. */
  function SpreadField(ens: seq<Field<real>>, levels: nat, ny: nat, nx: nat): (sprd: Field<real>)
    requires |ens| >= 2
    ensures IsField(sprd, levels, ny, nx)
    ensures forall l, j, i :: 0 <= l < levels && 0 <= j < ny && 0 <= i < nx ==> sprd[l][j][i] >= 0.0
  {
    var f := seq(levels, l => seq(ny, j => seq(nx, i => Spread(Column(ens, l, j, i)))));
    assert forall l, j, i :: 0 <= l < levels && 0 <= j < ny && 0 <= i < nx ==> f[l][j][i] >= 0.0 by {
      forall l, j, i | 0 <= l < levels && 0 <= j < ny && 0 <= i < nx ensures f[l][j][i] >= 0.0 {
        SpreadNonnegative(Column(ens, l, j, i));
      }
    }
    f
  }

  // ------------------------------------------------- posterior inflation

  /** pvprime * factor + mean at one location. */
  function Inflate(xs: seq<real>, factor: real): (ys: seq<real>)
    requires |xs| > 0
    ensures |ys| == |xs|
  {
    var m := Mean(xs);
    seq(|xs|, n requires 0 <= n < |xs| => (xs[n] - m) * factor + m)
  }

  lemma {:induction false} MulDiv(s: real, n: real)
    requires n != 0.0
    ensures n * (s / n) == s && (s / n) * n == s
  {
  }

  lemma {:induction false} AffineIdentity(x: real, m: real, f: real)
    ensures (x - m) * f + m == f * x + (m - f * m)
  {
  }

  /** The mean of a * xs + b is a * mean(xs) + b. */
  lemma {:induction false} MeanAffine(xs: seq<real>, a: real, b: real)
    requires |xs| > 0
    ensures Mean(Affine(xs, a, b)) == a * Mean(xs) + b
  {
    SumAffine(xs, a, b);
    DivAffine(Sum(Affine(xs, a, b)), Sum(xs), a, b, |xs| as real);
  }

  lemma {:induction false} DivAffine(t: real, s: real, a: real, b: real, n: real)
    requires n != 0.0 && t == a * s + n * b
    ensures t / n == a * (s / n) + b
  {
  }

  lemma {:induction false} SquareScale(u: real, v: real, f: real)
    requires u == v * f
    ensures Sq(u) == f * f * Sq(v) + 0.0
  {
  }

  lemma {:induction false} InflateAffine(xs: seq<real>, factor: real)
    requires |xs| > 0
    ensures Inflate(xs, factor) == Affine(xs, factor, Mean(xs) - factor * Mean(xs))
  {
    var m := Mean(xs);
    forall k | 0 <= k < |xs| ensures Inflate(xs, factor)[k] == Affine(xs, factor, m - factor * m)[k] {
      AffineIdentity(xs[k], m, factor);
    }
    assert m - factor * m == Mean(xs) - factor * Mean(xs);
  }

  /** Inflation keeps the ensemble mean... */
  lemma {:induction false} InflateMean(xs: seq<real>, factor: real)
    requires |xs| > 0
    ensures Mean(Inflate(xs, factor)) == Mean(xs)
  {
    var m := Mean(xs);
    var ys, zs := Inflate(xs, factor), Affine(xs, factor, m - factor * m);
    InflateAffine(xs, factor);
    assert ys == Affine(xs, factor, Mean(xs) - factor * Mean(xs));
    assert m - factor * m == Mean(xs) - factor * Mean(xs);
    assert ys == zs;
    MeanAffine(xs, factor, m - factor * m);
    assert Mean(zs) == factor * m + (m - factor * m);
    AffineFixes(factor, m);
  }

  lemma {:induction false} AffineFixes(f: real, m: real)
    ensures f * m + (m - f * m) == m
  {
  }

  /** Deviations scaled by f have their squares scaled by f^2. */
  lemma {:induction false} ScaledDeviations(xs: seq<real>, ys: seq<real>, m: real, f: real)
    requires |ys| == |xs| && forall k :: 0 <= k < |xs| ==> ys[k] - m == (xs[k] - m) * f
    ensures SqDevFrom(ys, m) == Affine(SqDevFrom(xs, m), f * f, 0.0)
  {
    var a, b := SqDevFrom(ys, m), SqDevFrom(xs, m);
    forall k | 0 <= k < |xs| ensures a[k] == Affine(b, f * f, 0.0)[k] {
      SquareScale(ys[k] - m, xs[k] - m, f);
    }
  }

  /** The inflated squared deviations (about the mean, which inflation keeps)
      are factor^2 times the original ones. */
  lemma {:induction false} InflateDeviations(xs: seq<real>, factor: real)
    requires |xs| > 0
    ensures Mean(Inflate(xs, factor)) == Mean(xs)
    ensures SqDevFrom(Inflate(xs, factor), Mean(xs)) == Affine(SqDevFrom(xs, Mean(xs)), factor * factor, 0.0)
  {
    var m := Mean(xs);
    var ys := Inflate(xs, factor);
    InflateMean(xs, factor);
    forall k | 0 <= k < |xs| ensures ys[k] - m == (xs[k] - m) * factor {
    }
    ScaledDeviations(xs, ys, m, factor);
  }

  lemma {:induction false} ScaledSum(d: seq<real>, e: seq<real>, c: real)
    requires e == Affine(d, c, 0.0)
    ensures Sum(e) == c * Sum(d)
  {
    SumAffine(d, c, 0.0);
  }

  lemma {:induction false} QuotientScale(a: real, b: real, c: real, den: real)
    requires den != 0.0 && a == c * b
    ensures a / den == c * (b / den)
  {
  }

  /** Squared deviations about m scaled by c give a spread about m scaled by c. */
  lemma {:induction false} SpreadAboutScaled(xs: seq<real>, ys: seq<real>, m: real, c: real)
    requires |xs| >= 2 && |ys| == |xs|
    requires SqDevFrom(ys, m) == Affine(SqDevFrom(xs, m), c, 0.0)
    ensures SpreadAbout(ys, m) == c * SpreadAbout(xs, m)
  {
    var d, e := SqDevFrom(xs, m), SqDevFrom(ys, m);
    ScaledSum(d, e, c);
    QuotientScale(Sum(e), Sum(d), c, (|xs| - 1) as real);
  }

  /** ... and multiplies the spread by factor^2. */
  lemma {:induction false} InflateSpread(xs: seq<real>, factor: real)
    requires |xs| >= 2
    ensures Spread(Inflate(xs, factor)) == factor * factor * Spread(xs)
  {
    var m, ys := Mean(xs), Inflate(xs, factor);
    InflateDeviations(xs, factor);
    SpreadAboutScaled(xs, ys, m, factor * factor);
    assert Spread(ys) == SpreadAbout(ys, m);
  }

  /** Relaxation to prior spread: 1 + c1 * (sqrt(fsprd) - sqrt(asprd)) / sqrt(asprd);
      no factor where the posterior spread's root is zero (the source divides by it). */
  function RtpsFactor(c1: real, fsprd: real, asprd: real, sqrt: real -> real): (f: Option<real>)
    ensures f.Some? <==> sqrt(asprd) != 0.0
    ensures f.Some? ==> f.value * sqrt(asprd) == (1.0 - c1) * sqrt(asprd) + c1 * sqrt(fsprd)
  {
    var sa, sf := sqrt(asprd), sqrt(fsprd);
    if sa == 0.0 then None
    else
      var r := 1.0 + c1 * (sf - sa) / sa;
      assert r * sa == sa + c1 * (sf - sa);
      Some(r)
  }

  /** RTPS with c1 = 0 leaves the posterior unchanged wherever it has spread. */
  lemma {:induction false} RtpsZeroIsIdentity(xs: seq<real>, fsprd: real, asprd: real, sqrt: real -> real)
    requires |xs| > 0 && asprd > 0.0 && sqrt(asprd) * sqrt(asprd) == asprd
    ensures RtpsFactor(0.0, fsprd, asprd, sqrt) == Some(1.0)
    ensures Inflate(xs, 1.0) == xs
  {
    assert sqrt(asprd) != 0.0;
  }

  /** Hodyss et al. inflation: sqrt((c1*asprd + (asprd/fsprd)^2 *
      (fsprd/nanals + c2 * 2*inc^2/(nanals-1))) / asprd); no factor where a
      spread is zero. */
  function HodyssFactor(c1: real, c2: real, fsprd: real, asprd: real, inc: real, nanals: nat,
                        sqrt: real -> real): (f: Option<real>)
    requires nanals >= 2
    ensures f.Some? <==> fsprd != 0.0 && asprd != 0.0
  {
    if fsprd == 0.0 || asprd == 0.0 then None
    else Some(sqrt(HodyssTarget(c1, c2, fsprd, asprd, inc, nanals) / asprd))
  }

  /** The posterior spread Hodyss et al. inflation aims at. */
  function HodyssTarget(c1: real, c2: real, fsprd: real, asprd: real, inc: real, nanals: nat): real
    requires nanals >= 2 && fsprd != 0.0
  {
    c1 * asprd + (asprd / fsprd) * (asprd / fsprd) * (fsprd / (nanals as real) + c2 * (2.0 * inc * inc / ((nanals - 1) as real)))
  }

  /** Inflating by the Hodyss factor gives the posterior that spread, when
      sqrt is a square root at the target ratio. */
  lemma {:induction false} HodyssReachesTarget(xs: seq<real>, c1: real, c2: real, fsprd: real, inc: real, sqrt: real -> real)
    requires |xs| >= 2 && fsprd != 0.0 && Spread(xs) != 0.0
    requires var z := HodyssTarget(c1, c2, fsprd, Spread(xs), inc, |xs|) / Spread(xs); sqrt(z) * sqrt(z) == z
    ensures var f := HodyssFactor(c1, c2, fsprd, Spread(xs), inc, |xs|, sqrt);
      f.Some? && Spread(Inflate(xs, f.value)) == HodyssTarget(c1, c2, fsprd, Spread(xs), inc, |xs|)
  {
    var a := Spread(xs);
    var t := HodyssTarget(c1, c2, fsprd, a, inc, |xs|);
    var z := t / a;
    InflateSpread(xs, sqrt(z));
    MulDiv(t, a);
    assert sqrt(z) * sqrt(z) * a == t;
  }

  /** Inflating by the RTPS factor makes the posterior standard deviation
      (1-c1)*sd_a + c1*sd_f, when sqrt is a square root at the posterior spread. */
  lemma {:induction false} RtpsReachesTarget(xs: seq<real>, c1: real, fsprd: real, sqrt: real -> real)
    requires |xs| >= 2 && Spread(xs) != 0.0 && sqrt(Spread(xs)) * sqrt(Spread(xs)) == Spread(xs)
    ensures var f := RtpsFactor(c1, fsprd, Spread(xs), sqrt);
      var sd := (1.0 - c1) * sqrt(Spread(xs)) + c1 * sqrt(fsprd);
      f.Some? && Spread(Inflate(xs, f.value)) == sd * sd
  {
    var sa := sqrt(Spread(xs));
    assert sa != 0.0;
    var f := RtpsFactor(c1, fsprd, Spread(xs), sqrt).value;
    var sd := (1.0 - c1) * sa + c1 * sqrt(fsprd);
    assert f * sa == sd;
    InflateToDeviation(xs, f, sa, sd);
  }

  /** When s is the root of the spread, inflating by f makes the posterior
      standard deviation f * s. */
  lemma {:induction false} InflateToDeviation(xs: seq<real>, f: real, s: real, sd: real)
    requires |xs| >= 2 && s * s == Spread(xs) && f * s == sd
    ensures Spread(Inflate(xs, f)) == sd * sd
  {
    InflateSpread(xs, f);
    SquareOfTarget(Spread(Inflate(xs, f)), f, s, Spread(xs), sd);
  }

  /** A spread f^2 * s^2 is the square of the standard deviation f * s. */
  lemma {:induction false} SquareOfTarget(sp: real, f: real, s: real, a: real, sd: real)
    requires sp == f * f * a && s * s == a && f * s == sd
    ensures sp == sd * sd
  {
    assert sd * sd == f * f * (s * s);
  }

  /** The inflation factor: RTPS when covinflate2 < 0, Hodyss et al. otherwise. */
  function InflationFactor(c1: real, c2: real, fsprd: real, asprd: real, inc: real, nanals: nat,
                           sqrt: real -> real): (f: Option<real>)
    requires nanals >= 2
    ensures c2 < 0.0 ==> f == RtpsFactor(c1, fsprd, asprd, sqrt)
    ensures c2 >= 0.0 ==> f == HodyssFactor(c1, c2, fsprd, asprd, inc, nanals, sqrt)
  {
    if c2 < 0.0 then RtpsFactor(c1, fsprd, asprd, sqrt) else HodyssFactor(c1, c2, fsprd, asprd, inc, nanals, sqrt)
  }

  /** The posterior spread the configured inflation reaches: the square of the
      RTPS standard deviation when covinflate2 < 0, the Hodyss et al. target otherwise. */
  lemma {:induction false} InflationReachesTarget(xs: seq<real>, c1: real, c2: real, fsprd: real, inc: real,
                                                  sqrt: real -> real)
    requires |xs| >= 2 && Spread(xs) != 0.0
    requires c2 < 0.0 ==> sqrt(Spread(xs)) * sqrt(Spread(xs)) == Spread(xs)
    requires c2 >= 0.0 ==> fsprd != 0.0
    requires c2 >= 0.0 ==> (var z := HodyssTarget(c1, c2, fsprd, Spread(xs), inc, |xs|) / Spread(xs);
                            sqrt(z) * sqrt(z) == z)
    ensures var f := InflationFactor(c1, c2, fsprd, Spread(xs), inc, |xs|, sqrt);
      f.Some? &&
      (c2 < 0.0 ==> var sd := (1.0 - c1) * sqrt(Spread(xs)) + c1 * sqrt(fsprd);
                    Spread(Inflate(xs, f.value)) == sd * sd) &&
      (c2 >= 0.0 ==> Spread(Inflate(xs, f.value)) == HodyssTarget(c1, c2, fsprd, Spread(xs), inc, |xs|))
  {
    if c2 < 0.0 {
      RtpsReachesTarget(xs, c1, fsprd, sqrt);
    } else {
      HodyssReachesTarget(xs, c1, c2, fsprd, inc, sqrt);
    }
  }

  /** pvens = (pvens - mean) * inflation_factor + mean over the whole ensemble. */
  function Inflated(ens: seq<Field<real>>, factor: Field<real>, levels: nat, ny: nat, nx: nat): (post: seq<Field<real>>)
    requires |ens| > 0
    ensures |post| == |ens| && forall n :: 0 <= n < |ens| ==> IsField(post[n], levels, ny, nx)
  {
    seq(|ens|, n requires 0 <= n < |ens| => seq(levels, l => seq(ny, j => seq(nx, i =>
      (RAt(ens[n], l, j, i) - Mean(Column(ens, l, j, i))) * RAt(factor, l, j, i) + Mean(Column(ens, l, j, i))))))
  }

  /** Posterior inflation scales every member's perturbation at a location by
      that location's factor, so it keeps the ensemble mean there and
      multiplies the spread by the factor squared. */
  lemma {:induction false} InflatedPreservesMean(ens: seq<Field<real>>, factor: Field<real>, levels: nat, ny: nat, nx: nat,
                              l: nat, j: nat, i: nat)
    requires |ens| > 0 && l < levels && j < ny && i < nx
    ensures Mean(Column(Inflated(ens, factor, levels, ny, nx), l, j, i)) == Mean(Column(ens, l, j, i))
    ensures |ens| >= 2 ==> (Spread(Column(Inflated(ens, factor, levels, ny, nx), l, j, i)) ==
      RAt(factor, l, j, i) * RAt(factor, l, j, i) * Spread(Column(ens, l, j, i)))
  {
    var post := Inflated(ens, factor, levels, ny, nx);
    var c := Column(ens, l, j, i);
    var f := RAt(factor, l, j, i);
    ColumnOfInflated(ens, factor, levels, ny, nx, l, j, i);
    InflateMean(c, f);
    if |ens| >= 2 {
      InflateSpread(c, f);
    }
  }

  lemma {:induction false} ColumnOfInflated(ens: seq<Field<real>>, factor: Field<real>, levels: nat, ny: nat, nx: nat,
                         l: nat, j: nat, i: nat)
    requires |ens| > 0 && l < levels && j < ny && i < nx
    ensures Column(Inflated(ens, factor, levels, ny, nx), l, j, i) == Inflate(Column(ens, l, j, i), RAt(factor, l, j, i))
  {
    var post := Inflated(ens, factor, levels, ny, nx);
    var c := Column(ens, l, j, i);
    var f := RAt(factor, l, j, i);
    forall n | 0 <= n < |ens| ensures Column(post, l, j, i)[n] == Inflate(c, f)[n] {
      assert RAt(post[n], l, j, i) == post[n][l][j][i];
    }
  }

  // ---------------------------------------------------- direct insertion

  /** x - mean(x) + target at one location. */
  function Recenter(xs: seq<real>, target: real): (ys: seq<real>)
    requires |xs| > 0
    ensures |ys| == |xs|
  {
    var m := Mean(xs);
    seq(|xs|, n requires 0 <= n < |xs| => xs[n] - m + target)
  }

  lemma {:induction false} RecenterMean(xs: seq<real>, target: real)
    requires |xs| > 0
    ensures Mean(Recenter(xs, target)) == target
  {
    var m := Mean(xs);
    var ys := Recenter(xs, target);
    forall k | 0 <= k < |xs| ensures ys[k] == Affine(xs, 1.0, target - m)[k] { }
    assert ys == Affine(xs, 1.0, target - m);
    MeanAffine(xs, 1.0, target - m);
  }

  /** The values at one state-vector location of every member. */
  function ColumnV(xens: seq<Plane<real>>, l: int, k: int): (xs: seq<real>)
    ensures |xs| == |xens|
  {
    seq(|xens|, n requires 0 <= n < |xens| => PAt(xens[n], l, k))
  }

  /** truth + noise / scalefact on the truth's state-vector shape. */
  function Perturbed(truth: Plane<real>, noise: Plane<real>, sf: real): (x: Plane<real>)
    requires sf != 0.0
    ensures |x| == |truth| && forall l :: 0 <= l < |truth| ==> |x[l]| == |truth[l]|
  {
    seq(|truth|, l requires 0 <= l < |truth| => seq(|truth[l]|, k requires 0 <= k < |truth[l]| =>
      truth[l][k] + PAt(noise, l, k) / sf))
  }

  /** The direct-insertion update: every member is the truth plus its own
      noise, then the ensemble is recentred on the truth plus one shared
      noise field. The driver takes this branch only when every grid point is
      observed on both levels (nobs == nx*ny and levob == [0, 1]); that
      condition is the caller's and is not a precondition here. */
  method DirectInsertion(truth: Plane<real>, memberNoise: seq<Plane<real>>, shared: Plane<real>, sf: real)
    returns (xens: seq<Plane<real>>)
    requires sf != 0.0 && |memberNoise| > 0
    ensures |xens| == |memberNoise|
    ensures forall l, k :: 0 <= l < |truth| && 0 <= k < |truth[l]| ==>
      Mean(ColumnV(xens, l, k)) == truth[l][k] + PAt(shared, l, k) / sf
    ensures forall n :: 0 <= n < |xens| ==>
      |xens[n]| == |truth| && forall l :: 0 <= l < |truth| ==> |xens[n][l]| == |truth[l]|
    ensures forall n, l, k :: 0 <= n < |xens| && 0 <= l < |truth| && 0 <= k < |truth[l]| ==>
      xens[n][l][k] - Mean(ColumnV(xens, l, k)) == (PAt(memberNoise[n], l, k) - Mean(ColumnV(memberNoise, l, k))) / sf
  {
    var members: seq<Plane<real>> := [];
    var n := 0;
    while n < |memberNoise|
      invariant 0 <= n <= |memberNoise| && |members| == n
      invariant forall m :: 0 <= m < n ==> members[m] == Perturbed(truth, memberNoise[m], sf)
    {
      members := members + [Perturbed(truth, memberNoise[n], sf)];
      n := n + 1;
    }
    var target := Perturbed(truth, shared, sf);
    xens := Recentred(members, target);
    forall l, k | 0 <= l < |truth| && 0 <= k < |truth[l]|
      ensures Mean(ColumnV(xens, l, k)) == truth[l][k] + PAt(shared, l, k) / sf
    {
      RecentredColumn(members, target, l, k);
      RecenterMean(ColumnV(members, l, k), target[l][k]);
    }
    forall n, l, k | 0 <= n < |xens| && 0 <= l < |truth| && 0 <= k < |truth[l]|
      ensures xens[n][l][k] - Mean(ColumnV(xens, l, k)) == (PAt(memberNoise[n], l, k) - Mean(ColumnV(memberNoise, l, k))) / sf
    {
      InsertedDeviation(truth, memberNoise, members, target, sf, n, l, k);
    }
  }

  /** After direct insertion a member's deviation from the ensemble mean at
      a location is its own noise's deviation from the mean noise, over
      scalefact: the spread comes from the member noises alone. */
  lemma {:induction false} InsertedDeviation(truth: Plane<real>, memberNoise: seq<Plane<real>>, members: seq<Plane<real>>,
                                             target: Plane<real>, sf: real, n: nat, l: nat, k: nat)
    requires sf != 0.0 && |members| == |memberNoise| && n < |members|
    requires forall m :: 0 <= m < |members| ==> members[m] == Perturbed(truth, memberNoise[m], sf)
    requires l < |truth| && k < |truth[l]| && |target| == |truth| && |target[l]| == |truth[l]|
    ensures var ys := Recentred(members, target);
      ys[n][l][k] - Mean(ColumnV(ys, l, k)) == (PAt(memberNoise[n], l, k) - Mean(ColumnV(memberNoise, l, k))) / sf
  {
    var xs, ns, t := ColumnV(members, l, k), ColumnV(memberNoise, l, k), truth[l][k];
    forall m | 0 <= m < |members| ensures xs[m] == Affine(ns, 1.0 / sf, t)[m] {
      assert PAt(members[m], l, k) == members[m][l][k] == t + PAt(memberNoise[m], l, k) / sf;
      DivIsScale(PAt(memberNoise[m], l, k), sf);
    }
    assert xs == Affine(ns, 1.0 / sf, t);
    MeanAffine(ns, 1.0 / sf, t);
    var ys := Recentred(members, target);
    RecentredColumn(members, target, l, k);
    RecenterMean(xs, target[l][k]);
    assert ys[n][l][k] == PAt(members[n], l, k) - Mean(xs) + target[l][k];
    assert PAt(members[n], l, k) == t + PAt(memberNoise[n], l, k) / sf;
    DeviationOverScale(PAt(memberNoise[n], l, k), Mean(ns), sf, t);
  }

  lemma DivIsScale(x: real, sf: real)
    requires sf != 0.0
    ensures x / sf == 1.0 / sf * x
  {
  }

  /** (t + x/sf) - ((1/sf)*m + t) is (x - m)/sf. */
  lemma DeviationOverScale(x: real, m: real, sf: real, t: real)
    requires sf != 0.0
    ensures (t + x / sf) - (1.0 / sf * m + t) == (x - m) / sf
  {
    DivIsScale(x, sf);
    DivIsScale(x - m, sf);
  }

  /** xens - xens.mean(axis=0) + target. */
  function Recentred(xens: seq<Plane<real>>, target: Plane<real>): (ys: seq<Plane<real>>)
    requires |xens| > 0
    ensures |ys| == |xens|
    ensures forall n :: 0 <= n < |ys| ==>
      |ys[n]| == |target| && forall l :: 0 <= l < |target| ==> |ys[n][l]| == |target[l]|
  {
    seq(|xens|, n requires 0 <= n < |xens| => seq(|target|, l requires 0 <= l < |target| =>
      seq(|target[l]|, k requires 0 <= k < |target[l]| => PAt(xens[n], l, k) - Mean(ColumnV(xens, l, k)) + target[l][k])))
  }

  lemma {:induction false} RecentredColumn(xens: seq<Plane<real>>, target: Plane<real>, l: nat, k: nat)
    requires |xens| > 0 && l < |target| && k < |target[l]|
    ensures ColumnV(Recentred(xens, target), l, k) == Recenter(ColumnV(xens, l, k), target[l][k])
  {
    var ys := Recentred(xens, target);
    forall n | 0 <= n < |xens| ensures ColumnV(ys, l, k)[n] == Recenter(ColumnV(xens, l, k), target[l][k])[n] {
      assert PAt(ys[n], l, k) == ys[n][l][k];
    }
  }
}
