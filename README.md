# sqgturb in Dafny

This project models three parts of sqgturb, a doubly periodic surface
quasi-geostrophic (SQG) turbulence model with an ensemble Kalman filter
driver, and proves properties of those models.

- **`Sqg`** (`sqg.dfy`) models `SQG` and its two stochastic variants.
  `SQGpert` adds perturbation winds computed from randomly shifted,
  high-passed pv. `SQGrandom` adds winds computed from an evolving random
  streamfunction pattern.
  - The model covers the constructor's argument checks and the
    `fftfreq` wavenumbers.
  - It covers the 3/2 zero padding and the 2/3 truncation of
    `specpad`/`spectrunc`, written as in-place array methods.
  - It covers the pv-streamfunction inversion, the tendency (advection,
    thermal relaxation, Ekman damping) and the first-stage redraw of the
    perturbation winds.
  - It covers the fourth-order Runge-Kutta step with its integrating
    factor, and `advance`.
  - The class `SQGModel` carries the fields that `gettend`, `timestep` and
    `advance` update. Each method is proved against the value-level
    functions `Tend`, `Redraw`, `Step` and `Run`.
- **`RandomPatternEig`** (`randompattern_eig.dfy`) models
  `RandomPatternEig`.
  - It covers the doubly periodic distance and the covariance matrix
    built row by row.
  - It covers the choice of the fewest leading eigenvectors that explain a
    fraction `thresh` of the variance, and the scaled eigenvectors.
  - It covers the pattern as a linear combination of those eigenvectors,
    and the AR(1) evolution of the coefficients. `copy` is modelled too.
- **`SqgEnkf`** (`sqg_enkf.dfy`) models the discrete and algebraic logic of
  the cycling driver `sqg_enkf.py`:
  - the observing network setup, in Python 2 integer arithmetic;
  - the fixed strided observation mask and its flat indices;
  - the check of the model clock against the observation times;
  - the reshapes between grid fields and state vectors;
  - the forward operator and the observations;
  - direct insertion;
  - the ensemble spread;
  - RTPS and Hodyss et al. posterior inflation.
- **`Numerics`** (`numerics.dfy`) holds the shared data model:
  - complex numbers, planes and fields as nested sequences;
  - `Option` and `Result`;
  - finite sums and their algebra.

Some operations are not modelled and appear as inputs instead.

- **Function parameters.** The FFTs (`rfft2`/`irfft2`), `sqrt`, the
  Matérn kernel `_matern`, the bilinear `ndimage.shift` and the eigensolver
  `eigh` are function parameters, or their results are inputs.
  - Properties are proved for all such functions.
  - Where a property needs something of them, it is a `requires`. For
    example, `sqrt(z)*sqrt(z) == z`.
- **Random draws.** Every random draw is an input. Examples are the
  normal draws of the shift AR(1) process, the pattern noise and the
  ensemble noise.
- **Coefficient arrays.** The per-wavenumber arrays that the constructor
  computes with `tanh`, `sinh` and `exp` are an input record
  (`Sqg.Coefficients`).

All arithmetic is on exact reals and unbounded integers.

## Model

| member | source | states |
|---|---|---|
| Sqg.CheckConfig | sqgturb/sqg.py:26-67 | the argument checks fail exactly when pv is not two-level, the grid size is odd, `dt` or `diff_efold` is missing, the precision is neither `single` nor `double`, the grid is empty (the spacing `L/N` divides by zero), or the domain size `L` is zero (the grid coordinates' step is zero); each error is the first failing check in the constructor's order; success yields single precision exactly for `single` |
| Sqg.CheckModel | sqgturb/sqg.py:212-321 | a model variant's construction fails exactly when the argument checks fail, with their error, or, for the shift variant, when `pert_shift` is negative, which its initial normal draws refuse; otherwise it succeeds with the argument checks' precision |
| Sqg.SQGModel.Create | sqgturb/sqg.py:22-125 | fails exactly when the variant's construction checks fail, with the same error; on success a fresh model in a consistent state with `pvspec = rfft2(pv)`, `t = 0`, `timesteps = 1`, and the pattern object only for the random-pattern variant |
| Sqg.SQGModel.constructor | sqgturb/sqg.py:62-125 | the new model holds the given setup and spectrum, clock `t = 0`, `timesteps = 1`, no saved winds, and the given previous shifts |
| Sqg.FftFreqBijection | sqgturb/sqg.py:92-93 | `n*fftfreq(n)` maps the indices 0..n-1 one to one onto the integers in [-n/2, n/2): nonnegative for the first half, negative for the second |
| Sqg.KsqLsqZeroOnlyAtMean | sqgturb/sqg.py:92-98 | the squared total wavenumber `k^2 + l^2` is nonnegative and vanishes only at the mean (0, 0) wavenumber |
| Sqg.SpecPad | sqgturb/sqg.py:147-157 | the padded array is 2 x 3N/2 x (3N/4+1); its first N/2 rows take the input's first N/2 rows and its last N/2 rows the input's last N/2 rows, scaled by 2.25, in the first N/2 columns; column N/2 of those rows takes the conjugate of the scaled Nyquist column; every other entry is zero |
| Sqg.PadColumns | sqgturb/sqg.py:152-156 | one pair of slice assignments (the first N/2 columns, or the Nyquist column with conjugation) sets exactly those columns of the low and high row bands and changes no other entry |
| Sqg.SpecTrunc | sqgturb/sqg.py:159-164 | the truncated array is 2 x N x (N/2+1); its first and last N/2 rows take the first N/2 columns of the input's first and last N/2 rows unscaled; the Nyquist column is zero |
| Sqg.TruncOfPad | sqgturb/sqg.py:147-164 | truncating a padded spectrum gives 2.25 times the original off the Nyquist column and zero on it: the padding's normalisation factor is not undone |
| Sqg.InvertRoundTrip | sqgturb/sqg.py:127-135 | inverting pv to streamfunction and applying the forward (pv from psi) operator gives back the pv, for every two-level spectrum, when the coefficients satisfy the hyperbolic identity `1/tanh^2 - 1/sinh^2 = 1` |
| Sqg.InvertAtRoundTrip | sqgturb/sqg.py:130-134 | the round trip holds at each wavenumber, the mean (0, 0) included, since the clipped `mu` keeps the coefficients positive there too |
| Sqg.InvertPairRoundTrip | sqgturb/sqg.py:130-134 | the round trip holds for each two-level pair of coefficients |
| Sqg.InvertLinear | sqgturb/sqg.py:127-135 | the inversion is linear: inverting `a*x + b*y` is `a*invert(x) + b*invert(y)` |
| Sqg.InvertLinearAt | sqgturb/sqg.py:130-134 | linearity at one wavenumber |
| Sqg.InvertAtLinear | sqgturb/sqg.py:130-134 | linearity of the per-wavenumber inversion |
| Sqg.InvertPairLinear | sqgturb/sqg.py:130-134 | linearity of the two-level pair formula |
| Sqg.RelaxationAtEquilibrium | sqgturb/sqg.py:189 | with no Jacobian, the equilibrium pv `pvspec_eq` is a fixed point of the relaxation term: the relaxation tendency vanishes there |
| Sqg.DampLevelInverse | sqgturb/sqg.py:191-195 | adding `r*ksqlsq*psi` to a level and then subtracting it again restores the field, every level included |
| Sqg.Assemble | sqgturb/sqg.py:189-195 | each tendency entry is the relaxation term plus the Ekman damping at the surface, minus it at the lid only for the symmetric jet, and nothing when Ekman damping is off |
| Sqg.TendZeroPert | sqgturb/sqg.py:375-448 | a perturbation wind that is zero everywhere gives exactly the tendency and saved winds of the unperturbed model |
| Sqg.TendDealiasedNyquist | sqgturb/sqg.py:431-441 | with dealiasing on, the tendency in the Nyquist column is the thermal relaxation plus the Ekman term alone, whatever the winds, because the 2/3 rule leaves no Jacobian there |
| Sqg.HighPassFactor | sqgturb/sqg.py:409-411 | where the perturbation diffusion factor is 1 (everywhere, when no perturbation diffusion is configured) the high-passed pv is zero; where it is 0 the pv passes unchanged |
| Sqg.Redraw | sqgturb/sqg.py:394-429 | the first stage's redraw changes only the perturbation state. For the shift variant with positive amplitude, the shifts take one AR(1) step `innov*draw + corr*prev` and the winds come from the shifted pv. For the pattern variant, the winds are taken from the current pattern, then the coefficients take one AR(1) step and the pattern is resampled. Without a perturbation, nothing changes |
| Sqg.RK4UpdateConstantIncrement | sqgturb/sqg.py:207 | when all four stage increments are equal to k, the step gives `hyperdiff*(pv + k)`: the weights 1,2,2,1 over 6 sum to one |
| Sqg.Step | sqgturb/sqg.py:450-460 | one time step advances the clock by exactly `dt` |
| Sqg.RunAppend | sqgturb/sqg.py:143-144 | advancing by a sequence of steps and then another is advancing by their concatenation |
| Sqg.RunSnoc | sqgturb/sqg.py:143-144 | advancing by steps a and then one more step is the run over a followed by that step |
| Sqg.RunClock | sqgturb/sqg.py:143-144 | after k steps the clock has advanced by `k*dt` |
| Sqg.RunShiftNoise | sqgturb/sqg.py:395-427 | over any number of steps, the x shift and the y shift each follow their AR(1) recurrence over their own draws, with exactly one update per time step, however many Runge-Kutta stages each step has |
| Sqg.StepShiftNoise | sqgturb/sqg.py:395-397 | one time step updates each of the x and y shifts once, to `innov*draw + corr*prev` with that component's draw |
| Sqg.ZeroAmplitudeIsUnforced | sqgturb/sqg.py:394 | a shift-perturbation model with `pert_amp <= 0` steps exactly as the unperturbed model |
| Sqg.SQGModel.GetTend | sqgturb/sqg.py:375-448 | in the first stage the state is first redrawn; the returned tendency and the saved winds are those of `Tend` with the current perturbation winds; pattern evolution is counted |
| Sqg.SQGModel.RedrawShift | sqgturb/sqg.py:395-427 | the object state becomes the shift-variant redraw of the old state |
| Sqg.SQGModel.RedrawPattern | sqgturb/sqg.py:632-645 | the object state becomes the pattern-variant redraw of the old state, and the pattern object evolves once |
| Sqg.SQGModel.Timestep | sqgturb/sqg.py:450-460 | the new object state is `Step` of the old one, the clock advances by `dt`, the tendency is evaluated four times, the winds are redrawn once when a perturbation is active, and the pattern evolves once per step |
| Sqg.SQGModel.Finish | sqgturb/sqg.py:456-460 | the last three stages combine with the first stage's increment into the Runge-Kutta update, and the clock advances by `dt` |
| Sqg.SQGModel.Stage | sqgturb/sqg.py:456-458 | a non-first stage evaluates the tendency with the winds already drawn |
| Sqg.SQGModel.Advance | sqgturb/sqg.py:137-145 | the spectrum is replaced by `rfft2(pv)` only when pv is given; then `timesteps` steps are run; the result is `irfft2` of the new spectrum |
| Sqg.SQGModel.Steps | sqgturb/sqg.py:143-144 | the object state after the loop is `Run` over the draws, with four tendency calls per step |
| Sqg.SQGModel.Extend | sqgturb/sqg.py:143-144 | one more loop iteration extends the run by one step |
| RandomPatternEig.WrapDelta | sqgturb/randompattern_eig.py:20-23 | the periodic separation of two coordinates lies in [0, period/2] and is zero for equal points |
| RandomPatternEig.CartDistSq | sqgturb/randompattern_eig.py:18-24 | the squared periodic distance is nonnegative and zero between a point and itself |
| RandomPatternEig.CartDistSymmetric | sqgturb/randompattern_eig.py:18-24 | the periodic distance is symmetric |
| RandomPatternEig.Covariance | sqgturb/randompattern_eig.py:39-48 | the covariance matrix is N^2 x N^2, each entry is the kernel at the periodic distance between the two grid points, and the matrix is symmetric |
| RandomPatternEig.CountEigenvectors | sqgturb/randompattern_eig.py:55-60 | the loop ends with neig <= N^2 leading eigenvalues whose variance fraction reaches thresh; no smaller positive count reaches it; neig is 0 exactly when thresh <= 0 |
| RandomPatternEig.SelectEigenvectors | sqgturb/randompattern_eig.py:51-64 | for thresh = 1 every eigenvector is kept, scaled by the square root of the floored eigenvalue; otherwise the neig leading eigenvectors are kept, scaled by `sqrt(eval/frac)` |
| RandomPatternEig.FlooredEvals | sqgturb/randompattern_eig.py:52 | the eigenvalues are floored at `1e-10` |
| RandomPatternEig.ColumnSumLinear | sqgturb/randompattern_eig.py:83-89 | the sampled pattern is linear in the coefficients |
| RandomPatternEig.EvolvedPatternIsAR1 | sqgturb/randompattern_eig.py:92-100 | after evolution the pattern is `innov*sample(noise) + corr*(old pattern)`, the AR(1) step carried over to the pattern |
| RandomPatternEig.EvolvedPatternAt | sqgturb/randompattern_eig.py:92-100 | the AR(1) relation at each pattern entry |
| RandomPatternEig.RandomPatternEig.constructor | sqgturb/randompattern_eig.py:27-71 | the object keeps its parameters, `innov = sqrt(1 - lag1corr^2)`, the eigenvectors selected as above, the seed, coefficients of `nsamples x nevecs` from the initial draw, and the pattern sampled from them |
| RandomPatternEig.RandomPatternEig.Copy | sqgturb/randompattern_eig.py:73-79 | the copy shares every parameter and the eigenvectors, has its own seed, fresh coefficients and pattern; the original is unchanged |
| RandomPatternEig.RandomPatternEig.CopyOf | sqgturb/randompattern_eig.py:73-79 | the copying constructor behind `copy` |
| RandomPatternEig.RandomPatternEig.RandomSample | sqgturb/randompattern_eig.py:81-90 | the sample is an `nsamples x N x N` field |
| RandomPatternEig.RandomPatternEig.Evolve | sqgturb/randompattern_eig.py:92-100 | the coefficients take one AR(1) step and the pattern is resampled from them |
| SqgEnkf.PyMod | enkf/sqg_enkf.py:140 | Python's `%` returns the remainder with the sign of the divisor, paired with floor division |
| SqgEnkf.NegDivMod | enkf/sqg_enkf.py:140-142 | for a negative `nobs`, divisibility by `nobs` and by `-nobs` agree, and the quotient only changes sign |
| SqgEnkf.ObNetwork | enkf/sqg_enkf.py:138-146 | setup fails exactly when `nobs < 0` and `nx` is not a multiple of `-nobs`; a fixed network then has `(nx/(-nobs))^2` points; a nonnegative `nobs` is kept as it is |
| SqgEnkf.NskipRecovered | enkf/sqg_enkf.py:244 | the `nskip` recomputed each cycle from the reset `nobs` is the original `-nobs` |
| SqgEnkf.Offset | enkf/sqg_enkf.py:247-250 | the mask offset is below `nskip` |
| SqgEnkf.FixedMask | enkf/sqg_enkf.py:245-250 | the mask is ny x nx and true exactly at the rows and columns of the strided slice `off::nskip` |
| SqgEnkf.FixedObIndices | enkf/sqg_enkf.py:243-252 | the indices are the flat row-major positions where the mask is true, in ascending order |
| SqgEnkf.PickedExactly | enkf/sqg_enkf.py:251-252 | the chosen indices are strictly increasing, lie on the network, and include every network point |
| SqgEnkf.FixedIndicesValid | enkf/sqg_enkf.py:243-252 | every fixed-network index is a distinct point of the grid, on the strided rows and columns |
| SqgEnkf.FixedNetworkSize | enkf/sqg_enkf.py:142-146 | the mask of any cycle has exactly the number of points `nobs` was reset to |
| SqgEnkf.CountBlocks | enkf/sqg_enkf.py:247-250 | below `q*step + r` (r at most step) the slice `off::step` holds q points, plus one once r passes off |
| SqgEnkf.ClockLinear | enkf/sqg_enkf.py:164-166 | the model clock after k forecasts is `t0 + k*interval` |
| SqgEnkf.CycleClock | enkf/sqg_enkf.py:156-233 | the cycling loop finishes exactly when the file has the two times the interval reads and `nassim` times in all, and every observation time matches the model clock; otherwise it stops at the first mismatch and reports both times, or at the first observation time the file lacks |
| SqgEnkf.UnravelRavel | enkf/sqg_enkf.py:288 | reshaping a raveled plane back to ny x nx restores it |
| SqgEnkf.RavelUnravel | enkf/sqg_enkf.py:288 | raveling a reshaped vector restores it |
| SqgEnkf.UnflattenFlatten | enkf/sqg_enkf.py:309-325 | reshaping a member to its state vector, then back to the grid, is the identity |
| SqgEnkf.FlattenUnflatten | enkf/sqg_enkf.py:309-325 | reshaping a state vector to the grid, then back, is the identity |
| SqgEnkf.ToStateVectors | enkf/sqg_enkf.py:309-310 | every member becomes its flattened state vector |
| SqgEnkf.ToGrid | enkf/sqg_enkf.py:324-325 | every state vector becomes its grid field |
| SqgEnkf.GatherAt | enkf/sqg_enkf.py:288 | each observation index addresses a grid point, row `index / nx` and column `index % nx`; the forward value is `scalefact` times the member's value there |
| SqgEnkf.ForwardOperator | enkf/sqg_enkf.py:285-288 | `hxens[nanal][k]` is the member's level `levob[k]` gathered at every observation index |
| SqgEnkf.GatherLevels | enkf/sqg_enkf.py:286-288 | one member's rows of `hxens`, level `levob[k]` for each k |
| SqgEnkf.AsWrittenIsIntendedIff | enkf/sqg_enkf.py:253-256 | the levels the driver's loops read (the loop index k) equal the observed levels `levob` exactly when every `levob[k]` equals its own position k |
| SqgEnkf.AsWrittenAgreesOnBothBoundaries | enkf/sqg_enkf.py:255 | with observations on both boundaries, the loop index and the level agree |
| SqgEnkf.AsWrittenLidObsReadSurface | enkf/sqg_enkf.py:286-288 | with lid observations only, the as-written gather reads the surface |
| SqgEnkf.ObservationAt | enkf/sqg_enkf.py:253-256 | each observation is `scalefact` times the truth on its level at the grid point its flat index names (a point of the grid), plus its own error |
| SqgEnkf.SpreadNonnegative | enkf/sqg_enkf.py:281 | the ensemble variance is nonnegative, and zero when every member equals the mean |
| SqgEnkf.SpreadField | enkf/sqg_enkf.py:281 | the spread field has the field's shape and is nonnegative everywhere |
| SqgEnkf.InflateMean | enkf/sqg_enkf.py:360-361 | inflation keeps the ensemble mean at each location |
| SqgEnkf.InflateSpread | enkf/sqg_enkf.py:360-361 | inflation multiplies the spread by the square of the factor |
| SqgEnkf.InflateDeviations | enkf/sqg_enkf.py:360-361 | inflation multiplies every squared deviation by the square of the factor |
| SqgEnkf.RtpsFactor | enkf/sqg_enkf.py:348-351 | the RTPS factor is defined exactly when the posterior standard deviation is nonzero, and is the one that makes the posterior standard deviation `(1-c1)*sd_a + c1*sd_f` |
| SqgEnkf.RtpsZeroIsIdentity | enkf/sqg_enkf.py:348-361 | with `covinflate1 = 0`, the factor is 1 and the posterior is unchanged |
| SqgEnkf.HodyssFactor | enkf/sqg_enkf.py:352-359 | the Hodyss et al. factor is defined exactly when both spreads are nonzero |
| SqgEnkf.HodyssReachesTarget | enkf/sqg_enkf.py:352-361 | inflating by the Hodyss et al. factor gives the posterior exactly the spread the formula aims at |
| SqgEnkf.RtpsReachesTarget | enkf/sqg_enkf.py:348-361 | inflating by the RTPS factor gives the posterior the standard deviation `(1-c1)*sd_a + c1*sd_f`, relaxed toward the prior standard deviation |
| SqgEnkf.InflationReachesTarget | enkf/sqg_enkf.py:348-361 | the configured scheme (RTPS when `covinflate2 < 0`, Hodyss et al. otherwise) always yields a factor at a nonzero spread, and inflating by it gives the posterior exactly that scheme's target spread |
| SqgEnkf.InflatedPreservesMean | enkf/sqg_enkf.py:344-361 | at every location the inflated ensemble keeps the mean and has its spread scaled by the square of the local factor |
| SqgEnkf.ColumnOfInflated | enkf/sqg_enkf.py:360-361 | the inflated ensemble at one location is the location's members inflated by the local factor |
| SqgEnkf.RecenterMean | enkf/sqg_enkf.py:317-319 | recentring on a target gives an ensemble whose mean is the target |
| SqgEnkf.RecentredColumn | enkf/sqg_enkf.py:317-319 | recentring acts independently at each state-vector location |
| SqgEnkf.DirectInsertion | enkf/sqg_enkf.py:312-319 | after direct insertion every member has the truth's shape, the ensemble mean at each location is the truth plus the shared noise divided by `scalefact`, and each member's deviation from that mean is its own noise's deviation from the mean noise, divided by `scalefact` |
| SqgEnkf.InsertedDeviation | enkf/sqg_enkf.py:313-319 | perturbing each member by its own noise and recentring leaves each member's deviation from the ensemble mean equal to its noise's deviation from the mean noise over `scalefact`, so the posterior spread comes from the member noises |

## Left out

- The FFTs, `sqrt`, the Matérn kernel, `ndimage.shift` and `eigh` are function parameters or inputs, not computations: numerical libraries.
- The transcendental constructor arrays (`hovermu`, `tanh(mu)`, `sinh(mu)`, the `eps` clipping of `mu`, `hyperdiff`, `pvbar`, `pvspec_eq`) are an input record: floating-point transcendentals.
- Float32 casting for `precision='single'` and every source of rounding are left out; all arithmetic is exact, including the model clock's equality test against the observation times.
- Random number generation is left out. Every normal draw, the seed's generator and `np.random.choice` of the random network are inputs.
- The analysis update `enkf_update`, the `gaspcohn`/`cartdist` localization, the netCDF output, printing, timing, kinetic-energy spectra, the `__main__` demonstration and the `threads` argument are left out: they are outside the modelled core, or they are I/O.
- The numpy `squeeze` in `random_sample` and the broadcasting of a one-sample pattern onto both levels are left out. The pattern is kept `nsamples x N x N`, and the winds of a pattern are a function parameter.
- The driver passes `random_pattern=` to `SQG`, which does not accept it, so the driver is not tied to a forcing variant.
- RandomPatternEig.CountEigenvectors: requires `thresh <= 1`, because for larger thresholds the source's loop never ends. It also requires a nonzero eigenvalue sum, where the source would divide by zero in floating point.
- SqgEnkf.RtpsFactor: a zero posterior spread is modelled as no factor (`None`), where numpy would produce an infinity or NaN.
- SqgEnkf.HodyssFactor: a zero spread is modelled as no factor (`None`), where numpy would produce an infinity or NaN.
- Sqg.SQGModel.Create: requires `tdiab != 0` on success, where the source accepts `tdiab = 0` and its tendency divides by it into a floating-point infinity, which exact reals cannot hold.
- SqgEnkf.SpreadNonnegative: states only that equal members give zero spread, not the converse.
- Sqg.SQGModel.Valid: does not itself include the parameter validity the source's constructor establishes; that validity is carried by `Bound`, which `Create` establishes.

## Findings

| source | as written | input that shows it | evidently intended | confidence | as-written member | corrected member |
|---|---|---|---|---|---|---|
| enkf/sqg_enkf.py:255,288,332 | the observations and the forward operator read level `k`, the index into `levob`, instead of level `levob[k]` | `levob = [1]` (lid observations only) with a member whose surface is 0 and lid is 1: the forward value is 0 where the lid value 1 is meant | read level `levob[k]` | not executed | SqgEnkf.AsWrittenLidObsReadSurface | SqgEnkf.ForwardOperator |
