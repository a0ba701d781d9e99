# Cosmic variance cookbook, modelled in Dafny

`cosmic_var.py` implements the cosmic-variance recipe of Moster et al. (2011,
"A cosmic variance cookbook", section 3.4). It computes the root cosmic variance
of galaxy counts for a survey field, a mean redshift, a redshift bin width and a
stellar-mass bin. This project models the discrete logic around that formula:

- choosing the survey row (sigma_a, sigma_b, beta) from five fixed fields;
- choosing the galaxy-bias row (b0, b1, b2) from a twelve-key table of six bin
  centres and six threshold labels;
- the nearest-centre fallback for a mass that is not a key, with its `+0.001`
  tie-break toward the lower centre;
- the final product `bias * sigma_DM * sqrt(0.2 / delta_z)`;
- for `get_cosmic_variance_array`: snapping each mass onto the .25/.75 grid of
  bin centres, the `'>11.0'` overflow rule, and the loop that fills the output
  array.

Two modules:

- `PyNumeric` (`py_numeric.dfy`) holds Python's `round(x, n)` (round half to
  even), and the float `%` and `//` (floored), in exact real arithmetic.
- `CosmicVar` (`cosmic_var.dfy`) holds the tables, the fallback, the estimate for
  one mass, and the bucketing. The bucketing is defined twice: as a
  specification function (`SnappedMass`, `BucketKey`), and as a method that runs
  the source's own steps (`BucketMass`). `CosmicVarianceArray` fills a fresh
  `array<real>` in a loop, and is proved against the specification function
  `Variances`.

Failures are `Result` values, checked in the order the source evaluates them:

1. An unknown survey. The code prints a message, leaves the survey variables
   unbound, and then fails at line 48. The model returns `SurveyNotRecognised`.
2. A zero denominator at line 48. With Python's `**` this cannot happen:
   sigma_b is positive, and `mean_z**beta` is either non-negative or complex.
   The case exists only because `pow` is a free parameter here.
3. A threshold label that is not a table key. It reaches the `min` at line 79,
   where subtracting a string fails. The model returns `UnorderedMassLabel`.
4. A zero `delta_z` at line 87.

The bucketing's first branch, `round(m - 0.25, 2)`, is taken for every mass
whose `round(m, 1)` is a multiple of 0.5, not only for exact half-integers.
Such a mass is moved a quarter down, including one slightly above the
half-integer H. When H lies between 9.0 and 11.0, it ends at the centre H - 0.25
(`FirstBranchResolvesBelow`). So 10.03, which lies in the half-unit bin centred
at 10.25, is moved to 9.78 and resolves to 9.75 (`MassJustAboveTen`). The second
branch alone would give 10.25 (`HalfUnitBinCentre`). At the ends of the table
the moved mass is not a centre (`FirstBranchAtTableEnds`):

- For H <= 8.5 it moves below 8.75 and falls back to 8.75. For example, 8.5
  moves to 8.25.
- For H >= 11.5 it can exceed 11.25 and become the `'>11.0'` label. For example,
  11.53 moves to 11.28.

The docstring at line 16 asks callers of the single-mass function
`calc_COSMOS_cosmic_variance` to pass masses already on the .25/.75 grid.
`get_cosmic_variance_array` asks nothing of its input (line 100), and it buckets
arbitrary masses. Masses on the grid up to 11.25 come through bucketing
unchanged (`CentresSurviveBucketing`, `SnapFixesOddQuarters`,
`GridMassesUnderBucketing`). Those above 11.25 keep their value when snapped and
then become the `'>11.0'` label (`GridMassesUnderBucketing`, `OverflowRule`).
So 11.75, which the single-mass function would send to the centre 11.25, uses
the `'>11.0'` row in the array function.

## Model

| member | source | states |
|---|---|---|
| PyNumeric.Abs | cosmic_var.py:79 | the absolute value is non-negative and equals x or -x |
| PyNumeric.RoundHalfEven | cosmic_var.py:111-118 | the integer chosen is within 0.5 of y, and is even when y lies exactly half-way |
| PyNumeric.RoundTwoIsNear | cosmic_var.py:114 | `round(x, 2)` moves x by at most 0.005 |
| PyNumeric.RoundOnGrid | cosmic_var.py:118 | `round` leaves a value that already has at most that many decimals unchanged |
| PyNumeric.FloorDiv | cosmic_var.py:117 | `x // d` is the largest whole q with q*d <= x |
| PyNumeric.FloorMod | cosmic_var.py:111-118 | `x % d` for d > 0 lies in [0, d) and satisfies x == (x // d) * d + x % d |
| PyNumeric.RoundIsOnGrid | cosmic_var.py:111-118 | `round(x, n)` has at most n decimals: its product with 10^n is whole |
| PyNumeric.RoundOneIsNear | cosmic_var.py:111 | `round(x, 1)` moves x by at most 0.05 |
| CosmicVar.SurveyFitFor | cosmic_var.py:26-38 | a survey row exists exactly for the five known fields, and every value in it is positive |
| CosmicVar.SurveyRowsAsPublished | cosmic_var.py:26-36 | each of UDF, GOODS, GEMS, EGS and COSMOS selects its published row |
| CosmicVar.BiasTableKeys | cosmic_var.py:53-66 | the bias table's keys are exactly the six centres and the six threshold labels |
| CosmicVar.BiasRowsPositive | cosmic_var.py:54-65 | every row of the bias table has b0 > 0 and b2 > 0 |
| CosmicVar.FirstNearestIndex | cosmic_var.py:79 | the index `min(..., key=...)` returns lies within the keys; which one is stated by the next two rows |
| CosmicVar.FirstNearestIndexIsMinimal | cosmic_var.py:79 | the index found minimises abs(key - m + 0.001), and every earlier key is strictly farther, as `min` picks the first minimum |
| CosmicVar.FirstNearestIndexUnique | cosmic_var.py:79 | any index with those two properties is the one `min` returns |
| CosmicVar.NearestCentreByBoundaries | cosmic_var.py:71-79 | the centre `min` picks equals an independent closed form with boundaries at 9.001, 9.501, 10.001, 10.501 and 11.001 |
| CosmicVar.NearestCentre | cosmic_var.py:71-79 | the fallback centre is the one that closed form gives |
| CosmicVar.FallbackExamples | cosmic_var.py:71-79 | 9.5 falls back to 9.25, masses below 8.75 to 8.75, and masses above 11.25 to 11.25 |
| CosmicVar.ResolveBiasKey | cosmic_var.py:68-81 | a table key is used as is; a numeric mass that is not a key resolves to the nearest centre by the closed form; a label that is not a key fails with that label as `UnorderedMassLabel` |
| CosmicVar.ResolvesNearCentre | cosmic_var.py:68-81 | a mass within 0.055 of a centre resolves to that centre |
| CosmicVar.CosmicVariance | cosmic_var.py:26-87 | failures come in the source's order: an unknown survey, then a zero denominator at line 48, then the key search's error at line 79, then a zero delta_z at line 87; success needs a known survey, non-zero denominators and a resolvable mass, and then gives bias (equation 13) times sigma_DM (equation 10) times sqrt(0.2 / delta_z) from the selected rows |
| CosmicVar.DarkMatterSigmaSolves | cosmic_var.py:48 | sigma_DM (equation 10) solves sigma_DM * (meanZ^beta + sigma_b) = sigma_a, and is positive for a known survey when meanZ^beta is a non-negative real |
| CosmicVar.GalaxyBiasAtLeastB2 | cosmic_var.py:84 | for every row of the table the bias (equation 13) is at least b2 > 0 when (meanZ + 1)^b1 is a non-negative real |
| CosmicVar.LabelFailsBeforeWidth | cosmic_var.py:68-87 | with COSMOS, the label '>12.0' and delta_z = 0, the call fails with the label error of line 79, not the division of line 87 |
| CosmicVar.CosmicVarianceSucceeds | cosmic_var.py:48-87 | conversely, a known survey, non-zero denominators and a resolvable mass always give a result |
| CosmicVar.CosmosExample | cosmic_var.py:34-87 | COSMOS at mass 9.75, mean redshift 1 and width 0.2 gives (0.042*2^3.17 + 1.147) * 0.069/(1^0.834 + 0.234) * sqrt(1) |
| CosmicVar.HalfUnitBinCentre | cosmic_var.py:117-118 | the result is an odd multiple of 0.25 within a quarter of m, the centre of the half-unit bin holding m |
| CosmicVar.SnappedMass | cosmic_var.py:111-119 | when round(m, 1) is not a multiple of 0.5, the snapped mass is an odd multiple of 0.25 within a quarter of m; otherwise it lies within 0.005 of m - 0.25, and equals m - 0.25 when m itself is a multiple of 0.5 |
| CosmicVar.HalfIntegerRounding | cosmic_var.py:113-114 | neither rounding in the first branch moves a multiple of 0.5 or a quarter below it |
| CosmicVar.BucketKey | cosmic_var.py:111-122 | a snapped mass up to 11.25 stays numeric and unchanged; above 11.25 it becomes the '>11.0' label |
| CosmicVar.FirstBranchResolvesBelow | cosmic_var.py:111-114 | a mass whose round(m, 1) is a half-integer H in [9.0, 11.0] resolves to the centre H - 0.25 |
| CosmicVar.MassJustAboveTen | cosmic_var.py:111-119 | 10.03 is moved to 9.78 and resolves to 9.75, while the centre of its half-unit bin is 10.25 |
| CosmicVar.FirstBranchAtTableEnds | cosmic_var.py:111-122 | 8.5 is moved to 8.25 and falls back to 8.75, and 11.53 is moved to 11.28 and becomes the '>11.0' label |
| CosmicVar.MassOnTieNineOhFive | cosmic_var.py:111-114 | on exact reals 9.05 rounds to 9.0, is moved to 8.8 and resolves to 8.75 |
| CosmicVar.TenthsMultipleOfHalf | cosmic_var.py:111-112 | k/10 is a multiple of 0.5 exactly when k is a multiple of 5 |
| CosmicVar.HalfUnitTestAsWritten | cosmic_var.py:111-112 | the test `round(round(m,1) % 0.5, 2) <= 0.0001` holds exactly when round(m, 1) is a multiple of 0.5 |
| CosmicVar.QuarterSnapAsWritten | cosmic_var.py:117-119 | flooring to a quarter step and bumping multiples of 0.5 up by 0.25 gives the centre of the half-unit bin holding m |
| CosmicVar.SnapFixesOddQuarters | cosmic_var.py:115-119 | every odd multiple of 0.25 is left unchanged by snapping |
| CosmicVar.GridMassesUnderBucketing | cosmic_var.py:111-122 | an odd multiple of 0.25 up to 11.25 is bucketed as itself; one above 11.25 keeps its value when snapped and becomes the '>11.0' label |
| CosmicVar.CentresSurviveBucketing | cosmic_var.py:111-122 | the six centres 8.75 to 11.25 come out of bucketing as themselves |
| CosmicVar.BucketKeyResolves | cosmic_var.py:121-124 | every bucketed mass has a row in the bias table |
| CosmicVar.OverflowRule | cosmic_var.py:121-122 | the '>11.0' label, and its row (0.185, 2.86, 1.448), is used exactly when the snapped mass exceeds 11.25 |
| CosmicVar.BucketedFailureUniform | cosmic_var.py:110-124 | after bucketing, one mass fails exactly when every mass fails, and with the same error |
| CosmicVar.BucketMass | cosmic_var.py:111-122 | the source's steps, run in order, produce the specified bucket key |
| CosmicVar.Variances | cosmic_var.py:108-127 | a successful list of estimates has one entry per mass |
| CosmicVar.VariancesElementwise | cosmic_var.py:110-125 | entry i is the estimate for bucketed mass i alone, and the list succeeds when every mass succeeds |
| CosmicVar.VariancesFailure | cosmic_var.py:110-124 | a failing list fails with the error of its first mass |
| CosmicVar.VariancesPrefixFailure | cosmic_var.py:110-124 | once an earlier mass fails, the remaining masses do not change the outcome |
| CosmicVar.CosmicVarianceArray | cosmic_var.py:108-127 | the loop returns a fresh array holding exactly the specified list of estimates, or the error the specification gives |

## Left out

- Real exponentiation and square root (lines 48, 84, 87) are passed in as the
  function parameters `pow` and `sqrt`. Nothing is proved about them. The
  lemmas that need the sign of a power take it as a hypothesis, and no numeric
  value and no monotonicity of the result is stated.
- Binary floating point is not modelled. `round`, `%` and `//` are exact
  operations on reals, and `round` is half-to-even on the exact value. The
  `<= 0.0001` guards at lines 112 and 118 are kept as written. In exact
  arithmetic they are tests for zero. Decimal ties can then come out differently,
  depending on the element type of `mass_array`. On exact reals 9.05 is a tie
  that rounds to 9.0, so the model moves it to 8.8 and ends at 8.75
  (`MassOnTieNineOhFive`).
  - For an `np.float64` element, numpy's `round` multiplies by 10, which gives
    exactly 90.5, then rounds half to even. It also ends at 8.75.
  - For a Python float, the double nearest to 9.05 lies slightly above 9.05. The
    built-in `round` gives 9.1, takes the second branch, and ends at 9.25.
- A negative `mean_z` raised to a fractional power gives a complex number in
  Python. A zero `delta_z` held in a numpy float gives infinity and a warning,
  not an exception. The model follows Python floats: line 87 raises
  `ZeroDivisionError` on a zero `delta_z`.
- The `print` calls at lines 35, 38 and 70 are not modelled. The warning at
  line 70 is printed exactly when `mass !in BiasTable`, which is the fallback
  branch of `ResolveBiasKey`.
- The unused `mod_` at line 116 has no effect, and is not modelled.
- `np.zeros` at line 108 becomes a fresh `array<real>` initialised to 0.0.
- The default `survey="COSMOS"` argument is not modelled. Every call names its
  survey.
