/**
 The cosmic-variance "cookbook" of Moster et al. (2011), section 3.4: the root
 cosmic variance of galaxy counts for a survey field, a redshift bin and a
 stellar-mass bin.

 The survey row (sigma_a, sigma_b, beta) and the galaxy-bias row (b0, b1, b2)
 are chosen from two fixed tables; a stellar mass that is not a key of the
 bias table falls back to the nearest numeric bin centre. The array variant
 first snaps every mass onto the .25/.75 grid of bin centres.

 Real exponentiation and square root are not modelled: they are passed in
 as the functions `pow` and `sqrt`, and no property of them is used.
 */
module CosmicVar {
  import opened PyNumeric

  datatype Option<T> = None | Some(value: T)

  /** The ways a call of the source can fail. */
  datatype Error =
    | SurveyNotRecognised(survey: string) // the survey variables are never bound
    | ZeroDivision                        // a float division by zero
    | UnorderedMassLabel(given: string)   // a string label reaches the nearest-key search

  datatype Result<T> = Ok(value: T) | Err(error: Error)

  /** One row of the survey table: the dark-matter variance fit (equation 10). */
  datatype SurveyFit = SurveyFit(sigmaA: real, sigmaB: real, beta: real)

  /** One row of the galaxy-bias table: the bias fit (equation 13). */
  datatype BiasFit = BiasFit(b0: real, b1: real, b2: real)

  /** A key of the bias table: a bin centre, or a threshold label such as ">9.5". */
  datatype BiasKey = NumericBin(centre: real) | ThresholdBin(threshold: string)

  // ---------------------------------------------------------------------------
  // Survey table
  // ---------------------------------------------------------------------------

  const KnownSurveys: set<string> := {"UDF", "GOODS", "GEMS", "EGS", "COSMOS"}

  /** The survey row for `survey`, if the survey is one of the five known fields. */
  function SurveyFitFor(survey: string): (r: Option<SurveyFit>)
    ensures r.Some? <==> survey in KnownSurveys
    ensures r.Some? ==> 0.0 < r.value.sigmaA && 0.0 < r.value.sigmaB && 0.0 < r.value.beta
  {
    if survey == "UDF" then Some(SurveyFit(0.251, 0.364, 0.358))
    else if survey == "GOODS" then Some(SurveyFit(0.261, 0.854, 0.684))
    else if survey == "GEMS" then Some(SurveyFit(0.161, 0.520, 0.729))
    else if survey == "EGS" then Some(SurveyFit(0.128, 0.383, 0.673))
    else if survey == "COSMOS" then Some(SurveyFit(0.069, 0.234, 0.834))
    else None
  }

  /** Each known field selects exactly its published row. */
  lemma SurveyRowsAsPublished()
    ensures SurveyFitFor("UDF") == Some(SurveyFit(0.251, 0.364, 0.358))
    ensures SurveyFitFor("GOODS") == Some(SurveyFit(0.261, 0.854, 0.684))
    ensures SurveyFitFor("GEMS") == Some(SurveyFit(0.161, 0.520, 0.729))
    ensures SurveyFitFor("EGS") == Some(SurveyFit(0.128, 0.383, 0.673))
    ensures SurveyFitFor("COSMOS") == Some(SurveyFit(0.069, 0.234, 0.834))
  {
  }

  // ---------------------------------------------------------------------------
  // Galaxy-bias table
  // ---------------------------------------------------------------------------

  /** The numeric keys of the bias table, in the table's order. */
  const Centres: seq<real> := [8.75, 9.25, 9.75, 10.25, 10.75, 11.25]

  /** The threshold keys of the bias table, in the table's order. */
  const ThresholdLabels: seq<string> := [">8.5", ">9.0", ">9.5", ">10.0", ">10.5", ">11.0"]

  /** The label the array variant uses for every mass above the last centre. */
  const OverflowLabel: string := ">11.0"

  const BiasTable: map<BiasKey, BiasFit> := map[
    NumericBin(8.75) := BiasFit(0.062, 2.59, 1.025),
    NumericBin(9.25) := BiasFit(0.074, 2.58, 1.039),
    NumericBin(9.75) := BiasFit(0.042, 3.17, 1.147),
    NumericBin(10.25) := BiasFit(0.053, 3.07, 1.225),
    NumericBin(10.75) := BiasFit(0.069, 3.19, 1.269),
    NumericBin(11.25) := BiasFit(0.173, 2.89, 1.438),
    ThresholdBin(">8.5") := BiasFit(0.063, 2.62, 1.104),
    ThresholdBin(">9.0") := BiasFit(0.085, 2.50, 1.098),
    ThresholdBin(">9.5") := BiasFit(0.058, 2.96, 1.192),
    ThresholdBin(">10.0") := BiasFit(0.072, 2.90, 1.257),
    ThresholdBin(">10.5") := BiasFit(0.093, 3.02, 1.332),
    ThresholdBin(">11.0") := BiasFit(0.185, 2.86, 1.448)
  ]

  /** The table's keys are exactly the six centres and the six threshold labels;
      the centres are the view searched by the fallback. */
  lemma BiasTableKeys(k: BiasKey)
    ensures k in BiasTable <==>
      (k.NumericBin? && k.centre in Centres) || (k.ThresholdBin? && k.threshold in ThresholdLabels)
  {
  }

  /** Every row of the bias table has positive b0 and b2, so with a real,
      non-negative power the bias is at least b2 > 0. */
  lemma BiasRowsPositive(k: BiasKey)
    ensures k in BiasTable ==> 0.0 < BiasTable[k].b0 && 0.0 < BiasTable[k].b2
  {
    BiasTableKeys(k);
  }

  // ---------------------------------------------------------------------------
  // Nearest-key fallback
  // ---------------------------------------------------------------------------

  /** The quantity the fallback minimises: |key - m + 0.001|. */
  function FallbackDistance(key: real, m: real): real
  {
    Abs(key - m + 0.001)
  }

  /** The index `min(keys, key=...)` picks: a key at the least distance from `m`,
      and the first such key when several tie. */
  function FirstNearestIndex(keys: seq<real>, m: real): (i: nat)
    requires |keys| > 0
    ensures i < |keys|
    decreases |keys|
  {
    if |keys| == 1 then 0
    else
      var last := |keys| - 1;
      var best := FirstNearestIndex(keys[..last], m);
      if FallbackDistance(keys[last], m) < FallbackDistance(keys[best], m) then last else best
  }

  /** The bin centre a mass that is not a table key falls back to. */
  function NearestCentre(m: real): (c: real)
    ensures c == CentreByBoundaries(m)
  {
    NearestCentreByBoundaries(m);
    Centres[FirstNearestIndex(Centres, m)]
  }

  /** The same choice described by its boundaries: each centre owns the half-unit
      interval around it, shifted up by 0.001 and closed on the right, and the
      outermost centres own everything beyond. */
  function CentreByBoundaries(m: real): real
  {
    if m <= 9.001 then 8.75
    else if m <= 9.501 then 9.25
    else if m <= 10.001 then 9.75
    else if m <= 10.501 then 10.25
    else if m <= 11.001 then 10.75
    else 11.25
  }

  lemma NearestCentreByBoundaries(m: real)
    ensures Centres[FirstNearestIndex(Centres, m)] == CentreByBoundaries(m)
  {
    var j := if m <= 9.001 then 0 else if m <= 9.501 then 1 else if m <= 10.001 then 2
             else if m <= 10.501 then 3 else if m <= 11.001 then 4 else 5;
    assert Centres[j] == CentreByBoundaries(m);
    forall t | 0 <= t < |Centres|
      ensures FallbackDistance(Centres[j], m) <= FallbackDistance(Centres[t], m)
      ensures t < j ==> FallbackDistance(Centres[j], m) < FallbackDistance(Centres[t], m)
    {
    }
    FirstNearestIndexUnique(Centres, m, j);
  }

  /**
   The index found is a nearest key, and no key before it is as near: the
   first minimiser, as Python's `min` returns it.
   */
  lemma {:induction false} FirstNearestIndexIsMinimal(keys: seq<real>, m: real)
    requires |keys| > 0
    ensures forall j :: 0 <= j < |keys| ==>
      FallbackDistance(keys[FirstNearestIndex(keys, m)], m) <= FallbackDistance(keys[j], m)
    ensures forall j :: 0 <= j < FirstNearestIndex(keys, m) ==>
      FallbackDistance(keys[FirstNearestIndex(keys, m)], m) < FallbackDistance(keys[j], m)
    decreases |keys|
  {
    if |keys| > 1 {
      var last := |keys| - 1;
      var prefix := keys[..last];
      FirstNearestIndexIsMinimal(prefix, m);
      assert forall j :: 0 <= j < last ==> prefix[j] == keys[j];
    }
  }

  /** The two properties of FirstNearestIndex single out one index. */
  lemma FirstNearestIndexUnique(keys: seq<real>, m: real, j: nat)
    requires j < |keys|
    requires forall t :: 0 <= t < |keys| ==> FallbackDistance(keys[j], m) <= FallbackDistance(keys[t], m)
    requires forall t :: 0 <= t < j ==> FallbackDistance(keys[j], m) < FallbackDistance(keys[t], m)
    ensures FirstNearestIndex(keys, m) == j
  {
    var i := FirstNearestIndex(keys, m);
    FirstNearestIndexIsMinimal(keys, m);
    assert FallbackDistance(keys[i], m) <= FallbackDistance(keys[j], m);
    assert FallbackDistance(keys[j], m) <= FallbackDistance(keys[i], m);
  }

  /** The tie between 9.25 and 9.75 goes to the lower centre, and masses off
      either end of the table go to the nearest end. */
  lemma FallbackExamples(m: real)
    ensures NearestCentre(9.5) == 9.25
    ensures m < 8.75 ==> NearestCentre(m) == 8.75
    ensures m > 11.25 ==> NearestCentre(m) == 11.25
  {
  }

  /** The key whose row is used for `mass`: the mass itself when it is a key,
      otherwise the nearest centre. A label that is not a key cannot be compared
      with the centres, and the search fails. */
  function ResolveBiasKey(mass: BiasKey): (r: Result<BiasKey>)
    ensures mass in BiasTable ==> r == Ok(mass)
    ensures r.Ok? ==> r.value in BiasTable
    ensures mass !in BiasTable ==> (r.Ok? <==> mass.NumericBin?)
    ensures mass !in BiasTable && r.Ok? ==> r.value.NumericBin?
    ensures mass.NumericBin? && mass !in BiasTable ==> r == Ok(NumericBin(CentreByBoundaries(mass.centre)))
    ensures mass.ThresholdBin? && mass !in BiasTable ==> r == Err(UnorderedMassLabel(mass.threshold))
  {
    if mass in BiasTable then Ok(mass)
    else match mass
      case NumericBin(m) => Ok(NumericBin(NearestCentre(m)))
      case ThresholdBin(t) => Err(UnorderedMassLabel(t))
  }

  // ---------------------------------------------------------------------------
  // The estimate for one mass
  // ---------------------------------------------------------------------------

  /** Equation 10: the dark-matter root variance for a bin of width 0.2. */
  function DarkMatterSigma(pow: (real, real) -> real, fit: SurveyFit, meanZ: real): real
    requires pow(meanZ, fit.beta) + fit.sigmaB != 0.0
  {
    fit.sigmaA / (pow(meanZ, fit.beta) + fit.sigmaB)
  }

  /** Equation 13: the galaxy bias for one row of the bias table. */
  function GalaxyBias(pow: (real, real) -> real, row: BiasFit, meanZ: real): real
  {
    row.b0 * pow(meanZ + 1.0, row.b1) + row.b2
  }

  /** sigma_DM solves sigma_DM * (meanZ^beta + sigma_b) = sigma_a, and is positive
      for a known survey whenever meanZ^beta is a non-negative real. */
  lemma DarkMatterSigmaSolves(pow: (real, real) -> real, survey: string, meanZ: real)
    requires survey in KnownSurveys
    requires pow(meanZ, SurveyFitFor(survey).value.beta) + SurveyFitFor(survey).value.sigmaB != 0.0
    ensures var fit := SurveyFitFor(survey).value;
            DarkMatterSigma(pow, fit, meanZ) * (pow(meanZ, fit.beta) + fit.sigmaB) == fit.sigmaA
    ensures var fit := SurveyFitFor(survey).value;
            0.0 <= pow(meanZ, fit.beta) ==> 0.0 < DarkMatterSigma(pow, fit, meanZ)
  {
  }

  /** For every row of the table the bias is at least b2 > 0 whenever
      (meanZ + 1)^b1 is a non-negative real. */
  lemma GalaxyBiasAtLeastB2(pow: (real, real) -> real, key: BiasKey, meanZ: real)
    requires key in BiasTable
    ensures var row := BiasTable[key];
            0.0 <= pow(meanZ + 1.0, row.b1) ==> 0.0 < row.b2 <= GalaxyBias(pow, row, meanZ)
  {
    BiasRowsPositive(key);
  }

  /** Root cosmic variance for galaxies: bias * sigma_DM * sqrt(0.2 / deltaZ), where
      sigma_DM = sigma_a / (meanZ^beta + sigma_b) and bias = b0 * (meanZ + 1)^b1 + b2.
      The checks come in the order the source evaluates them. */
  function CosmicVariance(pow: (real, real) -> real, sqrt: real -> real,
                          meanZ: real, deltaZ: real, mass: BiasKey, survey: string): (r: Result<real>)
    ensures survey !in KnownSurveys ==> r == Err(SurveyNotRecognised(survey))
    ensures survey in KnownSurveys &&
            pow(meanZ, SurveyFitFor(survey).value.beta) + SurveyFitFor(survey).value.sigmaB == 0.0
            ==> r == Err(ZeroDivision)
    ensures survey in KnownSurveys &&
            pow(meanZ, SurveyFitFor(survey).value.beta) + SurveyFitFor(survey).value.sigmaB != 0.0 &&
            ResolveBiasKey(mass).Err?
            ==> r == Err(ResolveBiasKey(mass).error)
    ensures survey in KnownSurveys &&
            pow(meanZ, SurveyFitFor(survey).value.beta) + SurveyFitFor(survey).value.sigmaB != 0.0 &&
            ResolveBiasKey(mass).Ok? && deltaZ == 0.0
            ==> r == Err(ZeroDivision)
    ensures r.Ok? ==>
      survey in KnownSurveys &&
      pow(meanZ, SurveyFitFor(survey).value.beta) + SurveyFitFor(survey).value.sigmaB != 0.0 &&
      ResolveBiasKey(mass).Ok? && deltaZ != 0.0
    ensures r.Ok? ==>
      r.value == GalaxyBias(pow, BiasTable[ResolveBiasKey(mass).value], meanZ)
                 * DarkMatterSigma(pow, SurveyFitFor(survey).value, meanZ)
                 * sqrt(0.2 / deltaZ)
  {
    match SurveyFitFor(survey)
    case None => Err(SurveyNotRecognised(survey))
    case Some(fit) =>
      if pow(meanZ, fit.beta) + fit.sigmaB == 0.0 then Err(ZeroDivision)
      else
        match ResolveBiasKey(mass)
        case Err(e) => Err(e)
        case Ok(key) =>
          if deltaZ == 0.0 then Err(ZeroDivision)
          else Ok(GalaxyBias(pow, BiasTable[key], meanZ) * DarkMatterSigma(pow, fit, meanZ) * sqrt(0.2 / deltaZ))
  }

  /** A label that is not a key fails at the nearest-key search before the bin
      width is ever divided by, so a zero width does not change the error. */
  lemma LabelFailsBeforeWidth(pow: (real, real) -> real, sqrt: real -> real, meanZ: real)
    requires pow(meanZ, 0.834) + 0.234 != 0.0
    ensures CosmicVariance(pow, sqrt, meanZ, 0.0, ThresholdBin(">12.0"), "COSMOS")
         == Err(UnorderedMassLabel(">12.0"))
  {
    assert SurveyFitFor("COSMOS") == Some(SurveyFit(0.069, 0.234, 0.834));
    BiasTableKeys(ThresholdBin(">12.0"));
  }

  /** A call with a known survey, non-zero denominators and a resolvable mass succeeds. */
  lemma CosmicVarianceSucceeds(pow: (real, real) -> real, sqrt: real -> real,
                               meanZ: real, deltaZ: real, mass: BiasKey, survey: string)
    requires survey in KnownSurveys
    requires pow(meanZ, SurveyFitFor(survey).value.beta) + SurveyFitFor(survey).value.sigmaB != 0.0
    requires ResolveBiasKey(mass).Ok? && deltaZ != 0.0
    ensures CosmicVariance(pow, sqrt, meanZ, deltaZ, mass, survey).Ok?
  {
  }

  /** The worked COSMOS case at log mass 9.75, mean redshift 1 and bin width 0.2. */
  lemma CosmosExample(pow: (real, real) -> real, sqrt: real -> real)
    requires pow(1.0, 0.834) + 0.234 != 0.0
    ensures CosmicVariance(pow, sqrt, 1.0, 0.2, NumericBin(9.75), "COSMOS").Ok?
    ensures CosmicVariance(pow, sqrt, 1.0, 0.2, NumericBin(9.75), "COSMOS").value
         == (0.042 * pow(2.0, 3.17) + 1.147) * (0.069 / (pow(1.0, 0.834) + 0.234)) * sqrt(1.0)
  {
    assert SurveyFitFor("COSMOS") == Some(SurveyFit(0.069, 0.234, 0.834));
    assert ResolveBiasKey(NumericBin(9.75)) == Ok(NumericBin(9.75));
    var ratio := 0.2 / 0.2;
    assert sqrt(ratio) == sqrt(1.0);
  }

  // ---------------------------------------------------------------------------
  // Bucketing of arbitrary masses onto the bin centres
  // ---------------------------------------------------------------------------

  /** x is a whole multiple of 0.5. */
  predicate IsMultipleOfHalf(x: real)
  {
    (2.0 * x).Floor as real == 2.0 * x
  }

  /** x is an odd multiple of 0.25, the form of every bin centre. */
  predicate IsOddQuarter(x: real)
  {
    (4.0 * x).Floor as real == 4.0 * x && (4.0 * x).Floor % 2 == 1
  }

  /** The centre of the half-unit bin [h, h + 0.5) that holds m, h a multiple of 0.5. */
  function HalfUnitBinCentre(m: real): (c: real)
    ensures IsOddQuarter(c)
    ensures c - 0.25 <= m < c + 0.25
  {
    var f := (2.0 * m).Floor;
    OddQuarterAbove(f);
    f as real / 2.0 + 0.25
  }

  /** A quarter above a multiple of one half is an odd multiple of a quarter. */
  lemma OddQuarterAbove(f: int)
    ensures IsOddQuarter(f as real / 2.0 + 0.25)
  {
    var x := f as real / 2.0 + 0.25;
    assert 4.0 * x == (2 * f + 1) as real;
    assert (4.0 * x).Floor == 2 * f + 1;
  }

  /** Where a mass lands on the grid: when round(m, 1) is a multiple of 0.5, a
      quarter below the mass, rounded to two decimals; otherwise the centre of
      the half-unit bin that holds it. */
  function SnappedMass(m: real): (s: real)
    ensures !IsMultipleOfHalf(Round(m, 1)) ==> IsOddQuarter(s) && s - 0.25 <= m < s + 0.25
    ensures IsMultipleOfHalf(Round(m, 1)) ==> Abs(s - (m - 0.25)) <= 0.005
    ensures IsMultipleOfHalf(m) ==> s == m - 0.25
  {
    RoundTwoIsNear(m - 0.25);
    HalfIntegerRounding(m);
    if IsMultipleOfHalf(Round(m, 1)) then Round(m - 0.25, 2) else HalfUnitBinCentre(m)
  }

  /** A multiple of 0.5 has one decimal, and a quarter below it has two, so
      neither rounding in the first branch moves them. */
  lemma HalfIntegerRounding(m: real)
    ensures IsMultipleOfHalf(m) ==> Round(m, 1) == m && Round(m - 0.25, 2) == m - 0.25
  {
    if IsMultipleOfHalf(m) {
      var h := (2.0 * m).Floor;
      assert m * Scale(1) == (5 * h) as real;
      RoundOnGrid(m, 5 * h, 1);
      assert (m - 0.25) * Scale(2) == (50 * h - 25) as real;
      RoundOnGrid(m - 0.25, 50 * h - 25, 2);
    }
  }

  /** The bias key the array variant passes on for mass `m`. */
  function BucketKey(m: real): (k: BiasKey)
    ensures k.NumericBin? ==> k.centre == SnappedMass(m) && k.centre <= 11.25
    ensures k.ThresholdBin? ==> k.threshold == OverflowLabel && SnappedMass(m) > 11.25
  {
    var s := SnappedMass(m);
    if s > 11.25 then ThresholdBin(OverflowLabel) else NumericBin(s)
  }

  /** A mass whose round(m, 1) is a half-integer H between 9.0 and 11.0 takes
      the first branch and ends at the centre H - 0.25 below H, also when m
      lies above H, inside the half-unit bin centred at H + 0.25. */
  lemma FirstBranchResolvesBelow(m: real)
    ensures IsMultipleOfHalf(Round(m, 1)) && 9.0 <= Round(m, 1) <= 11.0 ==>
            ResolveBiasKey(BucketKey(m)) == Ok(NumericBin(Round(m, 1) - 0.25))
  {
    var H := Round(m, 1);
    if IsMultipleOfHalf(H) && 9.0 <= H <= 11.0 {
      RoundOneIsNear(m);
      var s := SnappedMass(m);
      assert H - 0.305 <= s <= H - 0.195;
      assert BucketKey(m) == NumericBin(s);
      var h := (2.0 * H).Floor;
      assert 18 <= h <= 22 && H == h as real / 2.0;
      var c := H - 0.25;
      assert c == Centres[h - 18];
      ResolvesNearCentre(s, h - 18);
    }
  }

  /** A value within 0.055 of a centre resolves to that centre. */
  lemma ResolvesNearCentre(s: real, i: nat)
    requires i < |Centres|
    requires Abs(s - Centres[i]) <= 0.055
    ensures ResolveBiasKey(NumericBin(s)) == Ok(NumericBin(Centres[i]))
  {
    BiasTableKeys(NumericBin(s));
  }

  /** 10.03 lies in the half-unit bin centred at 10.25, but round(10.03, 1) is
      10.0, so it is moved to 9.78 and resolves to 9.75. */
  lemma MassJustAboveTen()
    ensures HalfUnitBinCentre(10.03) == 10.25
    ensures BucketKey(10.03) == NumericBin(9.78)
    ensures ResolveBiasKey(BucketKey(10.03)) == Ok(NumericBin(9.75))
  {
    assert RoundHalfEven(100.3) == 100;
    assert Round(10.03, 1) == 10.0;
    RoundOnGrid(9.78, 978, 2);
    assert (2.0 * 10.03).Floor == 20;
  }

  /** Outside [9.0, 11.0] the first branch leaves the centres: 8.5 is moved to
      8.25 and falls back to 8.75, and 11.53 is moved to 11.28 and becomes the
      '>11.0' label. */
  lemma FirstBranchAtTableEnds()
    ensures BucketKey(8.5) == NumericBin(8.25)
    ensures ResolveBiasKey(BucketKey(8.5)) == Ok(NumericBin(8.75))
    ensures BucketKey(11.53) == ThresholdBin(OverflowLabel)
  {
    HalfIntegerRounding(8.5);
    assert IsMultipleOfHalf(8.5);
    assert RoundHalfEven(115.3) == 115;
    assert Round(11.53, 1) == 11.5;
    RoundOnGrid(11.28, 1128, 2);
  }

  /** In exact arithmetic 9.05 is a tie, rounded to 9.0, so it is moved to 8.8
      and resolves to 8.75. */
  lemma MassOnTieNineOhFive()
    ensures BucketKey(9.05) == NumericBin(8.8)
    ensures ResolveBiasKey(BucketKey(9.05)) == Ok(NumericBin(8.75))
  {
    assert RoundHalfEven(90.5) == 90;
    assert Round(9.05, 1) == 9.0;
    RoundOnGrid(8.8, 880, 2);
  }

  /** A tenth k / 10 is a multiple of 0.5 exactly when k is a multiple of 5. */
  lemma TenthsMultipleOfHalf(k: int)
    ensures IsMultipleOfHalf(k as real / 10.0) <==> k % 5 == 0
  {
    FloorOfQuotient(k, 5);
    assert 2.0 * (k as real / 10.0) == k as real / 5.0;
    assert k == 5 * (k / 5) + k % 5;
    assert k as real / 5.0 == (k / 5) as real + (k % 5) as real / 5.0;
  }

  /** The source's test `round(round(m, 1) % 0.5, 2) <= 0.0001` holds exactly when
      round(m, 1) is a multiple of 0.5. */
  lemma HalfUnitTestAsWritten(m: real)
    ensures Round(FloorMod(Round(m, 1), 0.5), 2) <= 0.0001 <==> IsMultipleOfHalf(Round(m, 1))
  {
    var k := RoundHalfEven(m * 10.0);
    var x := k as real / 10.0;
    assert Round(m, 1) == x;
    FloorOfQuotient(k, 5);
    assert x / 0.5 == k as real / 5.0;
    var r := (k % 5) as real / 10.0;
    assert FloorMod(x, 0.5) == r;
    RoundOnGrid(r, 10 * (k % 5), 2);
    TenthsMultipleOfHalf(k);
  }

  /** The source's other branch, `(m // 0.25) * 0.25` moved up a quarter when it
      lands on a multiple of 0.5, is the centre of the half-unit bin holding m. */
  lemma QuarterSnapAsWritten(m: real)
    ensures var lower := FloorDiv(m, 0.25) as real * 0.25;
            (if Round(FloorMod(Round(lower, 2), 0.5), 2) <= 0.0001 then lower + 0.25 else lower)
            == HalfUnitBinCentre(m)
  {
    var q := FloorDiv(m, 0.25);
    var lower := q as real * 0.25;
    RoundOnGrid(lower, 25 * q, 2);
    FloorOfQuotient(q, 2);
    assert lower / 0.5 == q as real / 2.0;
    var r := (q % 2) as real * 0.25;
    assert FloorMod(lower, 0.5) == r;
    RoundOnGrid(r, 25 * (q % 2), 2);
    assert (2.0 * m).Floor == q / 2;
  }

  /** Every odd multiple of 0.25 is left where it is. */
  lemma SnapFixesOddQuarters(q: int)
    ensures SnappedMass((2 * q + 1) as real / 4.0) == (2 * q + 1) as real / 4.0
  {
    var m := (2 * q + 1) as real / 4.0;
    var k := RoundHalfEven(m * 10.0);
    assert m * 10.0 == (5 * q) as real + 2.5;
    assert k == 5 * q + 2 || k == 5 * q + 3;
    assert Round(m, 1) == k as real / 10.0;
    TenthsMultipleOfHalf(k);
    assert !IsMultipleOfHalf(Round(m, 1));
    assert 2.0 * m == q as real + 0.5;
    assert (2.0 * m).Floor == q;
    assert HalfUnitBinCentre(m) == m;
  }

  /** Masses on the .25/.75 grid: up to 11.25 they come through bucketing as
      themselves; above 11.25 they keep their value when snapped and then
      become the '>11.0' label. */
  lemma GridMassesUnderBucketing(q: int)
    ensures q <= 22 ==> BucketKey((2 * q + 1) as real / 4.0) == NumericBin((2 * q + 1) as real / 4.0)
    ensures 23 <= q ==> SnappedMass((2 * q + 1) as real / 4.0) == (2 * q + 1) as real / 4.0
    ensures 23 <= q ==> BucketKey((2 * q + 1) as real / 4.0) == ThresholdBin(OverflowLabel)
  {
    SnapFixesOddQuarters(q);
  }

  /** The six centres pass through bucketing unchanged. */
  lemma CentresSurviveBucketing()
    ensures forall c :: c in Centres ==> BucketKey(c) == NumericBin(c)
  {
    forall i | 0 <= i < |Centres|
      ensures BucketKey(Centres[i]) == NumericBin(Centres[i])
    {
      var q := 17 + i;
      assert Centres[i] == (2 * q + 1) as real / 4.0;
      SnapFixesOddQuarters(q);
    }
  }

  /** A bucketed mass always has a row: the overflow label is a key, and any
      numeric value resolves to a centre. */
  lemma BucketKeyResolves(m: real)
    ensures ResolveBiasKey(BucketKey(m)).Ok?
  {
    assert ThresholdBin(OverflowLabel) in BiasTable;
  }

  /** The '>11.0' row is used exactly when the snapped mass exceeds 11.25. */
  lemma OverflowRule(m: real)
    ensures BucketKey(m).ThresholdBin? <==> SnappedMass(m) > 11.25
    ensures ResolveBiasKey(BucketKey(m)).Ok?
    ensures BiasTable[ResolveBiasKey(BucketKey(m)).value] == BiasFit(0.185, 2.86, 1.448)
            <==> SnappedMass(m) > 11.25
  {
    BucketKeyResolves(m);
    var key := ResolveBiasKey(BucketKey(m)).value;
    if SnappedMass(m) <= 11.25 {
      BiasTableKeys(key);
    }
  }

  /** Whether a bucketed call fails does not depend on the mass, and a failure
      is the same failure for every mass. */
  lemma BucketedFailureUniform(pow: (real, real) -> real, sqrt: real -> real,
                               meanZ: real, deltaZ: real, survey: string, m1: real, m2: real)
    ensures CosmicVariance(pow, sqrt, meanZ, deltaZ, BucketKey(m1), survey).Err? ==>
            CosmicVariance(pow, sqrt, meanZ, deltaZ, BucketKey(m2), survey)
            == CosmicVariance(pow, sqrt, meanZ, deltaZ, BucketKey(m1), survey)
  {
    BucketKeyResolves(m1);
    BucketKeyResolves(m2);
  }

  // ---------------------------------------------------------------------------
  // The estimate for an array of masses
  // ---------------------------------------------------------------------------

  /** The steps the source takes on one mass before the lookup: snap it to the
      grid of centres, then replace anything above the last centre by '>11.0'. */
  method BucketMass(m: real) returns (key: BiasKey)
    ensures key == BucketKey(m)
  {
    HalfUnitTestAsWritten(m);
    QuarterSnapAsWritten(m);
    var mass := m;
    var modulus := Round(FloorMod(Round(mass, 1), 0.5), 2);
    if modulus <= 0.0001 {
      mass := mass - 0.25;
      mass := Round(mass, 2);
    } else {
      var lower := FloorDiv(mass, 0.25) as real * 0.25;
      if Round(FloorMod(Round(lower, 2), 0.5), 2) <= 0.0001 {
        lower := lower + 0.25;
      }
      mass := lower;
    }
    if mass > 11.25 {
      key := ThresholdBin(OverflowLabel);
    } else {
      key := NumericBin(mass);
    }
  }

  /** The estimates for a list of masses, bucketed one by one and computed in
      order: all of them, or the error of the first call that fails. */
  function Variances(pow: (real, real) -> real, sqrt: real -> real,
                     meanZ: real, deltaZ: real, masses: seq<real>, survey: string): (r: Result<seq<real>>)
    ensures r.Ok? ==> |r.value| == |masses|
    decreases |masses|
  {
    if |masses| == 0 then Ok([])
    else
      var last := |masses| - 1;
      match Variances(pow, sqrt, meanZ, deltaZ, masses[..last], survey)
      case Err(e) => Err(e)
      case Ok(vs) =>
        match CosmicVariance(pow, sqrt, meanZ, deltaZ, BucketKey(masses[last]), survey)
        case Err(e) => Err(e)
        case Ok(v) => Ok(vs + [v])
  }

  /** Element i of a successful result is the estimate for the bucketed mass i,
      and the list succeeds as soon as every element does. */
  lemma {:induction false} VariancesElementwise(pow: (real, real) -> real, sqrt: real -> real,
                                                meanZ: real, deltaZ: real, masses: seq<real>, survey: string)
    ensures Variances(pow, sqrt, meanZ, deltaZ, masses, survey).Ok? ==>
      forall i :: 0 <= i < |masses| ==>
        CosmicVariance(pow, sqrt, meanZ, deltaZ, BucketKey(masses[i]), survey)
        == Ok(Variances(pow, sqrt, meanZ, deltaZ, masses, survey).value[i])
    ensures (forall i :: 0 <= i < |masses| ==>
               CosmicVariance(pow, sqrt, meanZ, deltaZ, BucketKey(masses[i]), survey).Ok?) ==>
      Variances(pow, sqrt, meanZ, deltaZ, masses, survey).Ok?
    decreases |masses|
  {
    if |masses| > 0 {
      var last := |masses| - 1;
      var prefix := masses[..last];
      VariancesElementwise(pow, sqrt, meanZ, deltaZ, prefix, survey);
      assert forall i :: 0 <= i < last ==> prefix[i] == masses[i];
    }
  }

  /** A failing list fails with the error of its first mass: bucketing cannot
      change whether or how the estimate fails. */
  lemma {:induction false} VariancesFailure(pow: (real, real) -> real, sqrt: real -> real,
                                            meanZ: real, deltaZ: real, masses: seq<real>, survey: string)
    ensures Variances(pow, sqrt, meanZ, deltaZ, masses, survey).Err? ==>
      |masses| > 0 &&
      CosmicVariance(pow, sqrt, meanZ, deltaZ, BucketKey(masses[0]), survey)
      == Err(Variances(pow, sqrt, meanZ, deltaZ, masses, survey).error)
    decreases |masses|
  {
    if |masses| > 0 {
      var last := |masses| - 1;
      var prefix := masses[..last];
      VariancesFailure(pow, sqrt, meanZ, deltaZ, prefix, survey);
      if last > 0 {
        assert prefix[0] == masses[0];
      }
      BucketedFailureUniform(pow, sqrt, meanZ, deltaZ, survey, masses[last], masses[0]);
    }
  }

  /** Once a prefix of the list fails, the whole list fails the same way. */
  lemma {:induction false} VariancesPrefixFailure(pow: (real, real) -> real, sqrt: real -> real,
                                                  meanZ: real, deltaZ: real, masses: seq<real>, survey: string,
                                                  n: nat)
    requires n <= |masses|
    requires Variances(pow, sqrt, meanZ, deltaZ, masses[..n], survey).Err?
    ensures Variances(pow, sqrt, meanZ, deltaZ, masses, survey)
         == Variances(pow, sqrt, meanZ, deltaZ, masses[..n], survey)
    decreases |masses| - n
  {
    if n == |masses| {
      assert masses[..n] == masses;
    } else {
      var last := |masses| - 1;
      assert masses[..last][..n] == masses[..n];
      VariancesPrefixFailure(pow, sqrt, meanZ, deltaZ, masses[..last], survey, n);
    }
  }

  /** Fills a new array with the estimate for each bucketed mass, in order. The
      first failing call ends the computation with its error. */
  method CosmicVarianceArray(pow: (real, real) -> real, sqrt: real -> real,
                             meanZ: real, deltaZ: real, masses: seq<real>, survey: string)
    returns (r: Result<array<real>>)
    ensures r.Ok? ==> fresh(r.value)
    ensures r.Ok? ==> Variances(pow, sqrt, meanZ, deltaZ, masses, survey) == Ok(r.value[..])
    ensures r.Err? ==> Variances(pow, sqrt, meanZ, deltaZ, masses, survey) == Err(r.error)
  {
    var out := new real[|masses|](_ => 0.0);
    var i := 0;
    while i < |masses|
      invariant 0 <= i <= |masses|
      invariant Variances(pow, sqrt, meanZ, deltaZ, masses[..i], survey) == Ok(out[..i])
    {
      var key := BucketMass(masses[i]);
      var v := CosmicVariance(pow, sqrt, meanZ, deltaZ, key, survey);
      assert masses[..i + 1][..i] == masses[..i];
      if v.Err? {
        VariancesPrefixFailure(pow, sqrt, meanZ, deltaZ, masses, survey, i + 1);
        return Err(v.error);
      }
      out[i] := v.value;
      assert out[..i + 1] == out[..i] + [v.value];
      i := i + 1;
    }
    assert masses[..i] == masses && out[..i] == out[..];
    return Ok(out);
  }
}
