/** Record shapes of the older generation (`types.ts`) and the notes its
    calculators attach. */
module RootTypes {
  import opened Numeric
  import opened Decimal

  datatype SessionKind = Base | Final

  /** A tare reading of the half-range estimator. */
  datatype TareSample = TareSample(id: string, timestamp: int, value: real)

  function TareSampleId(s: TareSample): string { s.id }

  datatype EstimateMethod = HalfRange | Manual | NoMethod

  /** What the half-range estimator reports. */
  datatype TareEstimate = TareEstimate(
    count: nat,
    biasMedian: real,
    tareUncertainty95: real,
    tareSigma: real,
    estimateMethod: EstimateMethod)

  /** A reading corrected by the bias locked at the start of its session.
      The corrected value is a `Num` because the calculators filter NaN. */
  datatype ManualMeasurement = ManualMeasurement(
    id: string,
    timestamp: int,
    kind: SessionKind,
    scaleReading: real,
    bias: real,
    tareUncertainty95: real,
    correctedValue: Num)

  function ManualMeasurementId(m: ManualMeasurement): string { m.id }

  /** The optional quality figures a simple measurement may carry. */
  datatype Quality = Quality(qualityScore: Option<real>, azRms: Option<real>, rollRms: Option<real>, pitchRms: Option<real>)

  const NoQuality := Quality(None, None, None, None)

  datatype SimpleMeasurement = SimpleMeasurement(
    id: string,
    timestamp: int,
    scaleReading: real,
    bias: real,
    tareUncertainty95: real,
    correctedValue: Num,
    quality: Quality)

  function SimpleMeasurementId(m: SimpleMeasurement): string { m.id }

  /** The notes of the calculators. */
  datatype Note =
    | LowSampleCount
    | LowSampleCountUnstable
    | TrimmedOutliers(count: nat)
    | InvalidIgnored(count: nat)
    | BaseNotPositive
    | LowEffectiveSampleSize
  {
    /** The text the user sees. */
    function Text(): string
    {
      match this
      case LowSampleCount => "Low sample count (n<3)."
      case LowSampleCountUnstable => "Low sample count (n<3). Result may be unstable."
      case TrimmedOutliers(c) => "Trimmed " + NatToString(c) + " outlier(s)."
      case InvalidIgnored(c) => NatToString(c) + " invalid value(s) ignored."
      case BaseNotPositive => "Base weight <= 0. Cannot compute ratio."
      case LowEffectiveSampleSize => "Low effective sample size. Uncertainty band is wide."
    }
  }

  /** The trim note gives back the number of values it reports. */
  lemma {:induction false} TrimmedOutliersText(c: nat)
    ensures var s := TrimmedOutliers(c).Text();
      |s| >= 21 && ParseNat(s[8..|s| - 12]) == c
  {
    var s := TrimmedOutliers(c).Text();
    assert s[8..|s| - 12] == NatToString(c);
    ParseNatToString(c);
  }

  /** The invalid-value note gives back the number of values it reports. */
  lemma {:induction false} InvalidIgnoredText(c: nat)
    ensures var s := InvalidIgnored(c).Text();
      |s| >= 27 && ParseNat(s[..|s| - 26]) == c
  {
    var s := InvalidIgnored(c).Text();
    assert s[..|s| - 26] == NatToString(c);
    ParseNatToString(c);
  }

  /** What `SessionCalculator.calculate` returns. */
  datatype SessionResult = SessionResult(
    kind: SessionKind,
    measurements: seq<ManualMeasurement>,
    nTotal: nat,
    nTrim: nat,
    trimFraction: real,
    bias: real,
    tareUncertainty95: real,
    tareSigma: real,
    mean: real,
    median: real,
    trimmedMean: real,
    fixedValue: real,
    stdDev: real,
    stdError: real,
    totalUncertainty1Sigma: real,
    errorBand95: real,
    confidence: real,
    notes: seq<Note>)

  /** What `SimpleMeasurementCalculator.calculate` returns. */
  datatype SimpleMeasurementResult = SimpleMeasurementResult(
    measurementCount: nat,
    measurements: seq<SimpleMeasurement>,
    bias: real,
    tareUncertainty95: real,
    tareSigma: real,
    mean: real,
    median: real,
    trimmedMean: real,
    fixedValue: real,
    stdDev: real,
    stdError: real,
    totalUncertainty1Sigma: real,
    errorBand95: real,
    relativeError95: real,
    nTotal: nat,
    nTrim: nat,
    trimFraction: real,
    confidence: real,
    notes: seq<Note>)

  /** What `RatioCalculator.calculate` returns. `relativeErrorPercent95` is
      absent where the source divides by a zero percent. */
  datatype RatioResult = RatioResult(
    wBase: SessionResult,
    wFinal: SessionResult,
    ratio: real,
    percent: real,
    sigmaRatio1Sigma: real,
    errorBand95Ratio: real,
    errorBand95Percent: real,
    relativeErrorPercent95: Option<real>,
    k95: real,
    nEff: int,
    notes: seq<Note>)
}
