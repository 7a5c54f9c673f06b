/** Record shapes of the newer generation (`src/types.ts`). */
module SrcTypes {
  import opened Numeric

  /** A motion-sensor snapshot. The core reads only the projected vertical
      acceleration `az`; the raw axes, the RMS window, roll, pitch and the
      timestamp are not part of this model. */
  datatype ImuSnapshot = ImuSnapshot(az: real)

  /** A tare reading; `adjustedValue` is filled in by `buildModel`. */
  datatype TareSample = TareSample(id: string, value: real, snapshot: Option<ImuSnapshot>, adjustedValue: Option<real>)

  function TareSampleId(s: TareSample): string { s.id }

  datatype TareMethod = Basic | ImuRegression

  /** The tare model: a constant bias with a 1-sigma uncertainty, or a
      regression of the reading on vertical acceleration. */
  datatype TareModel = TareModel(
    isReady: bool,
    tareMethod: TareMethod,
    bias: real,
    tareUncertainty: real,
    slopeK: Option<real>,
    residualsSigma: Option<real>,
    n: nat,
    rSquared: Option<Num>)

  /** A bias-corrected reading of a measurement session. */
  datatype Measurement = Measurement(id: string, rawReading: real, snapshot: Option<ImuSnapshot>, modelBiasUsed: real, adjustedValue: real)

  function MeasurementId(m: Measurement): string { m.id }

  /** What `calculateResult` returns (the session kind is added by the caller). */
  datatype SessionResult = SessionResult(
    measurements: seq<Measurement>,
    fixedValue: real,
    nTrim: nat,
    stdDev: real,
    stdError: real,
    tareSigma: real,
    sigmaTotal: real,
    kFactor: real,
    errorBand95: real,
    bias: real)
}
