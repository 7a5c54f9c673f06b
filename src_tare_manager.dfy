/** The tare manager of the newer generation (`src/session/TareManager.ts`):
    tare readings with optional motion snapshots and `buildModel`, which
    fits the reading against vertical acceleration when that is switched on
    and possible, and otherwise takes the median with a half-range
    uncertainty; either way it writes the adjusted value of every reading
    back into the list. Ids come from the caller. */
module SrcTareManager {
  import opened Numeric
  import opened Sorting
  import opened MathUtils
  import opened SrcTypes
  import opened IdList

  function SampleValues(samples: seq<TareSample>): (r: seq<real>)
    ensures |r| == |samples| && forall i :: 0 <= i < |r| ==> r[i] == samples[i].value
  {
    seq(|samples|, i requires 0 <= i < |samples| => samples[i].value)
  }

  /** The fit `buildModel` uses: present only when the regression is switched
      on and `fitTareRegression` succeeds. */
  function ModelFit(samples: seq<TareSample>, useImu: bool, sqrt: real -> real): Option<Fit>
  {
    if |samples| == 0 || !useImu then None else FitSpec(samples, sqrt)
  }

  /** The regression model of `n` readings. */
  function RegressionModel(fit: Fit, n: nat): TareModel
  {
    TareModel(true, ImuRegression, fit.b, fit.sigmaEps, Some(fit.k), Some(fit.sigmaEps), n, Some(fit.r2))
  }

  /** The basic model: median and half of the half range. */
  function BasicModel(samples: seq<TareSample>): TareModel
  {
    var n := |samples|;
    var values := SampleValues(samples);
    var halfRange := if n > 1 then (Max(values) - Min(values)) / 2.0 else 0.0;
    TareModel(true, Basic, CalculateMedian(values), halfRange / 2.0, None, None, n, None)
  }

  /** The model `buildModel` returns for the readings `samples`. */
  function ModelOf(samples: seq<TareSample>, useImu: bool, sqrt: real -> real): TareModel
  {
    var fit := ModelFit(samples, useImu, sqrt);
    if |samples| == 0 then TareModel(false, Basic, 0.0, 0.0, None, None, 0, None)
    else if fit.Some? then RegressionModel(fit.value, |samples|)
    else BasicModel(samples)
  }

  /** A reading with its adjusted value under the fit: the reading less
      k·az when it has a snapshot, unchanged otherwise. */
  function AdjustByFit(s: TareSample, k: real): TareSample
  {
    if s.snapshot.None? then s else s.(adjustedValue := Some(s.value - k * s.snapshot.value.az))
  }

  /** The adjusted value of a reading with a snapshot is the intercept plus
      its residual against the line; a reading without one is untouched. */
  lemma {:induction false} AdjustByFitResidual(s: TareSample, b: real, k: real)
    ensures s.snapshot.None? ==> AdjustByFit(s, k) == s
    ensures s.snapshot.Some? ==>
      var t := AdjustByFit(s, k);
      && t.id == s.id && t.value == s.value && t.snapshot == s.snapshot
      && t.adjustedValue.Some? && t.adjustedValue.value == b + Residual(s.value, s.snapshot.value.az, b, k)
  {
  }

  function ApplyFit(samples: seq<TareSample>, k: real): (r: seq<TareSample>)
    ensures |r| == |samples| && forall i :: 0 <= i < |r| ==> r[i] == AdjustByFit(samples[i], k)
  {
    seq(|samples|, i requires 0 <= i < |samples| => AdjustByFit(samples[i], k))
  }

  function ApplyRaw(samples: seq<TareSample>): (r: seq<TareSample>)
    ensures |r| == |samples| && forall i :: 0 <= i < |r| ==> r[i] == samples[i].(adjustedValue := Some(samples[i].value))
  {
    seq(|samples|, i requires 0 <= i < |samples| => samples[i].(adjustedValue := Some(samples[i].value)))
  }

  /** The readings as `buildModel` leaves them. */
  function AdjustedOf(samples: seq<TareSample>, useImu: bool, sqrt: real -> real): (r: seq<TareSample>)
    ensures |r| == |samples|
  {
    var fit := ModelFit(samples, useImu, sqrt);
    if |samples| == 0 then samples
    else if fit.Some? then ApplyFit(samples, fit.value.k)
    else ApplyRaw(samples)
  }

  /** With no readings the model is not ready and nothing is fitted;
      otherwise it is ready and counts every reading. */
  lemma {:induction false} ModelReadiness(samples: seq<TareSample>, useImu: bool, sqrt: real -> real)
    ensures var m := ModelOf(samples, useImu, sqrt);
      && (m.isReady <==> |samples| >= 1) && m.n == |samples|
      && (|samples| == 0 ==> m.tareMethod == Basic && m.bias == 0.0 && m.tareUncertainty == 0.0)
  {
  }

  /** The regression is used exactly when it is switched on and the fit
      exists, which takes at least three readings with a snapshot. */
  lemma {:induction false} ModelUsesRegression(samples: seq<TareSample>, useImu: bool, sqrt: real -> real)
    ensures ModelOf(samples, useImu, sqrt).tareMethod == ImuRegression <==>
      useImu && FitSpec(samples, sqrt).Some?
    ensures ModelOf(samples, useImu, sqrt).tareMethod == ImuRegression ==> 3 <= |WithSnapshot(samples)|
  {
    FitSpecNone(samples, sqrt);
  }

  /** The regression model: the intercept as bias, the residual sigma as both
      the 1-sigma tare and the residuals sigma, never negative; every reading
      is adjusted by the fitted slope. */
  lemma {:induction false} ModelRegression(samples: seq<TareSample>, useImu: bool, sqrt: real -> real)
    requires IsSqrt(sqrt) && useImu && FitSpec(samples, sqrt).Some?
    ensures var m, fit, adj := ModelOf(samples, useImu, sqrt), FitSpec(samples, sqrt).value, AdjustedOf(samples, useImu, sqrt);
      && m.tareMethod == ImuRegression && m.bias == fit.b && m.slopeK == Some(fit.k)
      && m.tareUncertainty == fit.sigmaEps && m.residualsSigma == Some(fit.sigmaEps) && 0.0 <= m.tareUncertainty
      && m.rSquared == Some(fit.r2)
      && forall i :: 0 <= i < |samples| ==> adj[i] == AdjustByFit(samples[i], fit.k)
  {
    var v := WithSnapshot(samples);
    var t, z, fit := Values(v), Azs(v), FitSpec(samples, sqrt).value;
    FitLineProperties(t, z, sqrt, fit);
    SlopedLine(t, z, CalculateMean(t), CalculateMean(z), fit.k, sqrt, fit);
  }

  /** The basic model: the median of the readings as bias and a quarter of
      their range as the 1-sigma tare (half of the half range); every
      reading's adjusted value is its raw value. */
  lemma {:induction false} ModelBasic(samples: seq<TareSample>, useImu: bool, sqrt: real -> real)
    requires |samples| >= 1 && (!useImu || FitSpec(samples, sqrt).None?)
    ensures var m, vs, adj := ModelOf(samples, useImu, sqrt), SampleValues(samples), AdjustedOf(samples, useImu, sqrt);
      && m.tareMethod == Basic && m.slopeK.None? && m.residualsSigma.None? && m.rSquared.None?
      && m.bias == CalculateMedian(vs) && Min(vs) <= m.bias <= Max(vs)
      && 4.0 * m.tareUncertainty == Max(vs) - Min(vs) && 0.0 <= m.tareUncertainty
      && forall i :: 0 <= i < |samples| ==> adj[i] == samples[i].(adjustedValue := Some(samples[i].value))
  {
    var vs := SampleValues(samples);
    if |samples| == 1 {
      assert Max(vs) == vs[0] == Min(vs);
    }
  }

  /** `buildModel` changes nothing but the adjusted values. */
  lemma {:induction false} AdjustedKeepsReadings(samples: seq<TareSample>, useImu: bool, sqrt: real -> real)
    ensures var adj := AdjustedOf(samples, useImu, sqrt);
      forall i :: 0 <= i < |samples| ==>
        adj[i].id == samples[i].id && adj[i].value == samples[i].value && adj[i].snapshot == samples[i].snapshot
  {
  }

  class TareManager {
    var samples: seq<TareSample>
    var useIMUAdjustment: bool

    constructor(useIMU: bool)
      ensures samples == [] && useIMUAdjustment == useIMU
    {
      samples := [];
      useIMUAdjustment := useIMU;
    }

    /** `addSample`: appends a reading with no adjusted value yet and
        returns a copy of the list. */
    method AddSample(value: real, snapshot: Option<ImuSnapshot>, id: string) returns (r: seq<TareSample>)
      modifies this
      ensures samples == old(samples) + [TareSample(id, value, snapshot, None)]
      ensures useIMUAdjustment == old(useIMUAdjustment) && r == samples
    {
      samples := samples + [TareSample(id, value, snapshot, None)];
      r := samples;
    }

    /** `removeSample`: drops every reading with that id and returns a copy. */
    method RemoveSample(id: string) returns (r: seq<TareSample>)
      modifies this
      ensures samples == Without(old(samples), TareSampleId, id)
      ensures useIMUAdjustment == old(useIMUAdjustment) && r == samples
    {
      samples := Without(samples, TareSampleId, id);
      r := samples;
    }

    /** `getSamples` (the source hands out its own list; here a value). */
    method GetSamples() returns (r: seq<TareSample>)
      ensures r == samples
    {
      r := samples;
    }

    method Clear()
      modifies this
      ensures samples == [] && useIMUAdjustment == old(useIMUAdjustment)
    {
      samples := [];
    }

    /** `buildModel`: the model of the readings, with the adjusted values
        written back. */
    method BuildModel(sqrt: real -> real) returns (model: TareModel)
      modifies this
      ensures model == ModelOf(old(samples), useIMUAdjustment, sqrt)
      ensures samples == AdjustedOf(old(samples), useIMUAdjustment, sqrt)
      ensures useIMUAdjustment == old(useIMUAdjustment)
    {
      var n := |samples|;
      if n == 0 {
        return TareModel(false, Basic, 0.0, 0.0, None, None, 0, None);
      }
      if useIMUAdjustment {
        var fit := FitTareRegression(samples, sqrt);
        if fit.Some? {
          var f := fit.value;
          samples := ApplyFit(samples, f.k);
          return TareModel(true, ImuRegression, f.b, f.sigmaEps, Some(f.k), Some(f.sigmaEps), n, Some(f.r2));
        }
      }
      model := BuildBasic();
    }

    /** The basic branch of `buildModel`. */
    method BuildBasic() returns (model: TareModel)
      modifies this
      ensures model == BasicModel(old(samples)) && samples == ApplyRaw(old(samples))
      ensures useIMUAdjustment == old(useIMUAdjustment)
    {
      var n := |samples|;
      var values := SampleValues(samples);
      var bias := CalculateMedian(values);
      var halfRange := 0.0;
      if n > 1 {
        halfRange := (Max(values) - Min(values)) / 2.0;
      }
      samples := ApplyRaw(samples);
      model := TareModel(true, Basic, bias, halfRange / 2.0, None, None, n, None);
    }
  }
}
