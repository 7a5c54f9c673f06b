/** The tare manager of the older generation (`session/TareManager.ts`): an
    ordered list of tare readings and the half-range estimate of the scale's
    bias over them. Ids and timestamps come from the caller. */
module RootTareManager {
  import opened Numeric
  import opened Sorting
  import opened MathUtils
  import opened RootTypes
  import opened IdList

  /** `samples.map(s => s.value)` */
  function SampleValues(samples: seq<TareSample>): (r: seq<real>)
    ensures |r| == |samples| && forall i :: 0 <= i < |r| ==> r[i] == samples[i].value
  {
    seq(|samples|, i requires 0 <= i < |samples| => samples[i].value)
  }

  /** What `estimate()` returns for the readings `samples`. */
  function EstimateOf(samples: seq<TareSample>): TareEstimate
  {
    if |samples| == 0 then TareEstimate(0, 0.0, 0.0, 0.0, NoMethod)
    else
      var values := SortAsc(SampleValues(samples));
      var t95 := (values[|values| - 1] - values[0]) / 2.0;
      TareEstimate(|samples|, MedianOfSorted(values), t95, t95 / 2.0, HalfRange)
  }

  /** No readings: the empty estimate, and only then. */
  lemma {:induction false} EstimateEmpty(samples: seq<TareSample>)
    ensures EstimateOf(samples).count == |samples|
    ensures EstimateOf(samples).estimateMethod == NoMethod <==> |samples| == 0
    ensures |samples| == 0 ==> EstimateOf(samples) == TareEstimate(0, 0.0, 0.0, 0.0, NoMethod)
  {
  }

  /** From one reading on: the bias is the median of the readings, T95 is
      half their range and the 1-sigma tare is half of T95, so every reading
      lies within 2·T95 of the bias. */
  lemma {:induction false} EstimateHalfRange(samples: seq<TareSample>)
    requires |samples| > 0
    ensures var e, vs := EstimateOf(samples), SampleValues(samples);
      && e.estimateMethod == HalfRange && e.count == |samples|
      && e.biasMedian == CalculateMedian(vs)
      && 2.0 * e.tareUncertainty95 == Max(vs) - Min(vs)
      && 2.0 * e.tareSigma == e.tareUncertainty95 && 0.0 <= e.tareSigma
      && Min(vs) <= e.biasMedian <= Max(vs)
      && forall i :: 0 <= i < |samples| ==> Abs(samples[i].value - e.biasMedian) <= 2.0 * e.tareUncertainty95
  {
    var vs := SampleValues(samples);
    SortedEnds(vs);
  }

  /** The estimate depends only on the multiset of values, not on the order
      of the readings nor on their ids and timestamps. */
  lemma {:induction false} EstimateOrderInvariant(a: seq<TareSample>, b: seq<TareSample>)
    requires multiset(SampleValues(a)) == multiset(SampleValues(b))
    ensures EstimateOf(a) == EstimateOf(b)
  {
    assert |SampleValues(a)| == |SampleValues(b)| by {
      assert |multiset(SampleValues(a))| == |multiset(SampleValues(b))|;
    }
    SortPermutationInvariant(SampleValues(a), SampleValues(b));
  }

  /** A single reading is its own bias with no spread. */
  lemma {:induction false} EstimateSingle(s: TareSample)
    ensures EstimateOf([s]) == TareEstimate(1, s.value, 0.0, 0.0, HalfRange)
  {
    assert SampleValues([s]) == [s.value];
    assert SortAsc([s.value]) == [s.value];
  }

  class TareManager {
    var samples: seq<TareSample>

    /** `new TareManager(initialSamples)` keeps a copy of the list. */
    constructor(initialSamples: seq<TareSample>)
      ensures samples == initialSamples
    {
      samples := initialSamples;
    }

    /** `addTareSample`: appends the new reading and returns it. */
    method AddTareSample(value: real, id: string, timestamp: int) returns (sample: TareSample)
      modifies this
      ensures sample == TareSample(id, timestamp, value)
      ensures samples == old(samples) + [sample]
    {
      sample := TareSample(id, timestamp, value);
      samples := samples + [sample];
    }

    /** `removeTareSample`: drops every reading with that id, keeping the
        order of the rest. */
    method RemoveTareSample(id: string)
      modifies this
      ensures samples == Without(old(samples), TareSampleId, id)
    {
      samples := Without(samples, TareSampleId, id);
    }

    method Clear()
      modifies this
      ensures samples == []
    {
      samples := [];
    }

    /** `getSamples`: a copy, so the caller cannot change the list. */
    method GetSamples() returns (r: seq<TareSample>)
      ensures r == samples
    {
      r := samples;
    }

    /** `estimate`: the empty estimate, or the median of the ascending
        values and the half range as T95. */
    method Estimate() returns (e: TareEstimate)
      ensures e == EstimateOf(samples)
    {
      var count := |samples|;
      if count == 0 {
        return TareEstimate(0, 0.0, 0.0, 0.0, NoMethod);
      }
      var values := SortAsc(SampleValues(samples));
      var median: real;
      var mid := count / 2;
      if count % 2 == 0 {
        median := (values[mid - 1] + values[mid]) / 2.0;
      } else {
        median := values[mid];
      }
      var min, max := values[0], values[count - 1];
      var t95 := (max - min) / 2.0;
      var tSigma := t95 / 2.0;
      e := TareEstimate(count, median, t95, tSigma, HalfRange);
    }
  }
}
