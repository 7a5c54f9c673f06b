/** The simple measurement manager of the older generation
    (`session/SimpleMeasurementManager.ts`): the readings of a simple
    weighing, each corrected by the locked bias and carrying optional quality
    figures. Ids and timestamps come from the caller. */
module SimpleMeasurementManager {
  import opened Numeric
  import opened RootTypes
  import opened IdList
  import SimpleMeasurementCalculator

  /** A reading as `addMeasurement` records it under the locked values. */
  predicate Recorded(m: SimpleMeasurement, bias: real, tareUnc95: real)
  {
    m.bias == bias && m.tareUncertainty95 == tareUnc95 && m.correctedValue == Finite(m.scaleReading - bias)
  }

  /** The calculator ignores none of the recorded readings: their corrected
      values, in order, are the readings minus the bias. */
  lemma {:induction false} RecordedAllFinite(ms: seq<SimpleMeasurement>, bias: real, tareUnc95: real)
    requires forall i :: 0 <= i < |ms| ==> Recorded(ms[i], bias, tareUnc95)
    ensures var x := SimpleMeasurementCalculator.FiniteValues(ms);
      |x| == |ms| && forall i :: 0 <= i < |ms| ==> x[i] == ms[i].scaleReading - bias
  {
    if ms != [] {
      RecordedAllFinite(ms[1..], bias, tareUnc95);
      assert Recorded(ms[0], bias, tareUnc95);
    }
  }

  class SimpleMeasurementManager {
    var measurements: seq<SimpleMeasurement>
    var lockedBias: real
    var lockedTareUnc95: real

    /** Every stored reading carries the locked values, and its corrected
        value is the reading minus the locked bias. */
    predicate Consistent()
      reads this
    {
      forall i :: 0 <= i < |measurements| ==> Recorded(measurements[i], lockedBias, lockedTareUnc95)
    }

    /** `new SimpleMeasurementManager(initialMeasurements)`: a copy of the
        list, bias and T95 zero. The initial readings need not agree with
        the locked values. */
    constructor(initialMeasurements: seq<SimpleMeasurement>)
      ensures measurements == initialMeasurements && lockedBias == 0.0 && lockedTareUnc95 == 0.0
    {
      measurements := initialMeasurements;
      lockedBias := 0.0;
      lockedTareUnc95 := 0.0;
    }

    /** `startSession`: forgets the readings and locks the new values. */
    method StartSession(lockedBias: real, lockedTareUnc95: real)
      modifies this
      ensures measurements == [] && this.lockedBias == lockedBias && this.lockedTareUnc95 == lockedTareUnc95
      ensures Consistent()
    {
      measurements := [];
      this.lockedBias := lockedBias;
      this.lockedTareUnc95 := lockedTareUnc95;
    }

    /** `addMeasurement`: records the reading under the locked values with
        the quality figures given (none when there is no snapshot). */
    method AddMeasurement(scaleReading: real, quality: Quality, id: string, timestamp: int) returns (m: SimpleMeasurement)
      modifies this
      ensures m == SimpleMeasurement(id, timestamp, scaleReading, lockedBias, lockedTareUnc95,
                                     Finite(scaleReading - lockedBias), quality)
      ensures measurements == old(measurements) + [m]
      ensures lockedBias == old(lockedBias) && lockedTareUnc95 == old(lockedTareUnc95)
      ensures old(Consistent()) ==> Consistent()
    {
      m := SimpleMeasurement(id, timestamp, scaleReading, lockedBias, lockedTareUnc95,
                             Finite(scaleReading - lockedBias), quality);
      measurements := measurements + [m];
    }

    /** `removeMeasurement`: drops every reading with that id. */
    method RemoveMeasurement(id: string)
      modifies this
      ensures measurements == Without(old(measurements), SimpleMeasurementId, id)
      ensures lockedBias == old(lockedBias) && lockedTareUnc95 == old(lockedTareUnc95)
      ensures old(Consistent()) ==> Consistent()
    {
      measurements := Without(measurements, SimpleMeasurementId, id);
      if old(Consistent()) {
        forall i | 0 <= i < |measurements| ensures Recorded(measurements[i], lockedBias, lockedTareUnc95) {
          assert measurements[i] in old(measurements);
          var j :| 0 <= j < |old(measurements)| && old(measurements)[j] == measurements[i];
          assert Recorded(old(measurements)[j], lockedBias, lockedTareUnc95);
        }
      }
    }

    /** `clear`: forgets the readings and keeps the locked values. */
    method Clear()
      modifies this
      ensures measurements == [] && lockedBias == old(lockedBias) && lockedTareUnc95 == old(lockedTareUnc95)
      ensures Consistent()
    {
      measurements := [];
    }

    /** `getMeasurements`: a copy of the readings. */
    method GetMeasurements() returns (r: seq<SimpleMeasurement>)
      ensures r == measurements
    {
      r := measurements;
    }

    /** `getLockedValues` */
    method GetLockedValues() returns (bias: real, tareUnc95: real)
      ensures bias == lockedBias && tareUnc95 == lockedTareUnc95
    {
      bias, tareUnc95 := lockedBias, lockedTareUnc95;
    }
  }
}
