/** The manual session manager of the older generation
    (`session/ManualSessionManager.ts`): the readings of one base or final
    session, each corrected by the bias locked in when the session started.
    Ids and timestamps come from the caller. */
module ManualSessionManager {
  import opened Numeric
  import opened RootTypes
  import opened IdList
  import SessionCalculator

  /** A reading as `addMeasurement` records it under the locked values. */
  predicate Recorded(m: ManualMeasurement, kind: SessionKind, bias: real, tareUnc95: real)
  {
    m.kind == kind && m.bias == bias && m.tareUncertainty95 == tareUnc95 &&
    m.correctedValue == Finite(m.scaleReading - bias)
  }

  /** A recorded reading counts for the calculator exactly when the scale
      read more than the locked bias. */
  lemma {:induction false} RecordedValidity(m: ManualMeasurement, kind: SessionKind, bias: real, tareUnc95: real)
    requires Recorded(m, kind, bias, tareUnc95)
    ensures SessionCalculator.IsValid(m) <==> m.scaleReading > bias
  {
  }

  class ManualSessionManager {
    var measurements: seq<ManualMeasurement>
    const kind: SessionKind
    var lockedBias: real
    var lockedTareUnc95: real

    /** Every stored reading carries this session's kind and locked values,
        and its corrected value is the reading minus the locked bias. */
    predicate Consistent()
      reads this
    {
      forall i :: 0 <= i < |measurements| ==> Recorded(measurements[i], kind, lockedBias, lockedTareUnc95)
    }

    /** `new ManualSessionManager(kind)`: no readings, bias and T95 zero. */
    constructor(kind: SessionKind)
      ensures this.kind == kind && measurements == [] && lockedBias == 0.0 && lockedTareUnc95 == 0.0
      ensures Consistent()
    {
      this.kind := kind;
      measurements := [];
      lockedBias := 0.0;
      lockedTareUnc95 := 0.0;
    }

    /** `startSession`: forgets the readings and locks the new values. */
    method StartSession(lockedBias: real, lockedTareUnc95: real)
      modifies this
      ensures measurements == [] && this.lockedBias == lockedBias && this.lockedTareUnc95 == lockedTareUnc95
      ensures Consistent()
    {
      measurements := [];
      this.lockedBias := lockedBias;
      this.lockedTareUnc95 := lockedTareUnc95;
    }

    /** `addMeasurement`: records the reading under the locked values and
        appends it. */
    method AddMeasurement(scaleReading: real, id: string, timestamp: int) returns (m: ManualMeasurement)
      modifies this
      ensures m == ManualMeasurement(id, timestamp, kind, scaleReading, lockedBias, lockedTareUnc95,
                                     Finite(scaleReading - lockedBias))
      ensures measurements == old(measurements) + [m]
      ensures lockedBias == old(lockedBias) && lockedTareUnc95 == old(lockedTareUnc95)
      ensures old(Consistent()) ==> Consistent()
    {
      m := ManualMeasurement(id, timestamp, kind, scaleReading, lockedBias, lockedTareUnc95,
                             Finite(scaleReading - lockedBias));
      measurements := measurements + [m];
    }

    /** `removeMeasurement`: drops every reading with that id. */
    method RemoveMeasurement(id: string)
      modifies this
      ensures measurements == Without(old(measurements), ManualMeasurementId, id)
      ensures lockedBias == old(lockedBias) && lockedTareUnc95 == old(lockedTareUnc95)
      ensures old(Consistent()) ==> Consistent()
    {
      measurements := Without(measurements, ManualMeasurementId, id);
      if old(Consistent()) {
        forall i | 0 <= i < |measurements| ensures Recorded(measurements[i], kind, lockedBias, lockedTareUnc95) {
          assert measurements[i] in old(measurements);
          var j :| 0 <= j < |old(measurements)| && old(measurements)[j] == measurements[i];
          assert Recorded(old(measurements)[j], kind, lockedBias, lockedTareUnc95);
        }
      }
    }

    /** `getMeasurements`: a copy of the readings. */
    method GetMeasurements() returns (r: seq<ManualMeasurement>)
      ensures r == measurements
    {
      r := measurements;
    }

    /** `getLockedValues` */
    method GetLockedValues() returns (bias: real, tareUnc95: real)
      ensures bias == lockedBias && tareUnc95 == lockedTareUnc95
    {
      bias, tareUnc95 := lockedBias, lockedTareUnc95;
    }
  }
}
