/** Properties of the two scale-up formulas: the two similarity laws agree,
    time and speed scale-up are inverse to each other, only the ratio of
    the diameters matters, positive data give positive answers, and the
    calculator's default inputs give the documented answers. */
module ScaleUpProperties {
  import opened Wrappers
  import opened Rounding
  import opened ScaleUp

  /** Two solutions of one product relation with a nonzero known factor
      are the same number. */
  lemma UniqueFactor(known: real, x: real, y: real)
    requires known != 0.0 && known * x == known * y
    ensures x == y
  {
  }

  /** Tip speed and tip distance give the same unrounded time, because the
      factor pi cancels. */
  lemma TimeMethodsAgree(dSmallMm: real, nSmall: real, tSmallSec: real, dLargeMm: real, nLarge: real)
    requires dLargeMm != 0.0 && nLarge != 0.0
    ensures TimeScaleupMinutes(TipSpeed, dSmallMm, nSmall, tSmallSec, dLargeMm, nLarge)
         == TimeScaleupMinutes(TipDistance, dSmallMm, nSmall, tSmallSec, dLargeMm, nLarge)
  {
    var known := MillimetresToMetres(dLargeMm) * nLarge;
    UniqueFactor(known, TimeScaleupMinutes(TipSpeed, dSmallMm, nSmall, tSmallSec, dLargeMm, nLarge),
                        TimeScaleupMinutes(TipDistance, dSmallMm, nSmall, tSmallSec, dLargeMm, nLarge));
  }

  /** Tip speed and tip distance give the same unrounded speed. */
  lemma RpmMethodsAgree(dSmallMm: real, nSmall: real, tSmallSec: real, dLargeMm: real, tLargeSec: real)
    requires dLargeMm != 0.0 && tLargeSec != 0.0
    ensures RpmScaleupExact(TipSpeed, dSmallMm, nSmall, tSmallSec, dLargeMm, tLargeSec)
         == RpmScaleupExact(TipDistance, dSmallMm, nSmall, tSmallSec, dLargeMm, tLargeSec)
  {
    var a := RpmScaleupExact(TipSpeed, dSmallMm, nSmall, tSmallSec, dLargeMm, tLargeSec);
    var b := RpmScaleupExact(TipDistance, dSmallMm, nSmall, tSmallSec, dLargeMm, tLargeSec);
    assert (dLargeMm * tLargeSec) * a == (dLargeMm * tLargeSec) * b;
    UniqueFactor(dLargeMm * tLargeSec, a, b);
  }

  /** Choosing either label gives the same rounded granulation time. */
  lemma GranulationTimeMethodsAgree(dSmallMm: real, nSmall: real, tSmallSec: real, dLargeMm: real, nLarge: real)
    requires dLargeMm != 0.0 && nLarge != 0.0
    ensures GranulationTimeScaleup(TipSpeedName, dSmallMm, nSmall, tSmallSec, dLargeMm, nLarge)
         == GranulationTimeScaleup(TipDistanceName, dSmallMm, nSmall, tSmallSec, dLargeMm, nLarge)
  {
    TimeMethodsAgree(dSmallMm, nSmall, tSmallSec, dLargeMm, nLarge);
  }

  /** Choosing either label gives the same rounded impeller speed. */
  lemma ImpellerRpmMethodsAgree(dSmallMm: real, nSmall: real, tSmallSec: real, dLargeMm: real, tLargeSec: real)
    requires dLargeMm != 0.0 && tLargeSec != 0.0
    ensures ImpellerRpmScaleup(TipSpeedName, dSmallMm, nSmall, tSmallSec, dLargeMm, tLargeSec)
         == ImpellerRpmScaleup(TipDistanceName, dSmallMm, nSmall, tSmallSec, dLargeMm, tLargeSec)
  {
    RpmMethodsAgree(dSmallMm, nSmall, tSmallSec, dLargeMm, tLargeSec);
  }

  /** Any other label is rejected by both operations, whatever the numbers
      (no division is attempted, so zero inputs are harmless here). */
  lemma UnrecognisedMethodRejected(methodName: string, dSmallMm: real, nSmall: real, tSmallSec: real,
                                   dLargeMm: real, nLarge: real, tLargeSec: real)
    requires methodName != TipSpeedName && methodName != TipDistanceName
    ensures GranulationTimeScaleup(methodName, dSmallMm, nSmall, tSmallSec, dLargeMm, nLarge) == None
    ensures ImpellerRpmScaleup(methodName, dSmallMm, nSmall, tSmallSec, dLargeMm, tLargeSec) == None
  {
  }

  /** Feeding the unrounded large-scale time back into the speed formula
      recovers the large-scale speed it was computed for. */
  lemma TimeThenRpmRoundTrip(m: Method, dSmallMm: real, nSmall: real, tSmallSec: real, dLargeMm: real, nLarge: real)
    requires dSmallMm != 0.0 && nSmall != 0.0 && tSmallSec != 0.0 && dLargeMm != 0.0 && nLarge != 0.0
    ensures TimeScaleupSeconds(m, dSmallMm, nSmall, tSmallSec, dLargeMm, nLarge) != 0.0
    ensures RpmScaleupExact(m, dSmallMm, nSmall, tSmallSec, dLargeMm,
                            TimeScaleupSeconds(m, dSmallMm, nSmall, tSmallSec, dLargeMm, nLarge)) == nLarge
  {
    var t := TimeScaleupSeconds(m, dSmallMm, nSmall, tSmallSec, dLargeMm, nLarge);
    var rhs := dSmallMm * nSmall * tSmallSec;
    assert rhs != 0.0;
    assert t != 0.0;
    var n := RpmScaleupExact(m, dSmallMm, nSmall, tSmallSec, dLargeMm, t);
    assert (dLargeMm * t) * n == (dLargeMm * t) * nLarge;
    UniqueFactor(dLargeMm * t, n, nLarge);
  }

  /** Feeding the unrounded large-scale speed back into the time formula
      recovers the large-scale time it was computed for. */
  lemma RpmThenTimeRoundTrip(m: Method, dSmallMm: real, nSmall: real, tSmallSec: real, dLargeMm: real, tLargeSec: real)
    requires dSmallMm != 0.0 && nSmall != 0.0 && tSmallSec != 0.0 && dLargeMm != 0.0 && tLargeSec != 0.0
    ensures RpmScaleupExact(m, dSmallMm, nSmall, tSmallSec, dLargeMm, tLargeSec) != 0.0
    ensures TimeScaleupSeconds(m, dSmallMm, nSmall, tSmallSec, dLargeMm,
                               RpmScaleupExact(m, dSmallMm, nSmall, tSmallSec, dLargeMm, tLargeSec)) == tLargeSec
  {
    var n := RpmScaleupExact(m, dSmallMm, nSmall, tSmallSec, dLargeMm, tLargeSec);
    var rhs := dSmallMm * nSmall * tSmallSec;
    assert rhs != 0.0;
    assert n != 0.0;
    var t := TimeScaleupSeconds(m, dSmallMm, nSmall, tSmallSec, dLargeMm, n);
    assert (dLargeMm * n) * t == (dLargeMm * n) * tLargeSec;
    UniqueFactor(dLargeMm * n, t, tLargeSec);
  }

  /** The round trip through the operations themselves: the speed is
      recovered up to the two-decimal rounding, and exactly when it
      already had at most two decimals. */
  lemma GranulationThenImpellerRoundTrip(methodName: string, dSmallMm: real, nSmall: real, tSmallSec: real,
                                         dLargeMm: real, nLarge: real)
    requires ParseMethod(methodName).Some?
    requires dSmallMm != 0.0 && nSmall != 0.0 && tSmallSec != 0.0 && dLargeMm != 0.0 && nLarge != 0.0
    ensures var t := TimeScaleupSeconds(ParseMethod(methodName).value, dSmallMm, nSmall, tSmallSec, dLargeMm, nLarge);
            t != 0.0 &&
            ImpellerRpmScaleup(methodName, dSmallMm, nSmall, tSmallSec, dLargeMm, t) == Some(Round2(nLarge))
    ensures IsHundredths(nLarge) ==>
            ImpellerRpmScaleup(methodName, dSmallMm, nSmall, tSmallSec, dLargeMm,
              TimeScaleupSeconds(ParseMethod(methodName).value, dSmallMm, nSmall, tSmallSec, dLargeMm, nLarge))
            == Some(nLarge)
  {
    var m := ParseMethod(methodName).value;
    TimeThenRpmRoundTrip(m, dSmallMm, nSmall, tSmallSec, dLargeMm, nLarge);
    if IsHundredths(nLarge) {
      var h := (nLarge * 100.0).Floor;
      assert h as real / 100.0 == nLarge;
      Round2OfHundredths(h);
    }
  }

  /** Only the ratio of the two diameters matters for the time. */
  lemma TimeScaleInvariant(m: Method, k: real, dSmallMm: real, nSmall: real, tSmallSec: real,
                           dLargeMm: real, nLarge: real)
    requires k != 0.0 && dLargeMm != 0.0 && nLarge != 0.0
    ensures TimeScaleupSeconds(m, k * dSmallMm, nSmall, tSmallSec, k * dLargeMm, nLarge)
         == TimeScaleupSeconds(m, dSmallMm, nSmall, tSmallSec, dLargeMm, nLarge)
  {
    var a := TimeScaleupSeconds(m, k * dSmallMm, nSmall, tSmallSec, k * dLargeMm, nLarge);
    var b := TimeScaleupSeconds(m, dSmallMm, nSmall, tSmallSec, dLargeMm, nLarge);
    assert k * (dLargeMm * nLarge * a) == k * (dLargeMm * nLarge * b);
    assert (dLargeMm * nLarge) * a == (dLargeMm * nLarge) * b;
    UniqueFactor(dLargeMm * nLarge, a, b);
  }

  /** Only the ratio of the two diameters matters for the speed. */
  lemma RpmScaleInvariant(m: Method, k: real, dSmallMm: real, nSmall: real, tSmallSec: real,
                          dLargeMm: real, tLargeSec: real)
    requires k != 0.0 && dLargeMm != 0.0 && tLargeSec != 0.0
    ensures RpmScaleupExact(m, k * dSmallMm, nSmall, tSmallSec, k * dLargeMm, tLargeSec)
         == RpmScaleupExact(m, dSmallMm, nSmall, tSmallSec, dLargeMm, tLargeSec)
  {
    var a := RpmScaleupExact(m, k * dSmallMm, nSmall, tSmallSec, k * dLargeMm, tLargeSec);
    var b := RpmScaleupExact(m, dSmallMm, nSmall, tSmallSec, dLargeMm, tLargeSec);
    assert k * (dLargeMm * tLargeSec * a) == k * (dLargeMm * tLargeSec * b);
    assert (dLargeMm * tLargeSec) * a == (dLargeMm * tLargeSec) * b;
    UniqueFactor(dLargeMm * tLargeSec, a, b);
  }

  /** Scale invariance carries over to both rounded operations. */
  lemma OperationsScaleInvariant(methodName: string, k: real, dSmallMm: real, nSmall: real, tSmallSec: real,
                                 dLargeMm: real, nLarge: real, tLargeSec: real)
    requires k != 0.0 && dLargeMm != 0.0 && nLarge != 0.0 && tLargeSec != 0.0
    ensures GranulationTimeScaleup(methodName, k * dSmallMm, nSmall, tSmallSec, k * dLargeMm, nLarge)
         == GranulationTimeScaleup(methodName, dSmallMm, nSmall, tSmallSec, dLargeMm, nLarge)
    ensures ImpellerRpmScaleup(methodName, k * dSmallMm, nSmall, tSmallSec, k * dLargeMm, tLargeSec)
         == ImpellerRpmScaleup(methodName, dSmallMm, nSmall, tSmallSec, dLargeMm, tLargeSec)
  {
    assert k * dLargeMm != 0.0;
    match ParseMethod(methodName)
    case None =>
    case Some(m) =>
      TimeScaleInvariant(m, k, dSmallMm, nSmall, tSmallSec, dLargeMm, nLarge);
      RpmScaleInvariant(m, k, dSmallMm, nSmall, tSmallSec, dLargeMm, tLargeSec);
  }

  /** Strictly positive data give a strictly positive unrounded time. */
  lemma TimePositive(m: Method, dSmallMm: real, nSmall: real, tSmallSec: real, dLargeMm: real, nLarge: real)
    requires dSmallMm > 0.0 && nSmall > 0.0 && tSmallSec > 0.0 && dLargeMm > 0.0 && nLarge > 0.0
    ensures TimeScaleupSeconds(m, dSmallMm, nSmall, tSmallSec, dLargeMm, nLarge) > 0.0
  {
    var t := TimeScaleupSeconds(m, dSmallMm, nSmall, tSmallSec, dLargeMm, nLarge);
    assert dSmallMm * nSmall * tSmallSec > 0.0;
    assert dLargeMm * nLarge > 0.0;
  }

  /** Strictly positive data give a strictly positive unrounded speed. */
  lemma RpmPositive(m: Method, dSmallMm: real, nSmall: real, tSmallSec: real, dLargeMm: real, tLargeSec: real)
    requires dSmallMm > 0.0 && nSmall > 0.0 && tSmallSec > 0.0 && dLargeMm > 0.0 && tLargeSec > 0.0
    ensures RpmScaleupExact(m, dSmallMm, nSmall, tSmallSec, dLargeMm, tLargeSec) > 0.0
  {
    var n := RpmScaleupExact(m, dSmallMm, nSmall, tSmallSec, dLargeMm, tLargeSec);
    assert dSmallMm * nSmall * tSmallSec > 0.0;
    assert dLargeMm * tLargeSec > 0.0;
  }

  /** With strictly positive data neither operation returns a negative
      number (rounding may bring a result below 0.005 down to zero). */
  lemma OperationsNonNegative(methodName: string, dSmallMm: real, nSmall: real, tSmallSec: real,
                              dLargeMm: real, nLarge: real, tLargeSec: real)
    requires dSmallMm > 0.0 && nSmall > 0.0 && tSmallSec > 0.0 && dLargeMm > 0.0 && nLarge > 0.0
    requires tLargeSec > 0.0
    ensures GranulationTimeScaleup(methodName, dSmallMm, nSmall, tSmallSec, dLargeMm, nLarge).Some? ==>
            GranulationTimeScaleup(methodName, dSmallMm, nSmall, tSmallSec, dLargeMm, nLarge).value >= 0.0
    ensures ImpellerRpmScaleup(methodName, dSmallMm, nSmall, tSmallSec, dLargeMm, tLargeSec).Some? ==>
            ImpellerRpmScaleup(methodName, dSmallMm, nSmall, tSmallSec, dLargeMm, tLargeSec).value >= 0.0
  {
    match ParseMethod(methodName)
    case None =>
    case Some(m) =>
      TimePositive(m, dSmallMm, nSmall, tSmallSec, dLargeMm, nLarge);
      Round2NonNegative(TimeScaleupSeconds(m, dSmallMm, nSmall, tSmallSec, dLargeMm, nLarge));
      RpmPositive(m, dSmallMm, nSmall, tSmallSec, dLargeMm, tLargeSec);
      Round2NonNegative(RpmScaleupExact(m, dSmallMm, nSmall, tSmallSec, dLargeMm, tLargeSec));
  }

  /** The calculator's default inputs: 200 mm at 100 RPM for 180 s scaled
      to 600 mm at 50 RPM takes 120 s, and to 600 mm for 120 s needs 50 RPM. */
  lemma DefaultInputs()
    ensures GranulationTimeScaleup(TipSpeedName, 200.0, 100.0, 180.0, 600.0, 50.0) == Some(120.0)
    ensures GranulationTimeScaleup(TipDistanceName, 200.0, 100.0, 180.0, 600.0, 50.0) == Some(120.0)
    ensures ImpellerRpmScaleup(TipSpeedName, 200.0, 100.0, 180.0, 600.0, 120.0) == Some(50.0)
    ensures ImpellerRpmScaleup(TipDistanceName, 200.0, 100.0, 180.0, 600.0, 120.0) == Some(50.0)
  {
    var t := TimeScaleupSeconds(TipDistance, 200.0, 100.0, 180.0, 600.0, 50.0);
    SolveForFactor(600.0 * 50.0, t, 200.0 * 100.0 * 180.0);
    assert t == 120.0;
    Round2OfHundredths(12000);
    GranulationTimeMethodsAgree(200.0, 100.0, 180.0, 600.0, 50.0);
    var n := RpmScaleupExact(TipDistance, 200.0, 100.0, 180.0, 600.0, 120.0);
    SolveForFactor(600.0 * 120.0, n, 200.0 * 100.0 * 180.0);
    assert n == 50.0;
    Round2OfHundredths(5000);
    ImpellerRpmMethodsAgree(200.0, 100.0, 180.0, 600.0, 120.0);
  }
}
