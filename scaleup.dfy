/** The two scale-up formulas of the rapid mixer granulator (RMG) calculator.

    Inputs come in the units the operator types: impeller diameters in
    millimetres, impeller speeds in RPM, granulation times in seconds. Each
    formula converts diameters to metres and times to minutes, solves the
    similarity law  D_small * N_small * t_small == D_large * N_large * t_large
    for the one unknown, and rounds the answer to two decimals. */
module ScaleUp {
  import opened Wrappers
  import opened Rounding

  type PositiveReal = x: real | x > 0.0 witness 1.0

  /** The circle constant. Only its positivity is relied on. */
  const Pi: PositiveReal

  const TipSpeedName: string := "Tip Speed (Shear Matching)"
  const TipDistanceName: string := "Tip Distance (Total Exposure Matching)"

  /** The similarity law held equal between the two scales. */
  datatype Method = TipSpeed | TipDistance

  /** The method selector is compared with the two exact labels; anything
      else is an invalid method. */
  function ParseMethod(name: string): (m: Option<Method>)
    ensures m == Some(TipSpeed) <==> name == TipSpeedName
    ensures m == Some(TipDistance) <==> name == TipDistanceName
    ensures m.None? <==> name != TipSpeedName && name != TipDistanceName
  {
    if name == TipSpeedName then Some(TipSpeed)
    else if name == TipDistanceName then Some(TipDistance)
    else None
  }

  function MillimetresToMetres(mm: real): (m: real)
    ensures m * 1000.0 == mm
  {
    mm / 1000.0
  }

  function SecondsToMinutes(s: real): (min: real)
    ensures min * 60.0 == s
  {
    s / 60.0
  }

  function MinutesToSeconds(min: real): (s: real)
    ensures SecondsToMinutes(s) == min
  {
    min * 60.0
  }

  /** Large-scale granulation time in minutes, before rounding. The
      tip-speed law compares tip speeds pi * D * N, so pi appears on both
      sides; the tip-distance law leaves it out. */
  function TimeScaleupMinutes(m: Method, dSmallMm: real, nSmall: real, tSmallSec: real,
                              dLargeMm: real, nLarge: real): (tLargeMin: real)
    requires dLargeMm != 0.0 && nLarge != 0.0
    ensures MillimetresToMetres(dLargeMm) * nLarge * tLargeMin
         == MillimetresToMetres(dSmallMm) * nSmall * SecondsToMinutes(tSmallSec)
  {
    var dSmall := MillimetresToMetres(dSmallMm);
    var dLarge := MillimetresToMetres(dLargeMm);
    var tSmallMin := SecondsToMinutes(tSmallSec);
    match m
    case TipSpeed =>
      var vSmall := Pi * dSmall * nSmall;
      var denominator := Pi * dLarge * nLarge;
      assert denominator != 0.0;
      (vSmall * tSmallMin) / denominator
    case TipDistance =>
      var denominator := dLarge * nLarge;
      assert denominator != 0.0;
      (dSmall * nSmall * tSmallMin) / denominator
  }

  /** Large-scale granulation time in seconds, before rounding: the
      similarity law holds in the operator's own units. */
  function TimeScaleupSeconds(m: Method, dSmallMm: real, nSmall: real, tSmallSec: real,
                              dLargeMm: real, nLarge: real): (tLargeSec: real)
    requires dLargeMm != 0.0 && nLarge != 0.0
    ensures dLargeMm * nLarge * tLargeSec == dSmallMm * nSmall * tSmallSec
  {
    MinutesToSeconds(TimeScaleupMinutes(m, dSmallMm, nSmall, tSmallSec, dLargeMm, nLarge))
  }

  /** Large-scale impeller speed in RPM, before rounding. */
  function RpmScaleupExact(m: Method, dSmallMm: real, nSmall: real, tSmallSec: real,
                           dLargeMm: real, tLargeSec: real): (nLarge: real)
    requires dLargeMm != 0.0 && tLargeSec != 0.0
    ensures MillimetresToMetres(dLargeMm) * nLarge * SecondsToMinutes(tLargeSec)
         == MillimetresToMetres(dSmallMm) * nSmall * SecondsToMinutes(tSmallSec)
    ensures dLargeMm * nLarge * tLargeSec == dSmallMm * nSmall * tSmallSec
  {
    var dSmall := MillimetresToMetres(dSmallMm);
    var dLarge := MillimetresToMetres(dLargeMm);
    var tSmallMin := SecondsToMinutes(tSmallSec);
    var tLargeMin := SecondsToMinutes(tLargeSec);
    match m
    case TipSpeed =>
      var numerator := Pi * dSmall * nSmall * tSmallMin;
      var denominator := Pi * dLarge * tLargeMin;
      assert denominator != 0.0;
      numerator / denominator
    case TipDistance =>
      var numerator := dSmall * nSmall * tSmallMin;
      var denominator := dLarge * tLargeMin;
      assert denominator != 0.0;
      numerator / denominator
  }

  /** The unknown of a product relation is the quotient. */
  lemma SolveForFactor(known: real, unknown: real, product: real)
    requires known != 0.0 && known * unknown == product
    ensures unknown == product / known
  {
  }

  /** `granulation_time_scaleup`: the large-scale granulation time in
      seconds, rounded to two decimals, or None for an unknown method. */
  function GranulationTimeScaleup(methodName: string, dSmallMm: real, nSmall: real, tSmallSec: real,
                                  dLargeMm: real, nLarge: real): (r: Option<real>)
    requires ParseMethod(methodName).Some? ==> dLargeMm != 0.0 && nLarge != 0.0
    ensures r.None? <==> methodName != TipSpeedName && methodName != TipDistanceName
    ensures r.Some? ==> IsHundredths(r.value)
    ensures r.Some? ==>
      var exact := dSmallMm * nSmall * tSmallSec / (dLargeMm * nLarge);
      exact - 0.005 <= r.value <= exact + 0.005
  {
    match ParseMethod(methodName)
    case None => None
    case Some(m) =>
      var t := TimeScaleupSeconds(m, dSmallMm, nSmall, tSmallSec, dLargeMm, nLarge);
      SolveForFactor(dLargeMm * nLarge, t, dSmallMm * nSmall * tSmallSec);
      Some(Round2(t))
  }

  /** `impeller_rpm_scaleup`: the large-scale impeller speed in RPM,
      rounded to two decimals, or None for an unknown method. */
  function ImpellerRpmScaleup(methodName: string, dSmallMm: real, nSmall: real, tSmallSec: real,
                              dLargeMm: real, tLargeSec: real): (r: Option<real>)
    requires ParseMethod(methodName).Some? ==> dLargeMm != 0.0 && tLargeSec != 0.0
    ensures r.None? <==> methodName != TipSpeedName && methodName != TipDistanceName
    ensures r.Some? ==> IsHundredths(r.value)
    ensures r.Some? ==>
      var exact := dSmallMm * nSmall * tSmallSec / (dLargeMm * tLargeSec);
      exact - 0.005 <= r.value <= exact + 0.005
  {
    match ParseMethod(methodName)
    case None => None
    case Some(m) =>
      var n := RpmScaleupExact(m, dSmallMm, nSmall, tSmallSec, dLargeMm, tLargeSec);
      assert dLargeMm * tLargeSec * n == dLargeMm * n * tLargeSec;
      SolveForFactor(dLargeMm * tLargeSec, n, dSmallMm * nSmall * tSmallSec);
      Some(Round2(n))
  }
}
