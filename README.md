# RMG scale-up calculator — Dafny model

The repository is a small calculator for scaling up wet granulation in a rapid
mixer granulator (RMG). Measurements from a small mixer go in: impeller
diameter in millimetres, impeller speed in RPM, and granulation time in
seconds. From them it predicts one of two things for a larger mixer:

- `granulation_time_scaleup` gives the granulation time of the large mixer,
  given its diameter and speed.
- `impeller_rpm_scaleup` gives the impeller speed of the large mixer, given
  its diameter and time.

Both formulas convert diameters to metres (`/ 1000`) and times to minutes
(`/ 60`). Both pick one of two similarity laws by an exact label:

- "Tip Speed (Shear Matching)" compares tip speeds `pi * D * N`, so `pi`
  appears on both sides of the equation.
- "Tip Distance (Total Exposure Matching)" leaves `pi` out.

Each formula then solves `D_small * N_small * t_small = D_large * N_large * t_large`
for the unknown and rounds the answer to two decimals. Any other label gives no
result.

## Layout

- `wrappers.dfy`, module `Wrappers`: an `Option` type. `None` is the
  invalid-method outcome.
- `rounding.dfy`, module `Rounding`: `round(x, 2)` over exact reals. It
  gives the nearest hundredth, and an exact tie goes to the even hundredth,
  as Python's `round` does.
- `scaleup.dfy`, module `ScaleUp`: the method labels, the unit conversions
  and the two formulas. Each formula comes in three forms: its unrounded
  value in the code's internal units, its unrounded value in the operator's
  units, and the rounded operation on a method label.
- `properties.dfy`, module `ScaleUpProperties`: lemmas relating the formulas
  to each other.

The constant `Pi` is an arbitrary positive real. The model relies only on
`Pi > 0`, so every result holds whatever value is used for pi.

The large-scale time is returned in **seconds**. The code converts it back
from minutes (`t_large_min * 60`), and the form labels the result as
seconds, following the code; returning minutes would be an equally
possible design, but it is not what this code does.

The code has no guard against zero denominators. Division by zero is
therefore a precondition: when the method label is recognised, the
large-scale diameter must be nonzero, and so must the large-scale speed (for
the time formula) or the large-scale time (for the speed formula). A
stricter design would reject such inputs with a domain error. This code has
no such error, so the model has none either.

## Model

| member | source | states |
|---|---|---|
| `ScaleUp.ParseMethod` | rmg_scaleup_app.py:10-17 | the label selects tip speed exactly when it equals "Tip Speed (Shear Matching)", tip distance exactly when it equals "Tip Distance (Total Exposure Matching)", and nothing otherwise |
| `ScaleUp.MillimetresToMetres` | rmg_scaleup_app.py:6-7 | the metre value times 1000 is the millimetre value |
| `ScaleUp.SecondsToMinutes` | rmg_scaleup_app.py:8 | the minute value times 60 is the second value |
| `ScaleUp.MinutesToSeconds` | rmg_scaleup_app.py:18 | converting back to minutes recovers the input, so it is the inverse of `SecondsToMinutes` |
| `ScaleUp.TimeScaleupMinutes` | rmg_scaleup_app.py:5-14 | for either method, the unrounded large-scale time in minutes satisfies the similarity law in metres and minutes: D_large·N_large·t_large = D_small·N_small·t_small |
| `ScaleUp.TimeScaleupSeconds` | rmg_scaleup_app.py:5-18 | the unrounded time in seconds satisfies the law in the input units, D_large_mm·N_large·t = D_small_mm·N_small·t_small_sec, so the /1000, /60 and ·60 conversions cancel |
| `ScaleUp.RpmScaleupExact` | rmg_scaleup_app.py:21-34 | for either method, the unrounded large-scale speed satisfies the law both in metres and minutes and in millimetres and seconds |
| `ScaleUp.GranulationTimeScaleup` | rmg_scaleup_app.py:5-18 | None exactly when the label is neither recognised literal; otherwise a whole number of hundredths within 0.005 of D_small_mm·N_small·t_small_sec / (D_large_mm·N_large) seconds |
| `ScaleUp.ImpellerRpmScaleup` | rmg_scaleup_app.py:21-38 | None exactly when the label is neither recognised literal; otherwise a whole number of hundredths within 0.005 of D_small_mm·N_small·t_small_sec / (D_large_mm·t_large_sec) RPM |
| `Rounding.RoundedHundredths` | rmg_scaleup_app.py:18 | the chosen number of hundredths is within half a hundredth of the input |
| `Rounding.Round2` | rmg_scaleup_app.py:38 | the result is a whole number of hundredths and differs from the input by at most 0.005 |
| `Rounding.Round2OfHundredths` | rmg_scaleup_app.py:38 | a value that already has two decimals is returned unchanged |
| `Rounding.Round2Monotonic` | rmg_scaleup_app.py:18 | rounding preserves order |
| `Rounding.Round2NonNegative` | rmg_scaleup_app.py:38 | a non-negative value never rounds to a negative one |
| `Rounding.Round2TieToEven` | rmg_scaleup_app.py:18 | for every integer n, the value exactly halfway between n and n + 1 hundredths rounds to whichever of the two is even |
| `Rounding.Round2TiesToEven` | rmg_scaleup_app.py:18 | exact ties go to the even hundredth: 0.125 → 0.12, 0.375 → 0.38, −0.125 → −0.12 |
| `ScaleUpProperties.TimeMethodsAgree` | rmg_scaleup_app.py:10-14 | tip speed and tip distance give the same unrounded time, because pi cancels |
| `ScaleUpProperties.RpmMethodsAgree` | rmg_scaleup_app.py:27-34 | tip speed and tip distance give the same unrounded speed |
| `ScaleUpProperties.GranulationTimeMethodsAgree` | rmg_scaleup_app.py:10-18 | the two labels give the same rounded time |
| `ScaleUpProperties.ImpellerRpmMethodsAgree` | rmg_scaleup_app.py:27-38 | the two labels give the same rounded speed |
| `ScaleUpProperties.UnrecognisedMethodRejected` | rmg_scaleup_app.py:15-17 | any other label makes both operations return None, whatever the numbers, zeros included |
| `ScaleUpProperties.TimeThenRpmRoundTrip` | rmg_scaleup_app.py:12-34 | the unrounded time computed for N_large is nonzero, and feeding it to the speed formula with the same method and small-scale data returns N_large |
| `ScaleUpProperties.RpmThenTimeRoundTrip` | rmg_scaleup_app.py:12-34 | the unrounded speed computed for t_large is nonzero, and feeding it to the time formula returns t_large |
| `ScaleUpProperties.GranulationThenImpellerRoundTrip` | rmg_scaleup_app.py:12-38 | through `impeller_rpm_scaleup` itself, that round trip returns N_large rounded to two decimals, and exactly N_large when N_large has at most two decimals |
| `ScaleUpProperties.TimeScaleInvariant` | rmg_scaleup_app.py:6-14 | multiplying both diameters by the same nonzero k leaves the unrounded time unchanged |
| `ScaleUpProperties.RpmScaleInvariant` | rmg_scaleup_app.py:22-34 | multiplying both diameters by the same nonzero k leaves the unrounded speed unchanged |
| `ScaleUpProperties.OperationsScaleInvariant` | rmg_scaleup_app.py:5-38 | scaling both diameters by the same nonzero k leaves both rounded operations unchanged, for any label |
| `ScaleUpProperties.TimePositive` | rmg_scaleup_app.py:6-14 | strictly positive inputs give a strictly positive unrounded time |
| `ScaleUpProperties.RpmPositive` | rmg_scaleup_app.py:22-34 | strictly positive inputs give a strictly positive unrounded speed |
| `ScaleUpProperties.OperationsNonNegative` | rmg_scaleup_app.py:5-38 | strictly positive inputs never give a negative rounded result |
| `ScaleUpProperties.DefaultInputs` | rmg_scaleup_app.py:47-66 | the form's defaults, 200 mm, 100 RPM and 180 s scaled to 600 mm, give 120.0 s at 50 RPM and 50.0 RPM for 120 s, under both labels |

## Left out

- The Streamlit page (`main`, lines 41-71) is left out: title, select boxes, number inputs, buttons, success messages and widget keys. It is presentation only. Its `min_value` bounds are the only place where the inputs are kept positive. The model states positivity as lemma hypotheses and nonzero denominators as preconditions.
- The `st.error` call on an invalid method (lines 16 and 36) is a side effect of the UI. The model keeps only its outcome, `None`.
- Floating point is not modelled. Arithmetic is on exact reals, and `math.pi` has no particular value: `Pi` is an arbitrary positive constant. Python's `round` works on the binary value of a float; the model rounds the exact real half to even. The two can differ for inputs such as 2.675, whose binary value is just below the tie.
- TimeMethodsAgree, RpmMethodsAgree, GranulationTimeMethodsAgree, ImpellerRpmMethodsAgree: these hold over exact reals only. In Python the tip-speed branch multiplies and divides by `math.pi`, so its float result can differ from the tip-distance branch in the last bits, and after rounding when the value lies near a tie.
- Division by zero is not modelled as an outcome. The code would raise `ZeroDivisionError`; the model excludes those inputs by precondition.
- OperationsNonNegative: states only that the rounded results are not negative, not that they are positive. A positive result below 0.005 rounds to 0.0, so strict positivity does not hold after rounding.
- GranulationThenImpellerRoundTrip: feeds back the unrounded time. The round trip through the rounded time is not claimed, because rounding the time to 0.01 s changes the recovered speed by an amount that grows as the time shrinks.
