# Hot-tub monitor rule components in Dafny

This project models the three in-process rule components of the HubSoak hot-tub
water-quality monitor and proves their properties:

- **Calibration store and threshold evaluator** (`sensors.dfy`, module `Sensors`).
  `SensorSimulator` holds a per-sensor `(offset, scale)` table for the four known
  sensors (`ph`, `temperature`, `turbidity`, `orp`). It applies
  `(raw + offset) * scale` to a raw reading. `update_calibration` overwrites one
  entry and ignores unknown sensor names. `check_alerts` classifies every reading
  against a fixed `[min, max]` band as too low, too high or normal. Both bounds
  count as normal.
- **Alert aggregator** (`alerts.dfy`, module `Alerts`). `AlertSystem` keeps a
  rolling history. Each cycle, only the triggered evaluations are appended, in
  input order. The history is then cut back to its most recent 100 alerts. An
  alert's severity is high exactly when its message says "too high". The display
  shows the last five alerts, newest first. A ghost field `arrived` records
  every alert ever appended. The class invariant states that the history is
  always the most recent 100 of them.
- **Recommendation engine** (`recommendations.dfy`, module `Recommendations`).
  `WaterQualityRecommender` runs a fixed-order chain of range checks against its
  own optimal-range table, then applies the combined-chlorine rule
  (`total - free > 0.5`). When nothing fires it returns the single
  "All Parameters / optimal" entry. The method builds its list by successive
  appends, as the source does; each low/high block of the chain is a call to
  `AppendRangeEntry` (the turbidity block to `AppendHighEntry`), and the
  combined-chlorine block and the fallback are written inline. It is proved equal to the function `Recommend`,
  and the properties are proved about `Recommend` for any range table.

Modelling choices:

- Numbers are exact `real`s. The source computes in double-precision floats;
  see "## Left out" for what that changes at the strict bounds.
- A readings dictionary whose iteration order matters is an ordered dictionary:
  a sequence of `Reading(sensor, value)` with unique sensor names. The
  calibration table, where order does not matter, is a `map`.
- An evaluation message is a structured value `Message(sensor, kind, value)`
  rather than formatted text. Severity is computed the source's way, by a
  substring test for "too high". The test is applied to the verdict phrase the
  message carries ("too low", "too high" or "normal").
- A recommendation is `(parameter, status)`. Its action and details texts are
  the source's constants and depend only on those two. They are derived by
  `Recommendation.Texts()` rather than stored.
- The recommender reads seven keys: pH, temperature, turbidity, ORP,
  conductivity, free chlorine and total chlorine. Its input is modelled as a
  seven-field record. The simulator produces only four of these keys
  (`utils/sensors.py:16-21`), and `main.py:54,92` passes that dictionary
  straight to the recommender. As written, the source would stop with a missing
  key at `conductivity`. The model does not reproduce that failure: it assumes
  a complete reading.
- Further facts of the source that the model keeps:
  - The threshold evaluator (`utils/sensors.py:36-56`) works on the four
    sensor readings only and computes no combined-chlorine channel. Combined
    chlorine appears only in the recommender.
  - The combined-chlorine rule (`utils/recommendations.py:106`) is a strict
    `> 0.5`, so a difference of exactly 0.5 does not fire it.
  - The simulator's calibration table (`utils/sensors.py:7-12`) has exactly
    four fixed entries, and `update_calibration` never adds one.
  - The range checks (`utils/recommendations.py:20-102`) use strict `<` and
    `>`, so a value exactly on a bound draws no entry.
  - Turbidity is checked against its maximum only
    (`utils/recommendations.py:50`).

## Model

| member | source | states |
|---|---|---|
| `Sensors.SensorSimulator.constructor` | utils/sensors.py:6-12 | the table has exactly the four known sensors, each at offset 0 and scale 1 |
| `Sensors.Calibrate` | utils/sensors.py:24-27 | each calibrated reading keeps its sensor name and position and equals (raw + offset) * scale, using that sensor's own table entry |
| `Sensors.SensorSimulator.GetReadings` | utils/sensors.py:14-29 | for a draw over the known sensors, every sensor has a table entry; the readings returned are the raw draw calibrated with the current table; unique sensor names stay unique |
| `Sensors.CalibrateIdentity` | utils/sensors.py:24-27 | with every sensor at offset 0 and scale 1, the calibrated readings equal the raw readings |
| `Sensors.CalibrateAfterRecalibration` | utils/sensors.py:24-34 | after recalibrating one sensor, every other sensor's calibrated reading is unchanged, and that sensor's reading uses exactly the new offset and scale |
| `Sensors.Recalibrated` | utils/sensors.py:31-34 | a known sensor gets exactly the new (offset, scale); every other entry and the key set are unchanged; an unknown sensor leaves the table unchanged |
| `Sensors.SensorSimulator.UpdateCalibration` | utils/sensors.py:31-34 | the new table is the old one recalibrated at that sensor; the four-sensor key set is kept |
| `Sensors.RecalibratedIdempotent` | utils/sensors.py:33-34 | setting the same calibration twice gives the same table as setting it once |
| `Sensors.Threshold` | utils/sensors.py:40-45 | the threshold band of each known sensor, each with min < max |
| `Sensors.Evaluate` | utils/sensors.py:48-54 | the kind is too low iff value < min, too high iff value > max, normal iff min <= value <= max; triggered iff the kind is not normal |
| `Sensors.BoundsAreNormal` | utils/sensors.py:49-54 | a value exactly on either bound is normal and not triggered |
| `Sensors.SensorSimulator.CheckAlerts` | utils/sensors.py:36-56 | one entry per input reading, same sensor, same order; each entry is that reading's evaluation and is triggered iff the value is strictly outside the band |
| `Alerts.PhraseContainsTooHigh` | utils/alerts.py:16 | of the three verdict phrases, only "too high" contains the substring "too high" |
| `Alerts.Contains` | utils/alerts.py:16 | Python's substring test `t in s`: a hit implies the pattern is no longer than the text |
| `Alerts.ContainsOccurs` | utils/alerts.py:16 | the front-to-back search succeeds exactly when the pattern occurs at some index of the text |
| `Alerts.SeverityOf` | utils/alerts.py:16 | the substring test gives high exactly for too-high messages, low otherwise |
| `Alerts.ToAlert` | utils/alerts.py:13-17 | an alert keeps the evaluation's sensor and message; its severity is high iff the message is too high |
| `Alerts.Triggered` | utils/alerts.py:11-18 | the alerts of the triggered entries, in input order; never more alerts than entries |
| `Alerts.TriggeredAppend` | utils/alerts.py:11-18 | collecting triggered entries distributes over concatenation, so alerts come out in input order |
| `Alerts.TriggeredSound` | utils/alerts.py:11-18 | every collected alert is the alert of some triggered input entry; untriggered entries never enter |
| `Alerts.TriggeredComplete` | utils/alerts.py:11-18 | every triggered input entry yields its alert |
| `Alerts.TriggeredEmpty` | utils/alerts.py:11-19 | nothing is collected iff no input entry is triggered |
| `Alerts.TriggeredSeverity` | utils/alerts.py:16 | each collected alert is high iff its message contains "too high", iff its kind is too high |
| `Alerts.Keep` | utils/alerts.py:22 | the last min(n, len) elements of a sequence, in their original order |
| `Alerts.KeepAppend` | utils/alerts.py:20-22 | truncating to n after every append gives the same as truncating the whole stream once |
| `Alerts.AlertSystem.constructor` | utils/alerts.py:5-6 | the history starts empty |
| `Alerts.AlertSystem.ProcessAlerts` | utils/alerts.py:8-24 | returns exactly the triggered entries' alerts; the history is unchanged if there are none, otherwise the last 100 of old history plus new alerts; the history never exceeds 100 and is always the most recent 100 alerts that arrived |
| `Alerts.AlertSystem.RecentAlerts` | utils/alerts.py:26-34 | the alerts shown are the last five of the history (all of it when shorter), in reverse order |
| `Alerts.Reversed` | utils/alerts.py:32 | `reversed(...)`: the same length as its input |
| `Alerts.ReversedIndex` | utils/alerts.py:32 | walking a list in reverse keeps its length and gives its i-th element from the end at position i |
| `Alerts.ReversedKeepIndex` | utils/alerts.py:32 | the last n elements reversed: the i-th is the i-th from the end of the whole list |
| `Alerts.RecentNewestFirst` | utils/alerts.py:32 | the display shows min(5, len) alerts, the i-th being the i-th most recent alert of the history |
| `Recommendations.OptimalRange` | utils/recommendations.py:6-14 | the recommender's optimal-range table, each range with min < max |
| `Recommendations.Label` | utils/recommendations.py:22-117 | the parameter name of every entry is non-empty |
| `Recommendations.LabelInjective` | utils/recommendations.py:22-117 | different parameters are shown under different names |
| `Recommendations.Recommendation.Texts` | utils/recommendations.py:24-120 | the action and details strings of each parameter and status, as written in the source; carries no contract |
| `Recommendations.RangeCheck` | utils/recommendations.py:20-32 | at most one entry, for that parameter; none iff the value lies within its range, bounds included; low iff below min, high iff above max |
| `Recommendations.HighCheck` | utils/recommendations.py:50-56 | at most one entry, always high, present iff the value exceeds the maximum |
| `Recommendations.CombinedCheck` | utils/recommendations.py:104-112 | one high Combined Chlorine entry iff total - free > 0.5, none otherwise |
| `Recommendations.Findings` | utils/recommendations.py:19-112 | the entries of the check chain joined in evaluation order; at most seven |
| `Recommendations.Recommend` | utils/recommendations.py:16-123 | the findings, or the single optimal entry when there are none; never empty and at most seven entries |
| `Recommendations.WaterQualityRecommender.constructor` | utils/recommendations.py:4-14 | the recommender's table is the optimal-range table |
| `Recommendations.AppendRangeEntry` | utils/recommendations.py:20-32 | one low/high block appends exactly the entry its range check draws, after the entries already there |
| `Recommendations.AppendHighEntry` | utils/recommendations.py:50-56 | the turbidity block appends a high entry exactly when the value exceeds the maximum, after the entries already there |
| `Recommendations.WaterQualityRecommender.GetRecommendations` | utils/recommendations.py:16-123 | the appended list equals the check chain in fixed order, or the single optimal entry when the chain is empty |
| `Recommendations.FindingsNeverOptimal` | utils/recommendations.py:19-112 | no check of the chain produces an optimal entry, an entry about total chlorine itself, or one about all parameters |
| `Recommendations.OptimalIsExclusive` | utils/recommendations.py:114-121 | an optimal entry appears iff no check fired, and it is then the only entry |
| `Recommendations.FindingsOrdered` | utils/recommendations.py:19-112 | entries are in strictly increasing evaluation order (pH, Temperature, Turbidity, ORP, Conductivity/TDS, Free Chlorine, Combined Chlorine), so each parameter appears at most once and there are at most 7 |
| `Recommendations.BoundsDrawNoEntry` | utils/recommendations.py:20-102 | for every measure, a value exactly on its optimal min or max draws no entry for that measure |
| `Recommendations.TurbidityNeverLow` | utils/recommendations.py:50-56 | a turbidity entry is always high, never low, whatever its minimum |
| `Recommendations.CombinedChlorineRule` | utils/recommendations.py:104-112 | a Combined Chlorine entry appears iff total - free > 0.5 strictly, and it is high |
| `Recommendations.TotalChlorineOnlyViaCombined` | utils/recommendations.py:13-106 | the total-chlorine range is never consulted, and total chlorine affects the result only through the combined-chlorine rule |
| `Recommendations.AllOptimalExactly` | utils/recommendations.py:19-121 | with the recommender's table, the result is the single optimal entry iff every checked value is within range (turbidity at most 3.0) and combined chlorine is at most 0.5 |

## Left out

- The random draw of raw readings (`utils/sensors.py:16-21`) is nondeterministic. `GetReadings` takes the raw readings as a parameter instead, and their plausible ranges are not modelled.
- Message text: the `:.1f` number formatting, the title-cased sensor name and the unit labels of `check_alerts`. A message is the structured value (sensor, verdict, value).
- SeverityOf: applies the "too high" substring test to the verdict phrase only, not to the whole formatted message. The other parts of the text (sensor title, number, unit) contain no "too high" for the four known sensors, but the model does not check this.
- Rendering in `display_alerts` (the "No recent alerts" notice, headings, colour markers): Streamlit UI. Only the choice of alerts shown is modelled.
- The missing-key failure when the four-key simulator output is passed to the recommender is not reproduced. The recommender's input is a complete seven-field reading.
- `utils/maintenance.py`, `utils/database.py`, `utils/remote_access.py` and `main.py`: SQL persistence, wall-clock time, environment configuration and UI layout. They are not part of this model.
- Floating-point rounding. Values are exact reals, but the source computes `total - free` and `(raw + offset) * scale` in doubles. Rounding can move a computed value across a strict bound. For example, 2.2 - 1.7 is 0.5000000000000002 in doubles, so the combined-chlorine rule fires where the model says it does not. `CombinedCheck`, `CombinedChlorineRule`, `AllOptimalExactly`, `BoundsAreNormal` and `BoundsDrawNoEntry` hold of exact reals only.
- Missing-key failures. The source raises a KeyError for a reading whose sensor has no threshold (`utils/sensors.py:48`) or no calibration entry (`utils/sensors.py:25`). `Evaluate`, `CheckAlerts`, `Calibrate` and `GetReadings` instead require every sensor to be known. The one caller, `main.py:54-55`, passes the simulator's own four-sensor draw, which never reaches that failure.
- Recommendation.Texts: carries no contract. Its strings are data copied from the source, and a contract over these long literals does not fit the verifier's resource limit.
