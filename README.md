# Smart Home Energy Optimiser: the decision logic, in Dafny

The Streamlit app takes household readings from sidebar widgets. These are temperature, humidity, a time of day, a day name, the number of occupants and an appliance usage level. The app then does four things:

1. It encodes the readings as a six-column feature vector.
2. It scales the vector and feeds it to a pre-trained regressor, which gives a predicted consumption in kWh.
3. It labels the prediction as high, moderate or efficient.
4. It builds a list of advisories from three fixed threshold rules over the raw readings.

This project models steps 1, 3 and 4 exactly. Step 2 is modelled as two function parameters. It then proves the properties those steps promise.

Modules, one per component:

- `Wrappers` (`wrappers.dfy`): `Option` and `Result`.
- `Weekdays` (`weekdays.dfy`): the `day_mapping` dictionary comprehension and the lookup that uses it. A name that is not a key raises a KeyError in the app; here the lookup returns `None`.
- `Features` (`features.dfy`): the raw inputs, the clock time, the decimal-hour conversion and the feature vector. It also gives an inverse (`Decode`). With it, the proofs show that the encoding is lossless for every input the widgets can produce.
- `Severity` (`severity.dfy`): the three-band classification of the prediction. It is proved to agree with a second definition that counts how many of the thresholds 4 and 7 the prediction exceeds.
- `Recommendations` (`recommendations.dfy`): the rules as a table of `Rule` values, each with a condition and a message. `Recommend` is the method that builds the list with three `if`s, as the app does, and it is proved equal to reading the table in order. The "already optimized" fallback is included.
- `Pipeline` (`pipeline.dfy`): one evaluation: encode, scale, predict, classify and recommend. It takes the scaler and the regressor as parameters.

`app.py` checks no range beyond what the widgets enforce, so the encoder and the rules accept any values. The only failure is an unknown day name, the KeyError at `app.py:40`. `app.py` also classifies any prediction, zero and negative values included, so `Classify` is total over `real`.

## Model

| member | source | states |
|---|---|---|
| `Weekdays.Enumerated` | app.py:33-34 | the comprehension's keys are exactly the listed names; each key maps to a position holding that name, and to the last such position |
| `Weekdays.EnumeratedPositions` | app.py:33-34 | with distinct names, each name maps to its own index |
| `Weekdays.NamesDistinct` | app.py:26-28 | the seven day options are pairwise distinct |
| `Weekdays.DayMapping` | app.py:33-34 | `day_mapping`'s keys are exactly the seven day names, and each name maps to a position in 0..6 that holds that name |
| `Weekdays.DayIndex` | app.py:33-40 | the lookup fails exactly for names outside the seven; a found index lies in 0..6 and is the position of that name |
| `Weekdays.DayIndexOfPosition` | app.py:33-34 | the i-th Monday-first name is mapped to i |
| `Weekdays.DayIndexEnds` | app.py:33-34 | Monday is 0 and Sunday is 6 |
| `Weekdays.DayIndexInjective` | app.py:33-34 | two names with the same index are equal |
| `Features.DecimalHours` | app.py:39 | `hour + minute/60` is minutes-since-midnight divided by 60, and lies in [0, 24) for a valid clock time |
| `Features.ClockRoundTrip` | app.py:39 | the hour and the minute are recovered from the decimal hour |
| `Features.DecimalHoursOrder` | app.py:39 | the decimal hour keeps the order and the equality of clock times, in both directions |
| `Features.Encode` | app.py:36-43 | it fails exactly on an unknown day name; otherwise it gives six values in the order temperature, humidity, time, day, occupancy, usage. Temperature, humidity, occupancy and usage are unchanged. Time is `DecimalHours` of the clock time, in [0, 24) for a valid clock. Day is the index `DayIndex` gives the name |
| `Features.EncodeRoundTrip` | app.py:36-43 | every input with a valid clock and a known day is recovered from its vector |
| `Features.EncodeInjective` | app.py:36-43 | two such inputs with the same vector are equal |
| `Features.EncodeDefaults` | app.py:23-43 | the widget defaults (22, 50, 12:00, Monday, 2, 5.0) encode as [22, 50, 12, 0, 2, 5] |
| `Severity.Classify` | app.py:58-66 | High iff prediction > 7, Moderate iff 4 < prediction <= 7, Efficient iff prediction <= 4 |
| `Severity.ClassifyCountsThresholds` | app.py:58-66 | a band's rank (Efficient 0, Moderate 1, High 2) is the number of thresholds 4 and 7 the prediction strictly exceeds |
| `Severity.ClassifyMonotone` | app.py:58-66 | a larger prediction never gets a lower band |
| `Severity.ClassifyBoundaries` | app.py:58-66 | 7.0 is Moderate, 7.01 High, 4.0 Efficient, 4.01 Moderate, 0.0 Efficient |
| `Recommendations.Fires` | app.py:72-77 | the three rule conditions: temperature outside the closed band [20, 24]; usage > 7; occupancy == 0 and usage > 2 |
| `Recommendations.Advisories` | app.py:70-77 | the advisories of the firing rules, read in table order; there are at most as many as rules, and each is one of the three advisory texts |
| `Recommendations.Fired` | app.py:72-77 | the rules kept are exactly those of the table that fire, and there are no more of them than rules |
| `Recommendations.FiredKeepsOrder` | app.py:72-77 | keeping the firing rules preserves the table's order |
| `Recommendations.Recommend` | app.py:70-77 | the list built by the three `append`s equals the table read in order; it has at most 3 entries and is empty iff no rule fires |
| `Recommendations.RecommendationsByRule` | app.py:70-77 | the table gives the temperature, usage and standby contributions, concatenated in that order |
| `Recommendations.RecommendationMembership` | app.py:72-77 | each advisory is present iff its condition holds: temperature < 20 or > 24; usage > 7; occupancy == 0 and usage > 2 |
| `Recommendations.RecommendationsEmpty` | app.py:70-79 | the list is empty iff none of the three conditions holds |
| `Recommendations.RecommendationsOrdered` | app.py:70-77 | at most 3 advisories, with no repeats, listed in rule order (temperature, usage, standby) |
| `Recommendations.Displayed` | app.py:79-83 | something is always shown: a non-empty list of advisories is shown as it is, in order, and an empty list as the "optimized" message alone |
| `Recommendations.OptimizedShownIff` | app.py:79-83 | the "optimized" message alone is shown iff no rule fires |
| `Recommendations.AllThreeRules` | app.py:72-77 | 18 °C, usage 8 and no occupants give all three advisories in rule order |
| `Recommendations.DefaultsAreOptimized` | app.py:23-83 | the widget defaults fire no rule and show the "optimized" message |
| `Recommendations.TemperatureBandBoundaries` | app.py:72-73 | exactly 20 °C and exactly 24 °C do not trigger the temperature advisory |
| `Pipeline.Evaluate` | app.py:33-77 | it fails exactly on an unknown day name. Otherwise the vector is `Encode(x)` and the prediction is the regressor applied to that vector once scaled. The band is `Classify` of the prediction, and the advisories are `Advisories(x)` |
| `Pipeline.RecommendationsIgnoreModel` | app.py:45-77 | for a known day, the vector and the advisories are the same whatever scaler and regressor are loaded |
| `Pipeline.EvaluateDefaults` | app.py:23-83 | the defaults give vector [22, 50, 12, 0, 2, 5] and no advisories, whatever the prediction |

## Left out

- Widgets, titles, metrics, columns and the severity alert texts (app.py:17-30, 51-69): these are presentation. The model keeps only the value each widget yields and the band each branch picks. `Displayed` records only which messages are shown, not how `st.info`/`st.success` render them.
- `load_model`, `joblib.load` and `@st.cache_resource` (app.py:9-14): file I/O and framework caching. Load-once behaviour and load failures are not modelled.
- `scaler.transform` and `model.predict` (app.py:47-48): opaque scikit-learn artefacts. They are the parameters `scale` and `regress` of `Pipeline.Evaluate`. A shape-mismatch exception raised inside them is not modelled, and neither is the one-row DataFrame and array wrapping (`[0]`).
- The simulated usage chart (app.py:86-95): floating-point `np.sin` plus random noise, for display only.
- The unused `boto3` import (app.py:6).
- Features.DecimalHours: computed in exact `real` arithmetic. Python's `minute/60` is an IEEE double division, so the model does not capture rounding in the last bit. Temperature, humidity and usage are also `real` rather than doubles. Every rule and band compares them with an integer constant, so those comparisons are exact.
- Features.Encode: the DataFrame keeps occupancy and the day index as integer columns. The model stores all six values as `real`, which is what the scaler turns them into.
- Severity.Classify: NaN and infinite predictions are not modelled. The prediction is a numpy float64; a NaN fails both comparisons and lands in the `else` branch (Efficient) at app.py:64-66, which a `real` cannot express.
