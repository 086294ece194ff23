# IoT wearable dashboard: condition monitor

A Dafny model of the condition monitor inside the IoT wearable health dashboard
(`app2.py`). The dashboard loads a CSV of worker sensor readings. From them it
derives two things:

- KPI figures, each the arithmetic mean of one column. They feed the four metric
  tiles, the centre of the map view and the six figures of the summary prompt.
- An alert table: every reading that breaks at least one of five fixed safety
  rules. The rules are temperature above 37 °C, AQI above 150, sound above 85 dB,
  heart rate above 120 bpm and SpO2 below 94 %.

The dashboard shows a warning with that table when it is non-empty, and an
all-clear message otherwise.

Files:

- `readings.dfy` (module `Readings`): the `Reading` row, the `Dataset` (rows in
  file order), the numeric `Metric` columns and the column projection `Column`.
- `statistics.dfy` (module `Statistics`): `Sum`, `Mean` (sum over the number of
  entries, defined only for a non-empty column), and lemmas about means: bounds,
  constant columns, order independence.
- `alerts.dfy` (module `Alerts`): the five threshold rules, `IsAlert` (the
  boolean mask), `DetectAlerts` (the mask-indexed row filter), the warning or
  all-clear decision `Assess`, the index labels `AlertLabels` that the displayed
  table keeps, and the filter's properties.
- `monitor.dfy` (module `Monitor`): `ColumnMean`, the KPI row `ComputeKpis`, the
  map centre `MapCentre`, the prompt figures `Summarize`, plus lemmas joining the
  aggregates to the alert decision.

Numbers are exact `real`s, and the timestamp is an opaque string. pandas returns
NaN for the mean of an empty column. The model writes that as `None`: every
dataset-level aggregate is an `Option`, and it is `Some` exactly when the dataset
has a row. `Statistics.Mean` itself requires a non-empty column.

## Model

| member | source | states |
|---|---|---|
| `Readings.Column` | app2.py:29-32 | `df[col]`: the column of one metric, one entry per row, entry i being that metric of row i, in row order |
| `Alerts.IsAlert` | app2.py:41-45 | the mask: temp > 37 or AQI > 150 or sound > 85 or HR > 120 or SpO2 < 94, all strict; the five rules are `TooHot`, `PoorAir`, `TooLoud`, `HeartRateHigh` and `OxygenLow` |
| `Alerts.AlertLabels` | app2.py:40-49 | the index labels `df[mask]` keeps and the table shows: the file positions of the alert rows, in file order |
| `Alerts.DetectAlerts` | app2.py:40-46 | a reading is in the alert table iff it is in the dataset and temp > 37, AQI > 150, sound > 85, HR > 120 or SpO2 < 94; every kept row is an alert; the table is no longer than the dataset |
| `Alerts.DetectAlertsSnoc` | app2.py:40-46 | filtering a dataset is filtering all rows but the last and then appending the last row if it is an alert |
| `Alerts.AlertLabelsIncrease` | app2.py:40-46 | the index labels kept by the mask are row positions of the file, in increasing order |
| `Alerts.AlertLabelsSelect` | app2.py:40-46 | a row's label is kept iff that row is an alert |
| `Alerts.AlertLabelsMatchTable` | app2.py:40-49 | there is one label per row of the displayed alert table, and the k-th label is the file position of the k-th table row |
| `Alerts.DetectAlertsIsSubsequence` | app2.py:40-46 | the alert table is an order-preserving subsequence of the dataset |
| `Alerts.DetectAlertsAppend` | app2.py:40-46 | filtering a concatenation gives the concatenation of the filtered parts, so no row moves past another |
| `Alerts.DetectAlertsSingle` | app2.py:40-46 | a one-row dataset keeps its row exactly when that row is an alert |
| `Alerts.DetectAlertsPosition` | app2.py:40-46 | the alert at dataset position i sits in the table immediately after the alerts that come before it |
| `Alerts.DetectAlertsMultiplicity` | app2.py:40-46 | each alert row occurs in the table exactly as often as in the dataset, and a non-alert row never occurs |
| `Alerts.DetectAlertsIdempotent` | app2.py:40-46 | filtering the alert table a second time returns it unchanged |
| `Alerts.DetectAlertsKeepsAll` | app2.py:40-46 | the filter returns the dataset unchanged iff every row is an alert |
| `Alerts.Assess` | app2.py:47-51 | the warning branch is taken iff some reading is an alert, and it then carries the non-empty alert table; otherwise the result is all-clear |
| `Alerts.SafeEnvelope` | app2.py:41-45 | a reading is safe iff temp <= 37, AQI <= 150, sound <= 85, HR <= 120 and SpO2 >= 94, boundaries included |
| `Alerts.StrictBoundaries` | app2.py:41-45 | a reading exactly on all five limits is no alert; pushing any one value past its limit by any positive amount makes it one |
| `Alerts.TemperatureTriggerScenario` | app2.py:40-51 | a lone reading at 38 °C with normal other values is reported alone and triggers the warning |
| `Alerts.AllClearScenario` | app2.py:40-51 | a lone reading at 36 °C, AQI 100, SpO2 95 yields an empty table and the all-clear branch |
| `Alerts.LowOxygenScenario` | app2.py:40-46 | of three readings where only the middle one has SpO2 90, exactly that one is reported |
| `Alerts.LowOxygenScenarioLabels` | app2.py:40-49 | in that dataset the one reported row keeps its file label 1, its original position |
| `Statistics.Mean` | app2.py:29-32 | `.mean()`: the column sum divided by the number of entries, for a non-empty column |
| `Statistics.SumAppend` | app2.py:29-32 | the column sum of a concatenation is the sum of the parts' column sums |
| `Statistics.SumRemove` | app2.py:29-32 | taking one entry out of a column takes its value out of the sum |
| `Statistics.SumPermutation` | app2.py:29-32 | the column sum does not depend on row order |
| `Statistics.SumAtMost` | app2.py:29-32 | entries at most hi give a sum at most n*hi |
| `Statistics.SumAtLeast` | app2.py:29-32 | entries at least lo give a sum at least n*lo |
| `Statistics.SumBounds` | app2.py:29-32 | entries between lo and hi give a sum between n*lo and n*hi |
| `Statistics.SumConstant` | app2.py:29-32 | a column holding one value v sums to n*v |
| `Statistics.MeanTimesCount` | app2.py:29-32 | the mean times the number of rows is the column sum |
| `Statistics.MeanAtMost` | app2.py:29-32 | if every entry is at most hi, so is the mean |
| `Statistics.MeanAtLeast` | app2.py:29-32 | if every entry is at least lo, so is the mean |
| `Statistics.MeanBounds` | app2.py:29-32 | the mean lies between any common lower and upper bound of the entries |
| `Statistics.MeanConstant` | app2.py:29-32 | a column holding one value has that value as its mean |
| `Statistics.MeanPermutation` | app2.py:29-32 | reordering the entries leaves the mean unchanged |
| `Statistics.MeanBetweenExtremes` | app2.py:29-32 | the mean lies between the smallest and the largest entry |
| `Monitor.ColumnMean` | app2.py:29-32 | a column mean is defined iff the dataset is non-empty, and it then times the row count equals the column sum |
| `Monitor.ComputeKpis` | app2.py:29-32 | the KPI row is defined iff the dataset is non-empty; each of the four tiles times the row count is its column's sum |
| `Monitor.MapCentre` | app2.py:57-58 | the map centre is defined iff the dataset is non-empty, at the mean latitude and mean longitude of all readings |
| `Monitor.ColumnMeanWithinRange` | app2.py:29-32 | a column mean lies between the column's smallest and largest value |
| `Monitor.MapCentreInBoundingBox` | app2.py:57-58 | when every reading lies inside a latitude/longitude box, the map centre lies inside it too |
| `Monitor.Summarize` | app2.py:79-84 | the prompt figures are defined iff the dataset is non-empty; they repeat the four KPI tiles exactly, and average sound and SpO2 are their column means |
| `Monitor.ColumnAppend` | app2.py:29-32 | projecting a column distributes over concatenation of datasets |
| `Monitor.ColumnRemove` | app2.py:29-32 | removing row j from a dataset removes exactly its value from each column |
| `Monitor.ColumnPermutation` | app2.py:29-32 | reordering the rows reorders every column the same way |
| `Monitor.ColumnMeanOrderIndependent` | app2.py:29-32 | a column mean does not depend on row order |
| `Monitor.AggregatesOrderIndependent` | app2.py:29-32 | the KPI row, the map centre and the prompt figures do not depend on row order |
| `Monitor.AverageOutsideEnvelopeRaisesAlert` | app2.py:40-51 | if any average crosses its safety limit (temp, AQI, sound, HR above; SpO2 below), the warning branch is taken |
| `Monitor.TemperatureMeanScenario` | app2.py:29 | two readings at 20 °C and 30 °C give an average temperature of exactly 25 °C |

## Left out

- Alerts.DetectAlerts: returns the alert rows without pandas' index labels. The labels the displayed table shows (app2.py:49) are given by the separate `AlertLabels`, as file positions, which is the default index of `read_csv`; `AlertLabelsMatchTable` ties each label to its table row. A CSV read with some other index is not modelled.
- The Streamlit page, titles, metric tiles, line chart, data-frame display, messages and footer (app2.py:14, 24-36, 48-51, 100). These are rendering. The model stops at the `Status` value that chooses between the two messages.
- The CSV read and its `@st.cache_data` memoisation (app2.py:17-21). This is file I/O. The dataset is an input of every function.
- The pydeck map: layer, colours, radius, zoom, pitch and tooltip (app2.py:55-72). Only the centre of the view is modelled.
- The generative-model client, both prompts, `generate_content` and `df.to_dict()` (app2.py:9-11, 76-97). These are network calls to an external service. Only the six figures the summary prompt embeds are modelled, and the hard-coded credential fallback is not reproduced.
- Display rounding in the f-strings (`:.1f`, `:.0f`). Formatting only; the model keeps exact means.
- IEEE floating point: pandas means are float sums, and a comparison with NaN is false, so a NaN cell never triggers an alert. The model's values are exact reals with no NaN or missing cell.
- Integer versus float AQI. The column is modelled as `real`, which covers both.
