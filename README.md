# Site operations report — Dafny model

This project models the report generator of the Unified Site Operations Center:
the script that fetches the 24-hour rainfall from a USGS gauge, takes a concrete
evaporation rate, and builds the structured daily site report consumed by the
dashboard. Three pieces are modelled, one module each:

- `UsgsFeed` — the extraction of the latest rainfall reading from the parsed
  gauge response, with its fall-back to 0.0 whenever the path
  `value → timeSeries[0] → values[0] → value[-1] → value` is missing, empty or
  not numeric. The response is a nested datatype in which every key and list
  position may be absent (`Option`), and a reading is `Option<real>`.
- `Evaporation` — `calculate_aci_305r`, which returns the fixed placeholder
  0.42 kg/m²/h. The ACI 305R formula appears only in a comment and is not
  computed by the code, so it is not modelled.
- `SiteReport` — the report itself as a pure function `BuildReport(rain, evap)`.
  Classified fields are enumerations whose `Text()` gives the exact string the
  report carries. The numeric fields pass through unchanged. The site info, the
  curing note and the three stormwater map labels are constants. Lemmas state the
  strict thresholds, the agreement between soil status, soil level and SWPPP
  risk, the nested escalation (saturation ⇒ silt-fence monitoring ⇒ cautious
  pour), monotonicity in rainfall, and that the outlook is decided by four
  rainfall bands, each of them reachable.

The dashboard (app.py:68-78, app.py:88, app.py:132, app.py:153) also reads
current conditions, activity recommendations, a seven-day forecast and work
windows; the report built at update_report.py:34-57 writes none of these, so no
code for them is modelled.

## Model

| member | source | states |
|---|---|---|
| `Evaporation.CalculateAci305r` | update_report.py:23-27 | The evaporation rate is 0.42 on every call; the ACI 305R expression is not evaluated |
| `UsgsFeed.LatestRainfall` | update_report.py:16-21 | The result is the last reading when the path exists and that reading is numeric, and 0.0 when the path is missing, the series is empty or the last reading is not numeric; any non-zero result is a reading actually present in the series |
| `UsgsFeed.Readings` | update_report.py:16 | The series exists exactly when `value`, `timeSeries`, `timeSeries[0]`, its `values`, `values[0]` and its `value` list all exist; it is then that list, and any missing key or empty list gives no series |
| `UsgsFeed.LastReading` | update_report.py:17 | Indexing the series at -1 gives its last element for a non-empty series and nothing (the failure case) for an empty one |
| `UsgsFeed.ReadingsOfResponseWith` | update_report.py:16 | A response with the expected nesting exposes exactly its series of readings |
| `UsgsFeed.LatestIsLastReading` | update_report.py:16-18 | A numeric last reading is returned as-is, whatever the earlier readings were |
| `UsgsFeed.FailuresFallBack` | update_report.py:16-21 | A missing `value`, a missing or empty `timeSeries`, a missing or empty `values`, a missing `value` list, an empty series and a non-numeric last reading each give 0.0 |
| `UsgsFeed.OnlyFirstSeriesIsRead` | update_report.py:16 | Series after the first one never influence the result |
| `UsgsFeed.OnlyFirstValueListIsRead` | update_report.py:16 | Value lists after `values[0]` in the first series never influence the result |
| `UsgsFeed.FailureLooksLikeDryDay` | update_report.py:17-21 | Some failed response gives the same rainfall as a series ending in a genuine 0.0, so the report cannot tell a failed fetch from a dry day |
| `SiteReport.BuildReport` | update_report.py:34-57 | Observed precipitation and evaporation rate pass through; consensus is "Moderate Risk - Monitor Silt Fences" iff rain > 0.25; soil is Saturated iff rain > 0.5, with level 85% exactly when Saturated and 48% exactly when Workable; SWPPP risk is HIGH iff rain > 0.5; pour status is CAUTION iff evap > 0.5 or rain > 0.1; site info, map labels and notes are the fixed constants |
| `SiteReport.DailyReport` | update_report.py:31-57 | With the placeholder evaporation rate the report carries 0.42 and the pour is CAUTION iff rain > 0.1 |
| `SiteReport.ThresholdsAreStrict` | update_report.py:38-45 | For every evaporation rate, rain of exactly 0.25 keeps Stable Conditions and rain of exactly 0.5 keeps the soil Workable and SWPPP risk MODERATE |
| `SiteReport.PourThresholdIsStrict` | update_report.py:53 | With evaporation at most 0.5, rain of exactly 0.1 keeps the pour OPTIMAL |
| `SiteReport.EvaporationThresholdIsStrict` | update_report.py:53 | An evaporation rate of exactly 0.5 with no rain keeps the pour OPTIMAL |
| `SiteReport.FailedFetchGivesCalmestReport` | update_report.py:16-53 | When the gauge response lacks the reading path, has an empty series or ends in a non-numeric reading, the day's report records 0.0 in of rain and the calmest outlook: Stable Conditions, Workable, MODERATE, OPTIMAL |
| `SiteReport.SoilAndRiskAgree` | update_report.py:41-45 | SWPPP risk is HIGH exactly when soil is Saturated, exactly when the level is 85% |
| `SiteReport.EscalationIsConsistent` | update_report.py:38-53 | Saturated soil implies silt-fence monitoring and a cautious pour; silt-fence monitoring implies a cautious pour |
| `SiteReport.HighEvaporationAlwaysCautions` | update_report.py:53 | An evaporation rate above 0.5 makes the pour CAUTION for every rainfall |
| `SiteReport.OutlookIsStageOfBand` | update_report.py:38-53 | With evaporation at most 0.5, the four classified fields are the escalation stage of the rainfall band (≤0.1, ≤0.25, ≤0.5, above) |
| `SiteReport.SameOutlookIffSameBand` | update_report.py:38-53 | With evaporation at most 0.5, two rainfall figures give the same classified fields if and only if they lie in the same band |
| `SiteReport.EscalationIsMonotone` | update_report.py:38-53 | For rain1 ≤ rain2 the band never goes down and silt-fence monitoring, saturation, HIGH risk and CAUTION all persist |
| `SiteReport.EveryStageIsReachable` | update_report.py:38-53 | With evaporation at most 0.5, each of the four escalation stages is produced by some rainfall figure |
| `SiteReport.MapLabelsAreFixed` | update_report.py:46-50 | Every report carries the same three map labels, in order, with priorities High, Med, High |
| `SiteReport.TextsAreDistinct` | update_report.py:38-53 | The strings written for the two values of each classified field differ, so the saved report keeps every classification |

## Left out

- The HTTP request and `.json()` decoding (update_report.py:13-14): network I/O; the model starts from the parsed response, and a failed request or an undecodable body, which the same `except` turns into 0.0, corresponds to the response `Response(None)` with no `value` key.
- The error message printed when the fetch fails (update_report.py:20) and the write of `latest_report.json` (update_report.py:59-60): console and file I/O.
- The ACI 305R formula quoted in the comment (update_report.py:25): the code does not compute it, and it needs a real 2.5 power.
- The configuration constants `USGS_SITE`, `LAT`, `LON` (update_report.py:6-7): they only build the request URL.
- Python floats are modelled as exact reals and literals as exact decimals: the model ignores binary rounding (the double nearest 0.1 is slightly above 0.1), and NaN or infinite readings, which `float()` accepts, are not representable.
- Parsing of the reading string by `float()` is abstracted: a reading is either a number or `None` for a missing key or a non-numeric string.
- The whole dashboard (app.py): presentation only. It reads activity recommendations, forecasts and work windows that no shown code produces, so no activity classifier or work-window finder is modelled.
