# BloomWatch core in Dafny

This project models the computation behind the BloomWatch backend, which
watches plant flowering from satellite-style vegetation indices. It covers
four parts:

- **NASA data fetcher** (`NasaApi`):
  - the NDVI simulated from temperature and precipitation;
  - the EVI derived from that NDVI;
  - the randomised fallback sample used when the climate service is
    unavailable;
  - the reversed daily history;
  - the weekly time series with its bloom events.
- **Bloom detector** (`BloomDetector`):
  - the 0–100 bloom level and its phenological status, confidence and
    colour;
  - the prediction of the next bloom from a history of NDVI readings;
  - the average interval between blooms;
  - the rule-based species and ecosystem classification;
  - the biodiversity potential.
- **Request-handler decision logic** (`App`):
  - the multi-year spring comparison and its trend and climate-impact tier;
  - the three conservation-alert rules with their recommendations and
    priority tier;
  - the fixed six-region global bloom map.
- **Shared support**:
  - `Numeric`: absolute value, min/max, clamp, and integer division that
    truncates toward zero as in the source;
  - `Climate`: the sample and history-point records;
  - `Wrappers`: `Option` and `Result`.

The source's loops are `method`s with `while` loops:
- proved equal to a specification function:
  - the history builder (`Reversed` of the per-day points);
  - the time-series builder (`StepCount` and `BloomEventsOf`);
  - the average interval (`MeanGap`);
  - the bloom predictor (`TransitionDates`);
- stating their results directly in `ensures`:
  - the multi-year comparison;
  - the global map.

The source's straight-line blocks that append to lists are `method`s without
loops, proved equal to specification functions:
- species identification: the zone, agricultural and anomaly blocks against
  `ZoneRules`, `AgriculturalRule`, `InvasiveRule` and `DegradationRule`,
  composed in `RawFindings`;
- the alerts: the three rule blocks against `AlertsFor` and
  `RuleRecommendations`.

The scoring formulas are `function`s with contracts that give their ranges,
extremes and threshold bands.

Values the source gets from outside the model are parameters:
- **one point's vegetation index**: `NasaApi.VegetationIndex` models a single
  `get_vegetation_index` call, taking the climate service's answer as a
  `ProviderResponse` value;
- **the per-point calls made by the series builders and handlers**: a
  function parameter (`int -> Sample`, `(real, real) -> Sample`,
  `(int, int) -> real`). It stands for the whole `get_vegetation_index` call,
  NDVI/EVI derivation included, and is not tied to `VegetationIndex`;
- **random draws**: a `FallbackDraws` value whose ranges `ValidDraws`
  requires;
- **current date**: a `today` parameter.

Calendar dates are modelled as integer day ordinals. Species hints,
ecological notes, alerts and recommendations are enumerations, not the
source's Spanish display strings.

### Where the model follows the code rather than the documentation

- **Bloom level is not clamped at 0.** `bloom_detector.py:58` only caps the
  level at 100 (`min(level, 100)`), so the documented 0–100 range holds
  below only for non-negative indices. `BloomDetector.BloomLevel` states
  exactly that.
- **The fallback sample carries today's date.** `nasa_api.py:81` stamps it
  with the current date, even when a historical date was requested.
  `NasaApi.VegetationIndex` states this. The series builders never read that
  field: they stamp each point with the loop's own date (`nasa_api.py:90,93`
  and `nasa_api.py:115,121`), as `NasaApi.PointOf` and `NasaApi.GetTimeSeries`
  state.
- **A tie in the trend counts as decreasing** (`app.py:174`).
- **The "peak bloom" alert fires one step after peak status.** The alert
  needs a level strictly above 70 (`app.py:234`), while the status is already
  peak at exactly 70 (`bloom_detector.py:20`).
- **Species hints form a list, not a set.** The agricultural rule adds two
  hints (`bloom_detector.py:167-173`), and confidence counts list entries
  (`bloom_detector.py:195`).
- **`bloom_threshold_evi` (0.65) is never read** (`bloom_detector.py:8`).
- **An empty year list makes the multi-year handler fail.** Evaluating
  `ndvi_trend[-1]` on the empty list (`app.py:174`) raises, and the handler
  answers with an error response. The model returns
  `Failure(NoYears)`.

## Model

| member | source | states |
|---|---|---|
| Numeric.TruncDiv | bloom_detector.py:121 | Python `int(a / b)` truncates toward zero: for a ≥ 0 the quotient lies in [0, a] with q·b ≤ a < q·b + b; for a < 0 it lies in [a, 0] with q·b − b < a ≤ q·b |
| NasaApi.NdviTemperatureFactor | nasa_api.py:62-64 | the temperature factor lies in [0, 1]; it is 1 exactly at the 20 °C optimum; it is 0 once the deviation reaches 30 °C |
| NasaApi.NdviPrecipitationFactor | nasa_api.py:66 | the precipitation factor lies in (0, 1]; it is 0.3 when there is no rain; it is 1 exactly when precipitation is at least 10 |
| NasaApi.SimulatedNdvi | nasa_api.py:60-69 | the simulated NDVI always lies in [0, 0.95] |
| NasaApi.SimulatedNdviMaximum | nasa_api.py:62-69 | the simulated NDVI never exceeds 0.9, and reaches 0.9 exactly when the temperature is 20 and precipitation is at least 10 |
| NasaApi.DeriveEvi | nasa_api.py:44 | the EVI is never below a non-negative NDVI; it stays below 1 for in-range NDVI; it equals the NDVI exactly when the NDVI is 0 or at least 0.83 |
| NasaApi.DeriveEviDropsAtCap | nasa_api.py:44 | the EVI is not monotone: some NDVI a < 0.83 ≤ b has EVI(a) > EVI(b) |
| NasaApi.FirstOr | nasa_api.py:40-41 | the first reported value, or the default when the provider reported none |
| NasaApi.FallbackSample | nasa_api.py:71-82 | fallback NDVI lies in [0.4, 0.7] for valid latitudes; it is 0.4 at the poles and 0.4 + spread at the equator; EVI is 1.15 × NDVI; temperature lies in [10, 30]; precipitation lies in [0, 20]; the date is today |
| NasaApi.VegetationIndex | nasa_api.py:14-58 | on a payload: the defaults 20 °C and 0 mm apply; NDVI is the simulated value and EVI is derived from it; the date is the requested one or today. Otherwise the result is the fallback sample. For valid latitudes, 0 ≤ NDVI ≤ 0.95 and NDVI ≤ EVI |
| NasaApi.PointOf | nasa_api.py:90-96 | a history point carries the loop's own day, not the sample's date field, with that day's NDVI and EVI |
| NasaApi.Reversed | nasa_api.py:98 | same length; element k is element \|s\|−1−k of the input |
| NasaApi.HistoricalData | nasa_api.py:84-98 | for a positive count there is one point per day, otherwise none; point k is the lookup of day today − (n−1−k), so the series is oldest first and ends today |
| NasaApi.StepCount | nasa_api.py:110-125 | the number of weekly steps from start to end: 0 when end < start; otherwise the last step is ≤ end and the next would pass it |
| NasaApi.StepCountExact | nasa_api.py:110-125 | a loop that stops with k steps, the last within end and the next past it, has taken exactly StepCount steps |
| NasaApi.BloomEventsOf | nasa_api.py:119-123 | the events of the first n weekly steps: at most n of them, each with intensity above 0.6 |
| NasaApi.BloomEventsSound | nasa_api.py:119-123 | every bloom event is on a visited week; its intensity is that week's NDVI and exceeds 0.6; there are no more events than weeks |
| NasaApi.BloomEventsComplete | nasa_api.py:119-123 | every visited week whose NDVI exceeds 0.6 produces a bloom event |
| NasaApi.BloomEventsOrdered | nasa_api.py:119-123 | bloom-event dates are strictly increasing and lie before the end of the walk |
| NasaApi.GetTimeSeries | nasa_api.py:100-132 | dates, NDVI and EVI have equal length (the step count); entry k is start + 7k, is ≤ end, and holds that day's looked-up values; the events are exactly the weeks with NDVI > 0.6 |
| BloomDetector.TemperatureFactor | bloom_detector.py:51-53 | the bloom temperature factor lies in [0, 30]; it is 30 exactly at 20 °C; it is 0 once the deviation reaches 10 |
| BloomDetector.PrecipitationFactor | bloom_detector.py:55 | the bloom precipitation factor lies in (0, 30]; it is 5 with no rain; it is 30 exactly when precipitation is at least 15 |
| BloomDetector.BloomLevel | bloom_detector.py:47-58 | the level never exceeds 100; it is non-negative for non-negative indices; below the cap it exceeds the vegetation factor |
| BloomDetector.BloomLevelMonotone | bloom_detector.py:47-58 | the level does not decrease when NDVI and EVI increase under the same weather |
| BloomDetector.StatusOf | bloom_detector.py:20-35 | peak exactly when level ≥ 70; active in [50, 70); early in [30, 50); no bloom below 30 |
| BloomDetector.ConfidenceOf | bloom_detector.py:20-40 | confidence is the band's base plus the level's excess over the band floor, divided by 100 and capped at 0.95; it is ≥ the band base for non-negative levels |
| BloomDetector.ConfidenceDropsAtBandEdge | bloom_detector.py:20-26 | confidence is not monotone in the level: just below 70 it exceeds its value at exactly 70 |
| BloomDetector.ColorOf | bloom_detector.py:23-35 | each status's display colour is a seven-character `#rrggbb` hex code |
| BloomDetector.ColorIdentifiesStatus | bloom_detector.py:23-35 | two statuses share a colour exactly when they are the same status |
| BloomDetector.AnalyzeBloom | bloom_detector.py:11-45 | status, confidence and colour come from the computed level; the level is the bloom level of the sample and never exceeds 100; the input NDVI and EVI are echoed |
| BloomDetector.TransitionDates | bloom_detector.py:79-86 | one collected date per transition index among the first n pairs; there are at most n indices, each below n |
| BloomDetector.TransitionsCharacterized | bloom_detector.py:79-86 | the collected indices are exactly the positions i where the next NDVI exceeds 0.6 and has grown more than 0.05; they come in increasing order, and the bloom dates are those positions' dates |
| BloomDetector.MeanGap | bloom_detector.py:110-121 | 90 with fewer than two dates; otherwise the truncated mean gap, which lies between 0 and last − first for ascending dates |
| BloomDetector.AverageInterval | bloom_detector.py:110-121 | the interval loop returns the truncated mean gap between consecutive bloom dates, 90 with fewer than two |
| BloomDetector.PredictBloomDate | bloom_detector.py:70-108 | fewer than 14 points: insufficient data, probability 0. No transition: no pattern, probability 0.3. Otherwise: last bloom + mean gap, probability min(0.95, 0.6 + 0.05n), n blooms reported, and the probability exceeds 0.6 |
| BloomDetector.EcosystemOf | bloom_detector.py:139-161 | tropical exactly when \|lat\| ≤ 23.5; temperate exactly when 23.5 < \|lat\| ≤ 66.5; boreal/polar otherwise |
| BloomDetector.ZoneRules | bloom_detector.py:139-164 | the latitude-zone rules yield only zone-specific hints, at most three, and never the normal-conditions note |
| BloomDetector.AgriculturalRule | bloom_detector.py:166-173 | adds two hints exactly under the NDVI/EVI window, the first being the agricultural pattern; the warm-season crops hint and fertiliser note appear exactly when temperature exceeds 20 |
| BloomDetector.InvasiveRule | bloom_detector.py:176-179 | the invasive-species hint appears exactly when NDVI > 0.75 and temperature < 10; at most one hint, with two notes |
| BloomDetector.DegradationRule | bloom_detector.py:182-185 | the sparse-vegetation hint appears exactly when NDVI < 0.25; at most one hint, with two notes |
| BloomDetector.RawFindings | bloom_detector.py:140-185 | all rules in source order before defaults: never the general-vegetation hint or the normal-conditions note, and at most five hints |
| BloomDetector.HintConfidence | bloom_detector.py:195 | high exactly with more than two hints; medium with one or two; low with none |
| BloomDetector.ConservationPriority | bloom_detector.py:196 | high exactly when NDVI > 0.6 or NDVI < 0.3, medium otherwise |
| BloomDetector.BiodiversityScore | bloom_detector.py:202-208 | the vegetation score plus 25 to 50 weather points; within [25, 100] for indices in [0, 1] |
| BloomDetector.BiodiversityPotential | bloom_detector.py:199-217 | each of the four tiers holds exactly within its score band (> 80, (60, 80], (40, 60], ≤ 40) |
| BloomDetector.BiodiversityMonotone | bloom_detector.py:199-217 | higher indices under the same weather never lower the tier |
| BloomDetector.ApplyZoneRules | bloom_detector.py:139-164 | the zone step picks the latitude's ecosystem and appends exactly that zone's rule outputs: at most three hints |
| BloomDetector.ApplyAgriculturalRule | bloom_detector.py:166-173 | the agricultural step appends exactly the agricultural rule's outputs to hints and notes |
| BloomDetector.ApplyAnomalyRules | bloom_detector.py:175-185 | the invasive-species step and then the degradation step append exactly their rules' outputs |
| BloomDetector.IdentifySpeciesType | bloom_detector.py:124-197 | the ecosystem comes from latitude. Hints and notes are the rule outputs in source order, or the single general/normal default when empty. Confidence counts the raw hints. Priority and biodiversity follow their thresholds; neither list is empty |
| BloomDetector.ConfidenceLowIffNoRuleFires | bloom_detector.py:140-195 | confidence is low exactly when no hint-producing rule fires |
| BloomDetector.RuleSpecificHints | bloom_detector.py:140-185 | the invasive, sparse-vegetation and agricultural hints each appear exactly when their condition holds; the general-vegetation default never appears among raw hints |
| BloomDetector.AnomalyHintsComeLast | bloom_detector.py:175-185 | invasive and degradation findings exclude each other; when one fires, its hint is the last |
| BloomDetector.TropicalExample | bloom_detector.py:140-147 | a dense, warm, wet tropical sample yields exactly the rainforest and tropical-flower hints, their two notes, and medium confidence |
| App.SampledMonths | app.py:157 | months 3–5 exactly for latitudes ≥ 0, months 9–11 exactly for negative latitudes |
| App.TrendOf | app.py:174 | increasing exactly when the last average exceeds the first; decreasing otherwise, ties included |
| App.ChangePercentage | app.py:175 | 0 when the first average is not positive; otherwise c·first = (last − first)·100, and c has the sign of the change |
| App.ClimateImpactOf | app.py:178-183 | critical exactly when \|change\| > 15; moderate in (8, 15]; low otherwise |
| App.MultiYearComparison | app.py:144-192 | fails exactly when no years are given. Otherwise: one entry per year with the hemisphere's months, three looked-up values, and their mean (between their min and max); trend, change and impact come from the first and last means |
| App.RecommendationsFor | app.py:216-241 | each alert kind carries exactly two recommendations |
| App.RecommendationsOf | app.py:216-241 | the recommendations a list of alerts brings, alert by alert: exactly two per alert |
| App.RecommendationsOfShape | app.py:216-241 | the recommendations are twice as many as the alerts; the pair at 2k..2k+2 belongs to alert k |
| App.AlertsFor | app.py:216-241 | the alerts of the three rules in rule order: one per rule that fires |
| App.AlertsForShape | app.py:216-241 | each alert is present exactly when its rule fires; only the three fixed kinds occur; alerts follow rule order; at most two alerts at once |
| App.RuleRecommendations | app.py:216-241 | the recommendations of the three rules in rule order: two per rule that fires |
| App.RuleRecommendationsMatchAlerts | app.py:216-241 | the recommendations the rules append are the concatenation of each alert's pair, in alert order |
| App.PriorityLevel | app.py:244-251 | high exactly when the score > 60; medium in (30, 60]; low otherwise |
| App.PriorityScalesDisagreeOnSparseVegetation | app.py:244-251 | an NDVI below 0.3 gets a low handler tier but a high priority from the species classifier |
| App.ApplyAlertRules | app.py:216-241 | the three appending rule blocks produce exactly `AlertsFor` and `RuleRecommendations` of the three threshold conditions |
| App.ConservationAlerts | app.py:199-252 | alerts and recommendations are exactly what the three rules produce (each alert present iff its rule fires, at most two, two recommendations each); score = NDVI × 100 and its tier |
| App.GlobalBloomMap | app.py:86-114 | six entries in region order; each copies name and coordinates and takes level and status from one assessment of that region's lookup; every level ≤ 100 |

## Left out

- BloomDetector.BloomLevel: `round(…, 1)` is not modelled; the level is the unrounded real.
- BloomDetector.ConfidenceOf: `round(…, 2)` is not modelled; confidence is the unrounded real.
- BloomDetector.PredictBloomDate: `round(probability, 2)` is not modelled.
  - Dates are day ordinals, not `YYYYMMDD` / `YYYY-MM-DD` strings, so parsing and formatting cannot fail.
  - The peak-period message is a structured value, not a sentence.
- NasaApi.VegetationIndex: the three-decimal rounding of NDVI and EVI is not modelled.
- NasaApi.FallbackSample: the three-decimal rounding is not modelled.
  - The random draws are a parameter whose ranges are required, not a random source.
- App.MultiYearComparison: the thousandth rounding of averages and the tenth rounding of the change are not modelled.
  - The month labels are the month numbers.
  - The narrative `interpretation` sentence is not produced.
- App.ConservationAlerts: the tenth rounding of the priority score is not modelled.
  - The alert messages are not produced; an alert is its level and type.
- Status messages (`_get_status_message`) and all Spanish display strings: presentation only; hints, notes and recommendations are enumerations.
- The HTTP request to the climate service is not modelled:
  - its status code and timeout;
  - its JSON navigation;
  - its exception handling.

  What it contributes is a `ProviderResponse` value or a lookup function parameter.
- NasaApi.HistoricalData: the per-day lookup is an arbitrary function, not `NasaApi.VegetationIndex` applied to a per-day provider answer, so bounds such as NDVI ≤ 0.95 are not carried into the series.
- NasaApi.GetTimeSeries: the same holds for its per-week lookup.
- App.GlobalBloomMap: the same holds for its per-region lookup.
- App.MultiYearComparison: the same holds for its per-month NDVI lookup.
- Python's `.get()` defaults for missing dictionary keys: the typed records always carry every field. A `None` latitude is likewise not representable.
- Randomness, the clock and the API-key environment variable are parameters or are absent.
- Flask routing, CORS, JSON serialisation, static file serving and the blanket 500 error responses are not modelled.
- Floating-point arithmetic is modelled as exact real arithmetic.
