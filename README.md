# Green Grids dashboard: verified model of its logic

The Green Grids page is a farm dashboard that shows simulated sensor readings and a mocked
"soil image analysis". This project models the little logic it has, in Dafny:

- `MockData` (`mock_data.dfy`): the live sensor reading and the analysis result, and the two
  samplers that produce them (`generateSensorData` and the `mockResults` record of
  `analyzeImage`). Each `Math.random()` draw is an integer the caller supplies, in `[0, k)`.
  pH and organic matter are integers in tenths: `65` stands for the string `"6.5"`.
- `SensorCards` (`sensor_cards.dfy`): the three-way status label under each sensor card.
- `SoilReport` (`soil_report.dfy`): the report view's `generateSummary` (health score, status,
  concerns, strengths) and `generateDetailedRecommendations`. It also models the `report`
  record that "Download PDF" exports. That record is a map from field names to JSON-like values,
  built with `+` in the literal's order, so the later fields override the earlier ones.
- `Dashboard` (`dashboard.dfy`): the page controller, a class holding the page state (`sensorData`,
  `uploadedImage`, `isAnalyzing`, `analysisResults`, `dragActive`) and one method per handler.
  Timers and the FileReader become discrete events (`SensorTick`, `ImageLoaded`,
  `AnalysisFinished`). A multiset of pending reads (`pendingReads`) and a count of pending
  delays (`pendingAnalyses`) make sure an event fires only after the call that scheduled it.
- `Wrappers` (`wrappers.dfy`): `Option`, standing for the page's `null`.

The sampled pH can reach 8.5 and the mocked pH 8.0. Those ranges are inclusive because
`toFixed(1)` rounds: `Math.random() * 3 + 5.5` lies in [5.5, 8.5), but a value such as 8.46
prints as `"8.5"`. The model follows the code, so the draws are in `[0, 31)` and `[0, 21)`.

Two scenarios, `Dashboard.UploadAnalyzeReset` and `Dashboard.SecondUploadRace`, step the
controller through its workflow. The second shows a behaviour the page really has. An upload
through the file picker followed by a drop onto the drop zone, which accepts a drop while an
image is shown, starts two analysis delays. The first delay to end clears `isAnalyzing` while the second is still
pending, and when the second ends its result replaces the first.

## Model

| member | source | states |
|---|---|---|
| MockData.GenerateSensorData | app/page.tsx:42-50 | every generated reading lies in its range: N in [20,119], P in [15,94], K in [30,149], temperature in [20,34], humidity in [40,79], pH tenths in [55,85]; the timestamp is the one supplied |
| MockData.SensorDrawsRecovered | app/page.tsx:42-48 | each field is determined by its own draw: the draws can be read back from the reading |
| MockData.SensorRangeCovered | app/page.tsx:42-48 | every reading in the ranges is produced by some valid draws, so the ranges are exact, not just bounds |
| MockData.MockAnalysisResult | app/page.tsx:107-124 | every mocked result is in range: soil type one of Loamy, Clay, Sandy; confidence in [85,99]; N in [30,69], P in [20,49], K in [40,89]; pH tenths in [60,80]; organic matter tenths in [20,50]; moisture in [40,69]; recommendations the fixed three strings in source order |
| MockData.AnalysisDrawsRecovered | app/page.tsx:107-117 | each field of the result is determined by its own draw |
| MockData.AnalysisRangeCovered | app/page.tsx:107-122 | every result in the ranges, each soil type included, is produced by some valid draws |
| SensorCards.NitrogenLabel | app/page.tsx:524 | "Optimal" iff N > 60, "Moderate" iff 30 < N <= 60, "Low" iff N <= 30 |
| SensorCards.PhosphorusLabel | app/page.tsx:537 | "Optimal" iff P > 50, "Moderate" iff 25 < P <= 50, "Low" iff P <= 25 |
| SensorCards.PotassiumLabel | app/page.tsx:550 | "Optimal" iff K > 80, "Moderate" iff 50 < K <= 80, "Low" iff K <= 50 |
| SensorCards.TemperatureLabel | app/page.tsx:563 | "Warm" iff t > 25, "Moderate" iff 20 < t <= 25, "Cool" iff t <= 20 |
| SensorCards.HumidityLabel | app/page.tsx:576 | "High" iff h > 70, "Moderate" iff 50 < h <= 70, "Low" iff h <= 50 |
| SensorCards.PhLabel | app/page.tsx:589-593 | "Alkaline" iff pH > 7.0, "Neutral" iff 6.0 < pH <= 7.0, "Acidic" iff pH <= 6.0 |
| SensorCards.ThresholdsAreStrict | app/page.tsx:524-593 | a reading equal to a threshold takes the lower label (nitrogen 60 is "Moderate", 30 is "Low"; pH 7.0 is "Neutral", 6.0 is "Acidic") |
| SoilReport.HealthScore | components/soil-report.tsx:37-38 | the score is at most 100, at least 0 for a non-negative total, exactly 100 from a total of 150 on, and below 150 it is the floor of total/150 as a percentage |
| SoilReport.HealthScoreMonotone | components/soil-report.tsx:38 | a larger NPK total never gives a lower score |
| SoilReport.StatusLabel | components/soil-report.tsx:42 | "Excellent" iff score > 80, "Good" iff 60 < score <= 80, "Needs Improvement" iff score <= 60 |
| SoilReport.GenerateSummary | components/soil-report.tsx:36-46 | the summary's score is the clamped NPK score (at most 100, at least 0 for non-negative NPK, 100 and "Excellent" from a total of 150) and the status follows it by the 80/60 thresholds; `primaryConcerns` is `["Low Nitrogen"]` when nitrogen < 30 and empty otherwise; `strengths` is `["High Potassium"]` when potassium > 70 and empty otherwise |
| SoilReport.DetailedRecommendations | components/soil-report.tsx:48-70 | at most two entries, no duplicates, every entry one of the two advisories; the nitrogen advisory is present iff nitrogen < 40, the pH advisory iff pH < 6.0, and when both are present nitrogen comes first |
| SoilReport.GenerateDetailedRecommendations | components/soil-report.tsx:48-70 | the list built by the guarded pushes is the one `DetailedRecommendations` describes |
| SoilReport.NitrogenTrigger | components/soil-report.tsx:51-58 | some entry has category "Nitrogen Management" and priority "High" iff nitrogen < 40 (35 yields it, 40 and 45 do not) |
| SoilReport.PhTrigger | components/soil-report.tsx:60-67 | some entry has category "pH Adjustment" and priority "Medium" iff pH < 6.0 (pH 6.0 does not yield it) |
| SoilReport.ReportHeader | components/soil-report.tsx:16-20 | the title, both dates and the location of the report are the literal's own values |
| SoilReport.ReportRecord | components/soil-report.tsx:16-24 | the report literal merged in source order; its fields are exactly the four header fields, the result's fields and `summary` (what each field holds is stated by `ReportHeader`, `ReportCopiesResultFields` and `ReportDerivedFields`) |
| SoilReport.ReportCopiesResultFields | components/soil-report.tsx:21 | every field of the result except `recommendations` is copied into the report unchanged |
| SoilReport.ReportDerivedFields | components/soil-report.tsx:21-23 | `summary` and `recommendations`, written after the spread, are the derived summary and recommendation records; the result's own advisory strings are overridden |
| Dashboard.Controller.CurrentStage | app/page.tsx:72-74 | the workflow stage: Analyzing iff the flag is set, Complete iff not analysing and a result is held, Idle otherwise |
| Dashboard.Controller.constructor | app/page.tsx:71-75 | mounting generates the first reading; no image, no result, no analysis, no drag highlight |
| Dashboard.Controller.SensorTick | app/page.tsx:79-84 | a tick replaces the reading wholesale with a fresh in-range one and changes nothing else |
| Dashboard.Controller.HandleImageUpload | app/page.tsx:94-101 | uploading only starts reading the file |
| Dashboard.Controller.ImageLoaded | app/page.tsx:96-99 | the loaded image is stored and an analysis is started: the stage is Analyzing |
| Dashboard.Controller.AnalyzeImage | app/page.tsx:103-105 | starting an analysis sets `isAnalyzing` and schedules one completion |
| Dashboard.Controller.AnalysisFinished | app/page.tsx:105-127 | on completion the result is an in-range mocked result, `isAnalyzing` is false, and the image is untouched |
| Dashboard.Controller.HandleDrag | app/page.tsx:130-138 | dragenter and dragover set the highlight, dragleave clears it, any other event type leaves it |
| Dashboard.Controller.HandleDrop | app/page.tsx:140-148 | a drop always clears the highlight and uploads the first file only when one is present |
| Dashboard.Controller.HandleFileInput | app/page.tsx:354-358 | the file picker uploads the first chosen file only when one is present |
| Dashboard.Controller.ChangeImage | app/page.tsx:326-329 | the image and the result become null, nothing else changes, and a completed analysis returns to Idle |
| Dashboard.Controller.DownloadPdfReport | app/page.tsx:150-155 | with no result, or when no window opens, nothing is printed; otherwise the current result is printed; the page state never changes |
| Dashboard.UploadAnalyzeReset | app/page.tsx:94-151 | drop, load, finish, print, reset: the stages Analyzing, Complete and Idle follow in order, and printing after the reset prints nothing |
| Dashboard.SecondUploadRace | app/page.tsx:103-148 | with two analyses started, the first completion clears the flag while one is still pending; the second result is the one kept |

## Left out

- SoilReport.HealthScore: the score is computed in exact arithmetic, `min(100, (100 * total) / 150)`. The page computes `(total / 150) * 100` in IEEE doubles, which can land just below an integer. A total of 87 gives 57.99999999999999 there, which floors to 57, where the model gives 58. The clamp and monotonicity hold in both.
- MockData.GenerateSensorData, MockData.MockAnalysisResult: the draws stand for `Math.random()`, and only their ranges are modelled, not their distribution (after `toFixed(1)` rounding, the two end values of a one-decimal range are half as likely as the others).
- Formatted strings: `toFixed`, `toLocaleTimeString`, `toLocaleDateString` and ISO timestamps are locale and float formatting. Timestamps and dates are strings the caller supplies, and one-decimal strings are integer tenths.
- Time: the 5000 ms sensor interval, the 3000 ms analysis delay and the 500 ms print delay are discrete events without a clock. Clearing the interval on unmount is not modelled.
- Dashboard.Controller.HandleDrag, Dashboard.Controller.HandleDrop: `e.preventDefault()` and `e.stopPropagation()` are not modelled, nor is the browser's ordering of drag events. In the page, a drop is delivered only because `handleDrag` cancels `dragover`; the model accepts `HandleDrop` at any time.
- FileReader and data URLs are browser I/O. Reading a file is the `ImageLoaded` event, which receives the data URL as a parameter. FileReader callbacks may fire in any order, which the multiset of pending reads allows.
- The printed report's HTML template, `window.open` and `print`, and the JSON data-URL download of the report record are string templating and DOM I/O. `DownloadPdfReport` takes whether a window opened as a parameter.
- The report record's keys are a map, so the key order of the serialised JSON is not modelled. Only which value each key ends up with is.
- Presentation state and effects are not modelled: `activeTab`, `darkMode` and its `classList` updates, `selectedCrop`, the charts and their static tables, and all markup.
- app/layout.tsx holds only metadata and a root wrapper, with no logic.
