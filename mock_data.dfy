/**
 * The simulated data of the dashboard: a live sensor reading and the mocked result of a soil
 * image analysis, and the two samplers that produce them.
 *
 * Each `Math.floor(Math.random() * k) + base` of the page becomes a caller-supplied integer
 * draw in [0, k), so that the ranges of the generated values can be stated and proved.
 * One-decimal quantities (pH, organic matter) are held as integer tenths: `(Math.random() * w
 * + lo).toFixed(1)` can give any of the one-decimal values from `lo` to `lo + w` inclusive (the
 * upper one by rounding), which is a draw in [0, 10 * w + 1) added to `10 * lo`.
 */
module MockData {

  /** A live reading of the farm's sensors; pH is in tenths (65 stands for "6.5"). */
  datatype SensorReading = SensorReading(
    nitrogen: int,
    phosphorus: int,
    potassium: int,
    temperature: int,
    humidity: int,
    phTenths: int,
    timestamp: string)

  /** The random draws behind one sensor reading, one per field. */
  datatype SensorDraws = SensorDraws(
    nitrogen: int, phosphorus: int, potassium: int,
    temperature: int, humidity: int, phTenths: int)

  predicate ValidSensorDraws(d: SensorDraws) {
    && 0 <= d.nitrogen < 100
    && 0 <= d.phosphorus < 80
    && 0 <= d.potassium < 120
    && 0 <= d.temperature < 15
    && 0 <= d.humidity < 40
    && 0 <= d.phTenths < 31
  }

  /** The documented range of every sensor field. */
  predicate SensorInRange(r: SensorReading) {
    && 20 <= r.nitrogen <= 119
    && 15 <= r.phosphorus <= 94
    && 30 <= r.potassium <= 149
    && 20 <= r.temperature <= 34
    && 40 <= r.humidity <= 79
    && 55 <= r.phTenths <= 85
  }

  /** `generateSensorData`: every field is its own draw shifted to the field's range. */
  function GenerateSensorData(d: SensorDraws, timestamp: string): (r: SensorReading)
    requires ValidSensorDraws(d)
    ensures SensorInRange(r)
    ensures r.timestamp == timestamp
  {
    SensorReading(
      d.nitrogen + 20,
      d.phosphorus + 15,
      d.potassium + 30,
      d.temperature + 20,
      d.humidity + 40,
      d.phTenths + 55,
      timestamp)
  }

  /** The draws that produce a given reading: the inverse of `GenerateSensorData`. */
  function SensorDrawsOf(r: SensorReading): SensorDraws {
    SensorDraws(
      r.nitrogen - 20, r.phosphorus - 15, r.potassium - 30,
      r.temperature - 20, r.humidity - 40, r.phTenths - 55)
  }

  /** Distinct draws give distinct readings: each field depends on its own draw only. */
  lemma SensorDrawsRecovered(d: SensorDraws, timestamp: string)
    requires ValidSensorDraws(d)
    ensures SensorDrawsOf(GenerateSensorData(d, timestamp)) == d
  {
  }

  /** Every reading in the documented ranges is generated by some valid draws. */
  lemma SensorRangeCovered(r: SensorReading)
    requires SensorInRange(r)
    ensures ValidSensorDraws(SensorDrawsOf(r))
    ensures GenerateSensorData(SensorDrawsOf(r), r.timestamp) == r
  {
  }

  /** The nutrient part of an analysis result, in ppm. */
  datatype Npk = Npk(nitrogen: int, phosphorus: int, potassium: int)

  /** The mocked result of one soil image analysis; pH and organic matter are in tenths. */
  datatype AnalysisResult = AnalysisResult(
    soilType: string,
    confidence: int,
    npk: Npk,
    phTenths: int,
    organicMatterTenths: int,
    moisture: int,
    recommendations: seq<string>,
    timestamp: string)

  const SoilTypes: seq<string> := ["Loamy", "Clay", "Sandy"]

  /** The advisory strings every mocked result carries, in this order. */
  const FixedRecommendations: seq<string> := [
    "Add organic compost to improve soil structure",
    "Consider lime application to adjust pH levels",
    "Implement crop rotation for better nutrient cycling"
  ]

  /** The random draws behind one mocked analysis result. */
  datatype AnalysisDraws = AnalysisDraws(
    soilType: int, confidence: int,
    nitrogen: int, phosphorus: int, potassium: int,
    phTenths: int, organicMatterTenths: int, moisture: int)

  predicate ValidAnalysisDraws(d: AnalysisDraws) {
    && 0 <= d.soilType < 3
    && 0 <= d.confidence < 15
    && 0 <= d.nitrogen < 40
    && 0 <= d.phosphorus < 30
    && 0 <= d.potassium < 50
    && 0 <= d.phTenths < 21
    && 0 <= d.organicMatterTenths < 31
    && 0 <= d.moisture < 30
  }

  /** The documented range of every field of an analysis result. */
  predicate AnalysisInRange(r: AnalysisResult) {
    && r.soilType in SoilTypes
    && 85 <= r.confidence <= 99
    && 30 <= r.npk.nitrogen <= 69
    && 20 <= r.npk.phosphorus <= 49
    && 40 <= r.npk.potassium <= 89
    && 60 <= r.phTenths <= 80
    && 20 <= r.organicMatterTenths <= 50
    && 40 <= r.moisture <= 69
    && r.recommendations == FixedRecommendations
  }

  /** The `mockResults` record built by `analyzeImage` after its delay. */
  function MockAnalysisResult(d: AnalysisDraws, timestamp: string): (r: AnalysisResult)
    requires ValidAnalysisDraws(d)
    ensures AnalysisInRange(r)
    ensures r.timestamp == timestamp
  {
    AnalysisResult(
      SoilTypes[d.soilType],
      d.confidence + 85,
      Npk(d.nitrogen + 30, d.phosphorus + 20, d.potassium + 40),
      d.phTenths + 60,
      d.organicMatterTenths + 20,
      d.moisture + 40,
      FixedRecommendations,
      timestamp)
  }

  /** The position of a soil type in the list the sampler indexes. */
  function SoilTypeIndex(soilType: string): (i: int)
    ensures soilType in SoilTypes ==> 0 <= i < 3 && SoilTypes[i] == soilType
  {
    if soilType == "Loamy" then 0 else if soilType == "Clay" then 1 else 2
  }

  /** The draws that produce a given result: the inverse of `MockAnalysisResult`. */
  function AnalysisDrawsOf(r: AnalysisResult): AnalysisDraws {
    AnalysisDraws(
      SoilTypeIndex(r.soilType), r.confidence - 85,
      r.npk.nitrogen - 30, r.npk.phosphorus - 20, r.npk.potassium - 40,
      r.phTenths - 60, r.organicMatterTenths - 20, r.moisture - 40)
  }

  /** Distinct draws give distinct results: each field depends on its own draw only. */
  lemma AnalysisDrawsRecovered(d: AnalysisDraws, timestamp: string)
    requires ValidAnalysisDraws(d)
    ensures AnalysisDrawsOf(MockAnalysisResult(d, timestamp)) == d
  {
  }

  /** Every result in the documented ranges, each of the three soil types included, is produced by some valid draws. */
  lemma AnalysisRangeCovered(r: AnalysisResult)
    requires AnalysisInRange(r)
    ensures ValidAnalysisDraws(AnalysisDrawsOf(r))
    ensures MockAnalysisResult(AnalysisDrawsOf(r), r.timestamp) == r
  {
  }
}
