/**
 * The two derivations of the report view and the record its "Download PDF" button exports.
 *
 * The health score is stated in exact integer arithmetic: `floor(total / 150 * 100)` is
 * `(100 * total) / 150`, Dafny's `/` being floor division for a positive divisor.
 */
module SoilReport {
  import opened MockData

  function NpkTotal(npk: Npk): int {
    npk.nitrogen + npk.phosphorus + npk.potassium
  }

  function Min(a: int, b: int): int {
    if a <= b then a else b
  }

  /** The soil health score of an NPK total, clamped at 100. */
  function HealthScore(total: int): (score: int)
    ensures score <= 100
    ensures total >= 0 ==> score >= 0
    ensures total >= 150 ==> score == 100
    ensures total < 150 ==> score < 100 && 150 * score <= 100 * total < 150 * (score + 1)
  {
    Min(100, (100 * total) / 150)
  }

  /** A larger NPK total never gives a lower health score. */
  lemma HealthScoreMonotone(a: int, b: int)
    requires a <= b
    ensures HealthScore(a) <= HealthScore(b)
  {
  }

  /** The overall status label of a health score. */
  function StatusLabel(score: int): (status: string)
    ensures status == "Excellent" <==> score > 80
    ensures status == "Good" <==> 60 < score <= 80
    ensures status == "Needs Improvement" <==> score <= 60
  {
    if score > 80 then "Excellent" else if score > 60 then "Good" else "Needs Improvement"
  }

  /** The executive summary shown at the top of the report. */
  datatype Summary = Summary(
    healthScore: int,
    status: string,
    primaryConcerns: seq<string>,
    strengths: seq<string>)

  /**
   * `generateSummary`: the clamped NPK score with the status it earns, "Low Nitrogen" as the only
   * concern exactly when nitrogen is below 30, "High Potassium" as the only strength exactly when
   * potassium is above 70.
   */
  function GenerateSummary(results: AnalysisResult): (s: Summary)
    ensures s.healthScore == HealthScore(NpkTotal(results.npk))
    ensures s.healthScore <= 100
    ensures NpkTotal(results.npk) >= 150 ==> s.healthScore == 100 && s.status == "Excellent"
    ensures (0 <= results.npk.nitrogen && 0 <= results.npk.phosphorus && 0 <= results.npk.potassium)
            ==> 0 <= s.healthScore
    ensures s.status == "Excellent" <==> s.healthScore > 80
    ensures s.status == "Good" <==> 60 < s.healthScore <= 80
    ensures s.status == "Needs Improvement" <==> s.healthScore <= 60
    ensures results.npk.nitrogen < 30 ==> s.primaryConcerns == ["Low Nitrogen"]
    ensures results.npk.nitrogen >= 30 ==> s.primaryConcerns == []
    ensures results.npk.potassium > 70 ==> s.strengths == ["High Potassium"]
    ensures results.npk.potassium <= 70 ==> s.strengths == []
  {
    var score := HealthScore(NpkTotal(results.npk));
    Summary(
      score,
      StatusLabel(score),
      if results.npk.nitrogen < 30 then ["Low Nitrogen"] else [],
      if results.npk.potassium > 70 then ["High Potassium"] else [])
  }

  /** One advisory record of the detailed recommendations. */
  datatype Recommendation = Recommendation(
    category: string,
    priority: string,
    action: string,
    timeline: string)

  const NitrogenAdvice := Recommendation(
    "Nitrogen Management", "High",
    "Apply nitrogen-rich organic fertilizer", "Within 2 weeks")

  const PhAdvice := Recommendation(
    "pH Adjustment", "Medium",
    "Apply lime to increase soil pH", "Before next planting season")

  /** The recommendations `generateDetailedRecommendations` returns, as a value. */
  function DetailedRecommendations(results: AnalysisResult): (recs: seq<Recommendation>)
    ensures |recs| <= 2
    ensures NitrogenAdvice in recs <==> results.npk.nitrogen < 40
    ensures PhAdvice in recs <==> results.phTenths < 60
    ensures forall i :: 0 <= i < |recs| ==> recs[i] == NitrogenAdvice || recs[i] == PhAdvice
    ensures forall i, j :: 0 <= i < j < |recs| ==> recs[i] != recs[j]
    ensures |recs| == 2 ==> recs[0] == NitrogenAdvice && recs[1] == PhAdvice
  {
    (if results.npk.nitrogen < 40 then [NitrogenAdvice] else [])
      + (if results.phTenths < 60 then [PhAdvice] else [])
  }

  /** `generateDetailedRecommendations`: guarded pushes onto an initially empty list. */
  method GenerateDetailedRecommendations(results: AnalysisResult) returns (recs: seq<Recommendation>)
    ensures recs == DetailedRecommendations(results)
  {
    recs := [];
    if results.npk.nitrogen < 40 {
      recs := recs + [NitrogenAdvice];
    }
    if results.phTenths < 60 {
      recs := recs + [PhAdvice];
    }
  }

  /** Some recommendation is a high-priority nitrogen advisory exactly when nitrogen is below 40. */
  lemma NitrogenTrigger(results: AnalysisResult)
    ensures (exists i :: 0 <= i < |DetailedRecommendations(results)|
               && DetailedRecommendations(results)[i].category == "Nitrogen Management"
               && DetailedRecommendations(results)[i].priority == "High")
            <==> results.npk.nitrogen < 40
  {
    var recs := DetailedRecommendations(results);
    if results.npk.nitrogen < 40 {
      assert recs[0] == NitrogenAdvice;
    }
  }

  /** Some recommendation is a medium-priority pH advisory exactly when pH is below 6.0. */
  lemma PhTrigger(results: AnalysisResult)
    ensures (exists i :: 0 <= i < |DetailedRecommendations(results)|
               && DetailedRecommendations(results)[i].category == "pH Adjustment"
               && DetailedRecommendations(results)[i].priority == "Medium")
            <==> results.phTenths < 60
  {
    var recs := DetailedRecommendations(results);
    if results.phTenths < 60 {
      assert recs[|recs| - 1] == PhAdvice;
    }
  }

  /** A value of the exported JSON document; one-decimal strings are held as tenths. */
  datatype Value =
    | Str(s: string)
    | Int(i: int)
    | Decimal(tenths: int)
    | List(items: seq<Value>)
    | Object(fields: map<string, Value>)

  function NpkValue(npk: Npk): Value {
    Object(map["nitrogen" := Int(npk.nitrogen), "phosphorus" := Int(npk.phosphorus),
               "potassium" := Int(npk.potassium)])
  }

  function StrList(xs: seq<string>): (v: Value)
    ensures v.List? && |v.items| == |xs|
  {
    List(seq(|xs|, i requires 0 <= i < |xs| => Str(xs[i])))
  }

  /** The own fields of an analysis result object, as spread by `...analysisResults`. */
  function ResultFields(results: AnalysisResult): map<string, Value> {
    map[
      "soilType" := Str(results.soilType),
      "confidence" := Int(results.confidence),
      "npk" := NpkValue(results.npk),
      "ph" := Decimal(results.phTenths),
      "organicMatter" := Decimal(results.organicMatterTenths),
      "moisture" := Int(results.moisture),
      "recommendations" := StrList(results.recommendations),
      "timestamp" := Str(results.timestamp)]
  }

  function SummaryValue(s: Summary): Value {
    Object(map[
      "healthScore" := Int(s.healthScore),
      "status" := Str(s.status),
      "primaryConcerns" := StrList(s.primaryConcerns),
      "strengths" := StrList(s.strengths)])
  }

  function RecommendationValue(r: Recommendation): Value {
    Object(map[
      "category" := Str(r.category), "priority" := Str(r.priority),
      "action" := Str(r.action), "timeline" := Str(r.timeline)])
  }

  function RecommendationList(recs: seq<Recommendation>): (v: Value)
    ensures v.List? && |v.items| == |recs|
  {
    List(seq(|recs|, i requires 0 <= i < |recs| => RecommendationValue(recs[i])))
  }

  const ReportHeaderKeys: set<string> := {"title", "generatedDate", "analysisDate", "location"}

  /**
   * The `report` object literal of `generatePDFReport`. The object is built in the literal's
   * order, a later key overriding an earlier one: the four header keys, then the result's own
   * fields, then `summary` and `recommendations`; so its keys are the header keys, the result's
   * keys and `summary`. The two dates are the locale-formatted
   * strings the caller supplies.
   */
  function ReportRecord(results: AnalysisResult, generatedDate: string, analysisDate: string)
    : (m: map<string, Value>)
    ensures m.Keys == ReportHeaderKeys + ResultFields(results).Keys + {"summary"}
  {
    map[
      "title" := Str("Green Grids Professional Soil Analysis Report"),
      "generatedDate" := Str(generatedDate),
      "analysisDate" := Str(analysisDate),
      "location" := Str("Farm Location")]
      + ResultFields(results)
      + map[
        "summary" := SummaryValue(GenerateSummary(results)),
        "recommendations" := RecommendationList(DetailedRecommendations(results))]
  }

  /** Every field of the result other than `recommendations` reaches the report unchanged. */
  lemma ReportCopiesResultFields(results: AnalysisResult, generatedDate: string, analysisDate: string)
    ensures var m := ReportRecord(results, generatedDate, analysisDate);
      forall k :: k in ResultFields(results) && k != "recommendations" ==> k in m && m[k] == ResultFields(results)[k]
  {
  }

  /** The header fields of the literal are not overridden by the spread. */
  lemma ReportHeader(results: AnalysisResult, generatedDate: string, analysisDate: string)
    ensures var m := ReportRecord(results, generatedDate, analysisDate);
      && m["title"] == Str("Green Grids Professional Soil Analysis Report")
      && m["generatedDate"] == Str(generatedDate)
      && m["analysisDate"] == Str(analysisDate)
      && m["location"] == Str("Farm Location")
  {
  }

  /**
   * The report carries the derived summary and recommendation records; when the result has
   * advisory strings of its own, they do not survive the merge.
   */
  lemma ReportDerivedFields(results: AnalysisResult, generatedDate: string, analysisDate: string)
    ensures var m := ReportRecord(results, generatedDate, analysisDate);
      && m["summary"] == SummaryValue(GenerateSummary(results))
      && m["recommendations"] == RecommendationList(DetailedRecommendations(results))
      && (results.recommendations != [] ==> m["recommendations"] != ResultFields(results)["recommendations"])
  {
    var derived := RecommendationList(DetailedRecommendations(results));
    var own := StrList(results.recommendations);
    if results.recommendations != [] && derived.items != [] {
      assert derived.items[0].Object? && own.items[0].Str?;
    }
  }
}
