/**
 * The case-study service: the backend's analysis of a case as it is, or, when
 * the request fails, a fixed analysis in which only the case's amount and
 * customer name appear.
 */
module CaseStudyService {
  import opened Js
  import opened Cases

  datatype RiskAssessment = RiskAssessment(
    score: int,
    level: string,
    deviceTrustScore: int,
    behavioralMatch: int,
    transactionPattern: string)

  datatype RecommendationType = Approve | Security | Monitor

  datatype Recommendation = Recommendation(action: string, description: string, kind: RecommendationType)

  datatype Analysis = Analysis(points: seq<string>, risk: RiskAssessment, recommendations: seq<Recommendation>)

  function TypeName(t: RecommendationType): string {
    match t
    case Approve => "approve"
    case Security => "security"
    case Monitor => "monitor"
  }

  function StringsToJson(ss: seq<string>): (r: seq<Json>)
    ensures |r| == |ss|
  {
    seq(|ss|, i requires 0 <= i < |ss| => Str(ss[i]))
  }

  function RiskToJson(r: RiskAssessment): Json {
    Obj(map[
      "score" := Num(r.score as real),
      "level" := Str(r.level),
      "deviceTrustScore" := Num(r.deviceTrustScore as real),
      "behavioralMatch" := Num(r.behavioralMatch as real),
      "transactionPattern" := Str(r.transactionPattern)])
  }

  function RecommendationToJson(r: Recommendation): Json {
    Obj(map["action" := Str(r.action), "description" := Str(r.description), "type" := Str(TypeName(r.kind))])
  }

  function RecommendationsToJson(rs: seq<Recommendation>): (r: seq<Json>)
    ensures |r| == |rs|
  {
    seq(|rs|, i requires 0 <= i < |rs| => RecommendationToJson(rs[i]))
  }

  /** The response body `{summary: {points}, riskAssessment, recommendations}`. */
  function AnalysisToJson(a: Analysis): Json {
    Obj(map[
      "summary" := Obj(map["points" := Arr(StringsToJson(a.points))]),
      "riskAssessment" := RiskToJson(a.risk),
      "recommendations" := Arr(RecommendationsToJson(a.recommendations))])
  }

  const AmountPrefix := "The transaction in question ("
  const CustomerPrefix := ") was flagged due to unusual activity patterns that deviate from "
  const CustomerSuffix := "'s normal behavior."

  /** `getFallbackAnalysis(caseData)` */
  function FallbackAnalysis(c: Case): Analysis {
    Analysis(
      [ AmountPrefix + c.amount + CustomerPrefix + c.customer + CustomerSuffix,
        "Transaction occurred from an unrecognized device and IP address not previously associated with this account.",
        "The timing of the transaction (late night) does not match the customer's typical usage patterns."
      ],
      RiskAssessment(78, "High", 23, 18, "Anomalous"),
      [ Recommendation("Approve Chargeback",
          "Evidence strongly supports customer's claim of unauthorized transaction", Approve),
        Recommendation("Enable Additional Security",
          "Recommend two-factor authentication for future transactions", Security)
      ])
  }

  /**
   * `generateCaseStudy(caseData)`: the response body as it is when the request
   * succeeds, the fallback analysis of the case when it throws; it never rejects.
   */
  function GenerateCaseStudy(c: Case, r: HttpResult): (res: Json)
    ensures r.Ok? ==> res == r.data
    ensures r.Failed? ==> res == AnalysisToJson(FallbackAnalysis(c))
  {
    if r.Ok? then r.data else AnalysisToJson(FallbackAnalysis(c))
  }

  /** `t` occurs in `s` starting at position `at`. */
  predicate OccursAt(t: string, s: string, at: int) {
    0 <= at && at + |t| <= |s| && s[at..at + |t|] == t
  }

  /**
   * The fallback has three summary points: the first quotes the case's amount
   * and then its customer's name, the other two are fixed sentences that
   * mention neither.
   */
  lemma FallbackSummary(c: Case)
    ensures var points := FallbackAnalysis(c).points;
      && |points| == 3
      && OccursAt(c.amount, points[0], |AmountPrefix|)
      && OccursAt(c.customer, points[0], |AmountPrefix| + |c.amount| + |CustomerPrefix|)
      && forall d: Case :: FallbackAnalysis(d).points[1..] == points[1..]
  {
    var first := FallbackAnalysis(c).points[0];
    assert first[|AmountPrefix|..|AmountPrefix| + |c.amount|] == c.amount;
    var at := |AmountPrefix| + |c.amount| + |CustomerPrefix|;
    assert first[at..at + |c.customer|] == c.customer;
  }

  /** The fallback risk assessment is fixed: score 78, level "High", device trust 23, behavioural match 18, pattern "Anomalous". */
  lemma FallbackRisk(c: Case)
    ensures FallbackAnalysis(c).risk == RiskAssessment(78, "High", 23, 18, "Anomalous")
  {
  }

  /** The fallback recommends exactly two actions: first an "approve", then a "security" one. */
  lemma FallbackRecommendations(c: Case)
    ensures var recs := FallbackAnalysis(c).recommendations;
      |recs| == 2 && recs[0].kind == Approve && recs[1].kind == Security
  {
  }

  /** The fallback depends on the case's amount and customer only. */
  lemma FallbackDependsOnAmountAndCustomer(c: Case, d: Case)
    requires c.amount == d.amount && c.customer == d.customer
    ensures FallbackAnalysis(c) == FallbackAnalysis(d)
    ensures GenerateCaseStudy(c, Failed) == GenerateCaseStudy(d, Failed)
  {
  }

  /** Different amounts give different fallbacks: the amount is really quoted. */
  lemma FallbackDistinguishesAmounts(c: Case, d: Case)
    requires c.customer == d.customer && c.amount != d.amount
    ensures FallbackAnalysis(c) != FallbackAnalysis(d)
  {
    var pc, pd := FallbackAnalysis(c).points[0], FallbackAnalysis(d).points[0];
    var n := |AmountPrefix|;
    if |c.amount| == |d.amount| {
      assert pc[n..n + |c.amount|] == c.amount;
      assert pd[n..n + |d.amount|] == d.amount;
    } else {
      assert |pc| - |pd| == |c.amount| - |d.amount|;
    }
  }
}
