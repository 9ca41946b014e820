/**
 * The similar-cases service: the backend's `similar_cases` list when present,
 * otherwise a fixed table of similar cases keyed by case id.
 */
module SimilarCasesService {
  import opened Js
  import opened Cases

  /** A case with a similarity score (0 to 100) and the reason it matches. */
  datatype SimilarCase = SimilarCase(base: Case, similarity: int, matchReason: string)

  function SimilarCaseToJson(s: SimilarCase): Json {
    Obj(CaseFields(s.base)["similarity" := Num(s.similarity as real)]["matchReason" := Str(s.matchReason)])
  }

  function AllToJson(ss: seq<SimilarCase>): (r: seq<Json>)
    ensures |r| == |ss| && forall i :: 0 <= i < |ss| ==> r[i] == SimilarCaseToJson(ss[i])
  {
    seq(|ss|, i requires 0 <= i < |ss| => SimilarCaseToJson(ss[i]))
  }

  const FallbackTable: map<int, seq<SimilarCase>> := map[
    2 := [
      SimilarCase(Case(3, "Unauthorized Transaction", "Xavier Brown", "$1000", "Apr 07, 2025, 08:42 AM", High, Open),
                  92, "Similar transaction pattern and amount"),
      SimilarCase(Case(4, "Unauthorized Transaction", "Jason Parker", "$100", "Mar 30, 2025, 09:35 AM", Urgent, Open),
                  78, "Similar transaction type and timeframe")
    ],
    1 := [
      SimilarCase(Case(5, "Payment Dispute", "Emily Rodriguez", "$150", "Jan 16, 2025, 09:28 AM", Medium, Open),
                  85, "Similar dispute reason and customer profile"),
      SimilarCase(Case(6, "Payment Dispute", "George Sanders", "$297.31", "Nov 04, 2024, 10:06 AM", Low, Resolved),
                  70, "Similar dispute type and resolution path")
    ]
  ]

  /** `fallbackSimilarCases[caseId] || []` */
  function FallbackSimilarCases(caseId: int): seq<SimilarCase> {
    if caseId in FallbackTable then FallbackTable[caseId] else []
  }

  /**
   * `getSimilarCases(caseId)`: a response whose `similar_cases` is an array
   * gives that array as it is; any other response (a bare array included) and
   * a request that throws give the fallback table's entry. It never rejects.
   */
  function GetSimilarCases(caseId: int, r: HttpResult): (res: seq<Json>)
    ensures r.Ok? && Truthy(r.data) && IsArray(Get(r.data, "similar_cases")) ==>
      res == Get(r.data, "similar_cases").items
    ensures !(r.Ok? && Truthy(r.data) && IsArray(Get(r.data, "similar_cases"))) ==>
      res == AllToJson(FallbackSimilarCases(caseId))
  {
    match r
    case Ok(data) =>
      if Truthy(data) && IsArray(Get(data, "similar_cases")) then Get(data, "similar_cases").items
      else AllToJson(FallbackSimilarCases(caseId))
    case Failed => AllToJson(FallbackSimilarCases(caseId))
  }

  function Ids(ss: seq<SimilarCase>): (r: seq<int>)
    ensures |r| == |ss| && forall i :: 0 <= i < |ss| ==> r[i] == ss[i].base.id
  {
    seq(|ss|, i requires 0 <= i < |ss| => ss[i].base.id)
  }

  function Scores(ss: seq<SimilarCase>): (r: seq<int>)
    ensures |r| == |ss| && forall i :: 0 <= i < |ss| ==> r[i] == ss[i].similarity
  {
    seq(|ss|, i requires 0 <= i < |ss| => ss[i].similarity)
  }

  /**
   * The table: case 2 is similar to cases 3 and 4 (scores 92 and 78), case 1
   * to cases 5 and 6 (85 and 70), and every other case to none.
   */
  lemma FallbackEntries(caseId: int)
    ensures caseId == 2 ==> Ids(FallbackSimilarCases(caseId)) == [3, 4] && Scores(FallbackSimilarCases(caseId)) == [92, 78]
    ensures caseId == 1 ==> Ids(FallbackSimilarCases(caseId)) == [5, 6] && Scores(FallbackSimilarCases(caseId)) == [85, 70]
    ensures caseId != 1 && caseId != 2 ==> FallbackSimilarCases(caseId) == []
  {
    assert FallbackTable.Keys == {1, 2};
  }

  /**
   * Every fallback entry has a score in [0, 100], is a case other than the one
   * it is listed for, and is, apart from score and reason, the static case
   * with the same id.
   */
  lemma FallbackEntriesWellFormed(caseId: int, i: int)
    requires 0 <= i < |FallbackSimilarCases(caseId)|
    ensures var s := FallbackSimilarCases(caseId)[i];
      && 0 <= s.similarity <= 100
      && s.base.id != caseId
      && 1 <= s.base.id <= 6 && s.base == StaticCases[s.base.id - 1]
  {
    assert FallbackTable.Keys == {1, 2};
    assert caseId == 1 || caseId == 2;
  }
}
