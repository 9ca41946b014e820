/**
 * The case record and the six-entry static case list that the case-queue
 * service falls back to when the backend is unreachable or answers with an
 * unexpected shape.
 */
module Cases {
  import opened Wrappers
  import opened Js

  datatype Priority = Low | Medium | High | Urgent

  datatype Status = Open | Resolved

  datatype Case = Case(
    id: int,
    title: string,
    customer: string,
    amount: string,   // already formatted for display, e.g. "$936.85"
    date: string,     // already formatted for display
    priority: Priority,
    status: Status)

  function PriorityName(p: Priority): string {
    match p
    case Low => "Low"
    case Medium => "Medium"
    case High => "High"
    case Urgent => "Urgent"
  }

  function StatusName(s: Status): string {
    match s
    case Open => "Open"
    case Resolved => "Resolved"
  }

  /** The properties of the JavaScript object that holds the case. */
  function CaseFields(c: Case): map<string, Json> {
    map[
      "id" := Num(c.id as real),
      "title" := Str(c.title),
      "customer" := Str(c.customer),
      "amount" := Str(c.amount),
      "date" := Str(c.date),
      "priority" := Str(PriorityName(c.priority)),
      "status" := Str(StatusName(c.status))]
  }

  function CaseToJson(c: Case): Json {
    Obj(CaseFields(c))
  }

  const StaticCases: seq<Case> := [
    Case(1, "Payment Dispute", "Alice Smith", "$50", "Apr 07, 2025, 02:11 PM", Medium, Open),
    Case(2, "Unauthorized Transaction", "Bob Johnson", "$936.85", "Mar 26, 2025, 08:05 AM", High, Open),
    Case(3, "Unauthorized Transaction", "Xavier Brown", "$1000", "Apr 07, 2025, 08:42 AM", High, Open),
    Case(4, "Unauthorized Transaction", "Jason Parker", "$100", "Mar 30, 2025, 09:35 AM", Urgent, Open),
    Case(5, "Payment Dispute", "Emily Rodriguez", "$150", "Jan 16, 2025, 09:28 AM", Medium, Open),
    Case(6, "Payment Dispute", "George Sanders", "$297.31", "Nov 04, 2024, 10:06 AM", Low, Resolved)
  ]

  /** The position `cases.find(c => c.id === id)` stops at: the first case with that id, if any. */
  function FindIndexById(cases: seq<Case>, id: int): (r: Option<nat>)
    ensures r.Some? ==> r.value < |cases| && cases[r.value].id == id
    ensures r.Some? ==> forall j :: 0 <= j < r.value ==> cases[j].id != id
    ensures r.None? <==> forall i :: 0 <= i < |cases| ==> cases[i].id != id
  {
    if |cases| == 0 then None
    else if cases[0].id == id then Some(0)
    else
      match FindIndexById(cases[1..], id)
      case None => None
      case Some(k) => Some(k + 1)
  }

  /** `cases.find(c => c.id === id)` */
  function FindById(cases: seq<Case>, id: int): Option<Case> {
    match FindIndexById(cases, id)
    case None => None
    case Some(i) => Some(cases[i])
  }

  /** The static list holds exactly the ids 1 to 6, the i-th entry having id i + 1. */
  lemma StaticCaseIds(id: int)
    ensures |StaticCases| == 6
    ensures FindById(StaticCases, id).Some? <==> 1 <= id <= 6
    ensures 1 <= id <= 6 ==> FindById(StaticCases, id) == Some(StaticCases[id - 1])
  {
    assert forall i :: 0 <= i < |StaticCases| ==> StaticCases[i].id == i + 1;
    if 1 <= id <= 6 {
      assert StaticCases[id - 1].id == id;
    }
  }
}
