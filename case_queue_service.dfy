/**
 * The case-queue service: the case list with its two accepted response shapes,
 * the per-case summary normalised into a detail record, the transaction list
 * of a case drawn from two endpoints in a fixed order, and the similar-case
 * list. Every operation degrades to static data or an empty list; only the
 * detail of a case that is not in the static list can fail outward.
 */
module CaseQueueService {
  import opened Wrappers
  import opened Js
  import opened Cases
  import TransactionService

  // ---------------------------------------------------------------------------
  // getCases
  // ---------------------------------------------------------------------------

  datatype CaseQueueResponse = CaseQueueResponse(cases: seq<Json>, total: Json)

  function StaticCasesJson(): (r: seq<Json>)
    ensures |r| == |StaticCases|
    ensures forall i :: 0 <= i < |r| ==> r[i] == CaseToJson(StaticCases[i])
  {
    seq(|StaticCases|, i requires 0 <= i < |StaticCases| => CaseToJson(StaticCases[i]))
  }

  /** The answer when the response is unusable: the static list, with its length as the total. */
  function StaticResponse(): CaseQueueResponse {
    CaseQueueResponse(StaticCasesJson(), Num(|StaticCases| as real))
  }

  /**
   * The `map` callback of `getCases` applied to one case: a truthy
   * `related_transactions` is copied onto `transactions`; nothing else changes.
   */
  function WithTransactions(item: Json): (r: Json)
    requires !Nullish(item)
    ensures !Nullish(r)
    ensures Truthy(Get(item, "related_transactions")) ==>
      r.Obj? && Get(r, "transactions") == Get(item, "related_transactions")
    ensures !Truthy(Get(item, "related_transactions")) ==> r == item
    ensures forall k :: k != "transactions" ==> Get(r, k) == Get(item, k)
  {
    var related := Get(item, "related_transactions");
    if Truthy(related) then Obj(item.fields["transactions" := related]) else item
  }

  /** The mapped list, or None when the callback throws on a null or undefined case. */
  function AttachAll(items: seq<Json>): (r: Option<seq<Json>>)
    ensures r.Some? <==> NoNullish(items)
    ensures r.Some? ==> |r.value| == |items| && forall i :: 0 <= i < |items| ==> r.value[i] == WithTransactions(items[i])
  {
    if NoNullish(items) then Some(seq(|items|, i requires 0 <= i < |items| => WithTransactions(items[i])))
    else None
  }

  /**
   * The `map` over the response's cases, which sets `transactions` on each case
   * object in place. It stops at the first null or undefined case, where the
   * property read throws, leaving the cases before it updated.
   */
  method AttachRelatedTransactions(items: array<Json>) returns (ok: bool)
    modifies items
    ensures ok == NoNullish(old(items[..]))
    ensures ok ==> Some(items[..]) == AttachAll(old(items[..]))
    ensures !ok ==> exists k ::
      && 0 <= k < items.Length && Nullish(old(items[k]))
      && (forall j :: 0 <= j < k ==> !Nullish(old(items[j])) && items[j] == WithTransactions(old(items[j])))
      && (forall j :: k <= j < items.Length ==> items[j] == old(items[j]))
  {
    var i := 0;
    while i < items.Length
      invariant 0 <= i <= items.Length
      invariant forall j :: 0 <= j < i ==> !Nullish(old(items[j])) && items[j] == WithTransactions(old(items[j]))
      invariant forall j :: i <= j < items.Length ==> items[j] == old(items[j])
    {
      if Nullish(items[i]) {
        assert !NoNullish(old(items[..])) by { assert old(items[..])[i] == old(items[i]); }
        return false;
      }
      items[i] := WithTransactions(items[i]);
      i := i + 1;
    }
    ghost var before := old(items[..]);
    assert NoNullish(before) by {
      forall j | 0 <= j < items.Length ensures !Nullish(before[j]) {
        assert before[j] == old(items[j]);
      }
    }
    assert items[..] == AttachAll(before).value by {
      forall j | 0 <= j < items.Length ensures items[..][j] == AttachAll(before).value[j] {
        assert before[j] == old(items[j]);
      }
    }
    return true;
  }

  /** The case array `getCases` maps over, when the response has one of the two accepted shapes. */
  function ListedCases(data: Json): (r: Option<seq<Json>>)
    ensures Truthy(data) && IsArray(Get(data, "cases")) ==> r == Some(Get(data, "cases").items)
    ensures IsArray(data) ==> r == Some(data.items)
    ensures r.Some? ==> (Truthy(data) && IsArray(Get(data, "cases"))) || IsArray(data)
  {
    if Truthy(data) && IsArray(Get(data, "cases")) then Some(Get(data, "cases").items)
    else if IsArray(data) then Some(data.items)
    else None
  }

  /** The `total` of a listed response: `data.total || cases.length`, or the length for a bare array. */
  function ReportedTotal(data: Json, count: nat): (r: Json)
    requires !Nullish(data)
    ensures IsArray(data) ==> r == Num(count as real)
    ensures !IsArray(data) && Truthy(Get(data, "total")) ==> r == Get(data, "total")
    ensures !IsArray(data) && !Truthy(Get(data, "total")) ==> r == Num(count as real)
  {
    if IsArray(data) then Num(count as real) else Or(Get(data, "total"), Num(count as real))
  }

  /**
   * `getCases()`: a response `{cases: [...], total}` or a bare array gives its
   * cases, in order and with `related_transactions` copied onto
   * `transactions`, and its total; any other response, a case the copy cannot
   * read, or a request that throws gives the static list. It never rejects.
   */
  method GetCases(r: HttpResult) returns (res: CaseQueueResponse)
    ensures r.Ok? && ListedCases(r.data).Some? && NoNullish(ListedCases(r.data).value) ==>
      && Some(res.cases) == AttachAll(ListedCases(r.data).value)
      && res.total == ReportedTotal(r.data, |ListedCases(r.data).value|)
    ensures !(r.Ok? && ListedCases(r.data).Some? && NoNullish(ListedCases(r.data).value)) ==>
      res == StaticResponse()
  {
    if r.Failed? {
      return StaticResponse();
    }
    var listed := ListedCases(r.data);
    if listed.None? {
      return StaticResponse();
    }
    var cases := listed.value;
    var items := new Json[|cases|](i requires 0 <= i < |cases| => cases[i]);
    assert items[..] == cases;
    var ok := AttachRelatedTransactions(items);
    if !ok {
      return StaticResponse();
    }
    res := CaseQueueResponse(items[..], ReportedTotal(r.data, items.Length));
  }

  /**
   * The reported total need not cover the listed cases: a wrapped response
   * with two cases and `total: 1` reports 1.
   */
  lemma ReportedTotalCanUndercount()
    ensures var data := Obj(map["cases" := Arr([Obj(map[]), Obj(map[])]), "total" := Num(1.0)]);
      && ListedCases(data) == Some([Obj(map[]), Obj(map[])])
      && ReportedTotal(data, 2) == Num(1.0)
  {
    var data := Obj(map["cases" := Arr([Obj(map[]), Obj(map[])]), "total" := Num(1.0)]);
    assert Get(data, "cases") == Arr([Obj(map[]), Obj(map[])]);
    assert Get(data, "total") == Num(1.0);
  }

  // ---------------------------------------------------------------------------
  // getCaseDetails
  // ---------------------------------------------------------------------------

  datatype Activity = Activity(bets: nat, deposits: nat, withdrawals: nat, logins: nat)

  const NoActivity := Activity(0, 0, 0, 0)

  datatype CaseDetails = CaseDetails(caseRecord: Json, transactions: seq<Json>, activity: Activity, timeline: Json)

  /** Why `getCaseDetails` rejects: the request's own error, the "no fallback" error, or a TypeError while mapping. */
  datatype Rejection = RequestError | InvalidResponse | TypeError

  /** `activities.filter(a => a.activity_type === kind).length` */
  function CountOfType(activities: seq<Json>, kind: string): (n: nat)
    requires NoNullish(activities)
    ensures n <= |activities|
    ensures (forall i :: 0 <= i < |activities| ==> Get(activities[i], "activity_type") != Str(kind)) ==> n == 0
    ensures (exists i :: 0 <= i < |activities| && Get(activities[i], "activity_type") == Str(kind)) ==> n >= 1
  {
    if |activities| == 0 then 0
    else
      assert NoNullish(activities[1..]) by {
        forall i | 0 <= i < |activities| - 1 ensures !Nullish(activities[1..][i]) {
          assert activities[1..][i] == activities[i + 1];
        }
      }
      assert Get(activities[0], "activity_type") != Str(kind) ==>
             forall i :: 0 <= i < |activities| && Get(activities[i], "activity_type") == Str(kind) ==>
               1 <= i && Get(activities[1..][i - 1], "activity_type") == Str(kind);
      (if Get(activities[0], "activity_type") == Str(kind) then 1 else 0) + CountOfType(activities[1..], kind)
  }

  /** Counting is additive over concatenation: each activity adds 1 to the count of its own type only. */
  lemma {:induction false} CountOfTypeConcat(a: seq<Json>, b: seq<Json>, kind: string)
    requires NoNullish(a) && NoNullish(b)
    ensures NoNullish(a + b)
    ensures CountOfType(a + b, kind) == CountOfType(a, kind) + CountOfType(b, kind)
  {
    assert NoNullish(a + b) by {
      forall i | 0 <= i < |a + b| ensures !Nullish((a + b)[i]) {
        if i >= |a| { assert (a + b)[i] == b[i - |a|]; }
      }
    }
    if |a| == 0 {
      assert a + b == b;
    } else {
      assert NoNullish(a[1..]) by {
        forall i | 0 <= i < |a| - 1 ensures !Nullish(a[1..][i]) {
          assert a[1..][i] == a[i + 1];
        }
      }
      assert (a + b)[1..] == a[1..] + b;
      CountOfTypeConcat(a[1..], b, kind);
    }
  }

  /** Each activity is of at most one type, so four counts of distinct types together count no more than there are activities. */
  lemma {:induction false} CountsWithinTotal(activities: seq<Json>, a: string, b: string, c: string, d: string)
    requires NoNullish(activities)
    requires a != b && a != c && a != d && b != c && b != d && c != d
    ensures CountOfType(activities, a) + CountOfType(activities, b) + CountOfType(activities, c)
            + CountOfType(activities, d) <= |activities|
  {
    if |activities| > 0 {
      assert NoNullish(activities[1..]) by {
        forall i | 0 <= i < |activities| - 1 ensures !Nullish(activities[1..][i]) {
          assert activities[1..][i] == activities[i + 1];
        }
      }
      CountsWithinTotal(activities[1..], a, b, c, d);
    }
  }

  /** The `activity` record: counts by exact type, or all zero when `activities` is falsy. */
  function ActivityOf(activities: Json): Activity
    requires Truthy(activities) ==> IsArray(activities) && NoNullish(activities.items)
  {
    if Truthy(activities) then
      Activity(
        CountOfType(activities.items, "bet"),
        CountOfType(activities.items, "deposit"),
        CountOfType(activities.items, "withdraw"),
        CountOfType(activities.items, "login"))
    else NoActivity
  }

  /** `response.data.case_info || response.data` */
  function CaseDataOf(data: Json): (r: Json)
    requires Truthy(data)
    ensures Truthy(r)
  {
    Or(Get(data, "case_info"), data)
  }

  /** `response.data.user_info || {}` */
  function UserDataOf(data: Json): (r: Json)
    requires Truthy(data)
    ensures Truthy(r)
  {
    Or(Get(data, "user_info"), Obj(map[]))
  }

  /** The case record built from a summary response (`case_info` and `user_info` may be nested or absent). */
  function SummaryCase(p: Platform, caseId: int, data: Json): Json
    requires Truthy(data)
  {
    var caseData := CaseDataOf(data);
    var userData := UserDataOf(data);
    var amount := Get(caseData, "amount");
    var created := Get(caseData, "created_at");
    Obj(map[
      "id" := Or(Get(caseData, "case_id"), Num(caseId as real)),
      "title" := Or(Get(caseData, "case_type"), Str("Untitled Case")),
      "customer" := Or(Get(userData, "name"),
                       Str("User " + ToStr(p, Or(Get(userData, "user_id"), Get(caseData, "user_id"))))),
      "amount" := if !Truthy(amount) then Str("$0")
                  // String(n) of a number never begins with "$", so a number is always converted
                  else if !amount.Num? && StartsWith(ToStr(p, amount), "$") then amount
                  else Str(ToStr(p, amount)),
      "date" := Str(if Truthy(created) then p.dateTimeString(created) else p.currentDateTime),
      "priority" := Or(Get(caseData, "priority"), Str("Medium")),
      "status" := Or(Get(caseData, "status"), Str("Open"))])
  }

  /** One transaction of a summary response: eight named properties, amount and balance reformatted. */
  function SummaryTransaction(p: Platform, tx: Json): Json
    requires !Nullish(tx)
  {
    var ts := Get(tx, "timestamp");
    Obj(map[
      "transaction_id" := Get(tx, "transaction_id"),
      "case_id" := Get(tx, "case_id"),
      "timestamp" := ts,
      "transaction_type" := Get(tx, "transaction_type"),
      "amount" := TransactionService.FormatAmount(Get(tx, "amount")),
      "balance" := TransactionService.FormatBalance(Get(tx, "balance")),
      "status" := Get(tx, "status"),
      "time" := if Truthy(ts) then Str(p.shortDateTime(ts)) else Undefined])
  }

  /** `related_transactions || transactions || []` of a summary response. */
  function SummaryTransactionSource(data: Json): Json
    requires Truthy(data)
  {
    Or(Or(Get(data, "related_transactions"), Get(data, "transactions")), Arr([]))
  }

  /**
   * The try-block of `getCaseDetails` for a truthy response: the mapping
   * throws a TypeError when the transaction source or a truthy `activities`
   * is not an array, or holds a null or undefined element.
   */
  function MapSummary(p: Platform, caseId: int, data: Json): (r: Result<CaseDetails, Rejection>)
    requires Truthy(data)
    ensures r.Failure? ==> r.error == TypeError
    ensures r.Success? <==>
      && IsArray(SummaryTransactionSource(data)) && NoNullish(SummaryTransactionSource(data).items)
      && (Truthy(Get(data, "activities")) ==>
            IsArray(Get(data, "activities")) && NoNullish(Get(data, "activities").items))
    ensures r.Success? ==> r.value.caseRecord == SummaryCase(p, caseId, data)
    ensures r.Success? ==> r.value.timeline == Or(Get(data, "timeline"), Arr([]))
  {
    var source := SummaryTransactionSource(data);
    var activities := Get(data, "activities");
    if !IsArray(source) || !NoNullish(source.items) then Failure(TypeError)
    else if Truthy(activities) && (!IsArray(activities) || !NoNullish(activities.items)) then Failure(TypeError)
    else
      var txs := source.items;
      Success(CaseDetails(
        SummaryCase(p, caseId, data),
        seq(|txs|, i requires 0 <= i < |txs| => SummaryTransaction(p, txs[i])),
        ActivityOf(activities),
        Or(Get(data, "timeline"), Arr([]))))
  }

  /** The catch-block: the static case with no transactions, activity or timeline, else the error propagates. */
  function StaticDetails(caseId: int, error: Rejection): (r: Result<CaseDetails, Rejection>)
    ensures 1 <= caseId <= 6 ==>
      r == Success(CaseDetails(CaseToJson(StaticCases[caseId - 1]), [], NoActivity, Arr([])))
    ensures !(1 <= caseId <= 6) ==> r == Failure(error)
  {
    StaticCaseIds(caseId);
    match FindById(StaticCases, caseId)
    case Some(c) => Success(CaseDetails(CaseToJson(c), [], NoActivity, Arr([])))
    case None => Failure(error)
  }

  /**
   * `getCaseDetails(caseId)`: a truthy summary response that maps without
   * throwing gives the mapped record; a falsy one, a failed request or a
   * mapping error gives the static case if the id is in the static list, and
   * otherwise rejects with the error raised on that path.
   */
  function GetCaseDetails(p: Platform, caseId: int, r: HttpResult): (res: Result<CaseDetails, Rejection>)
    ensures 1 <= caseId <= 6 ==> res.Success?
    ensures res.Failure? ==> !(1 <= caseId <= 6) && (r.Failed? <==> res.error == RequestError)
    ensures r.Ok? && Truthy(r.data) && MapSummary(p, caseId, r.data).Success? ==>
      res == MapSummary(p, caseId, r.data)
    ensures (r.Failed? || !Truthy(r.data) || MapSummary(p, caseId, r.data).Failure?) && 1 <= caseId <= 6 ==>
      res.value == CaseDetails(CaseToJson(StaticCases[caseId - 1]), [], NoActivity, Arr([]))
    ensures r.Ok? && !Truthy(r.data) && !(1 <= caseId <= 6) ==> res == Failure(InvalidResponse)
    ensures r.Failed? && !(1 <= caseId <= 6) ==> res == Failure(RequestError)
    ensures r.Ok? && Truthy(r.data) && MapSummary(p, caseId, r.data).Failure? && !(1 <= caseId <= 6) ==>
      res == Failure(TypeError)
  {
    match r
    case Failed => StaticDetails(caseId, RequestError)
    case Ok(data) =>
      if !Truthy(data) then StaticDetails(caseId, InvalidResponse)
      else
        match MapSummary(p, caseId, data)
        case Success(d) => Success(d)
        case Failure(e) => StaticDetails(caseId, e)
  }

  /**
   * The defaults of the mapped case: id `case_id || caseId`, title
   * "Untitled Case", priority "Medium", status "Open", amount "$0"; a truthy
   * source value is taken instead, a string amount as it is.
   */
  lemma SummaryCaseDefaults(p: Platform, caseId: int, data: Json)
    requires Truthy(data)
    ensures SummaryCase(p, caseId, data).Obj?
    ensures Get(SummaryCase(p, caseId, data), "id") ==
      if Truthy(Get(CaseDataOf(data), "case_id")) then Get(CaseDataOf(data), "case_id") else Num(caseId as real)
    ensures Get(SummaryCase(p, caseId, data), "title") ==
      if Truthy(Get(CaseDataOf(data), "case_type")) then Get(CaseDataOf(data), "case_type") else Str("Untitled Case")
    ensures Get(SummaryCase(p, caseId, data), "priority") ==
      if Truthy(Get(CaseDataOf(data), "priority")) then Get(CaseDataOf(data), "priority") else Str("Medium")
    ensures Get(SummaryCase(p, caseId, data), "status") ==
      if Truthy(Get(CaseDataOf(data), "status")) then Get(CaseDataOf(data), "status") else Str("Open")
    ensures Get(SummaryCase(p, caseId, data), "date").Str?
  {
  }

  /**
   * The amount is "$0" when missing or falsy; any other value that is not an
   * array becomes its string form (a string is kept as it is); an array is
   * kept only when its string form already begins with "$".
   */
  lemma SummaryCaseAmount(p: Platform, caseId: int, data: Json)
    requires Truthy(data)
    ensures !Truthy(Get(CaseDataOf(data), "amount")) ==> Get(SummaryCase(p, caseId, data), "amount") == Str("$0")
    ensures Truthy(Get(CaseDataOf(data), "amount")) && !Get(CaseDataOf(data), "amount").Arr? ==>
      Get(SummaryCase(p, caseId, data), "amount") == Str(ToStr(p, Get(CaseDataOf(data), "amount")))
    ensures Get(CaseDataOf(data), "amount").Str? && Truthy(Get(CaseDataOf(data), "amount")) ==>
      Get(SummaryCase(p, caseId, data), "amount") == Get(CaseDataOf(data), "amount")
    ensures Get(CaseDataOf(data), "amount").Arr? && StartsWith(ToStr(p, Get(CaseDataOf(data), "amount")), "$") ==>
      Get(SummaryCase(p, caseId, data), "amount") == Get(CaseDataOf(data), "amount")
    ensures Get(CaseDataOf(data), "amount").Arr? && !StartsWith(ToStr(p, Get(CaseDataOf(data), "amount")), "$") ==>
      Get(SummaryCase(p, caseId, data), "amount") == Str(ToStr(p, Get(CaseDataOf(data), "amount")))
  {
    var amount := Get(CaseDataOf(data), "amount");
    if amount.Str? {
      assert Str(ToStr(p, amount)) == amount;
    } else if amount.Obj? {
      assert ToStr(p, amount)[0] == '[';
    } else if amount.Bool? {
      assert ToStr(p, amount)[0] != '$';
    }
  }

  /**
   * The customer is the user's name, or else "User " followed by the user id,
   * taken from the user record and else from the case record.
   */
  lemma SummaryCustomer(p: Platform, caseId: int, data: Json)
    requires Truthy(data)
    ensures Truthy(Get(UserDataOf(data), "name")) ==>
      Get(SummaryCase(p, caseId, data), "customer") == Get(UserDataOf(data), "name")
    ensures !Truthy(Get(UserDataOf(data), "name")) ==>
      var userId := if Truthy(Get(UserDataOf(data), "user_id")) then Get(UserDataOf(data), "user_id")
                    else Get(CaseDataOf(data), "user_id");
      Get(SummaryCase(p, caseId, data), "customer") == Str("User " + ToStr(p, userId))
  {
  }

  /** The fields of one mapped summary transaction. */
  lemma SummaryTransactionFields(p: Platform, tx: Json)
    requires !Nullish(tx)
    ensures var r := SummaryTransaction(p, tx);
      && r.Obj?
      && Get(r, "amount") == TransactionService.FormatAmount(Get(tx, "amount"))
      && Get(r, "balance") == TransactionService.FormatBalance(Get(tx, "balance"))
      && (Get(r, "time") != Undefined <==> Truthy(Get(tx, "timestamp")))
  {
  }

  /**
   * A mapped summary transaction has exactly eight properties (the source
   * object is not spread), and five of them are copied from the source as they are.
   */
  lemma SummaryTransactionCopies(p: Platform, tx: Json)
    requires !Nullish(tx)
    ensures var r := SummaryTransaction(p, tx);
      && r.Obj?
      && r.fields.Keys == {"transaction_id", "case_id", "timestamp", "transaction_type",
                           "amount", "balance", "status", "time"}
      && Get(r, "transaction_id") == Get(tx, "transaction_id")
      && Get(r, "case_id") == Get(tx, "case_id")
      && Get(r, "timestamp") == Get(tx, "timestamp")
      && Get(r, "transaction_type") == Get(tx, "transaction_type")
      && Get(r, "status") == Get(tx, "status")
  {
  }

  /**
   * The mapped transactions come from `related_transactions` when it is truthy,
   * else from `transactions`, else there are none; one record per source
   * element, in order, with amount and balance reformatted.
   */
  lemma SummaryTransactionsFromSource(p: Platform, caseId: int, data: Json)
    requires Truthy(data) && MapSummary(p, caseId, data).Success?
    ensures var source := if Truthy(Get(data, "related_transactions")) then Get(data, "related_transactions")
                          else if Truthy(Get(data, "transactions")) then Get(data, "transactions")
                          else Arr([]);
      var txs := MapSummary(p, caseId, data).value.transactions;
      && source.Arr? && NoNullish(source.items) && |txs| == |source.items|
      && forall i :: 0 <= i < |txs| ==> txs[i] == SummaryTransaction(p, source.items[i])
  {
  }

  /**
   * The activity record counts the activities whose type is exactly "bet",
   * "deposit", "withdraw" and "login", together no more than there are
   * activities; with `activities` falsy all four are 0.
   */
  lemma SummaryActivityCounts(p: Platform, caseId: int, data: Json)
    requires Truthy(data) && MapSummary(p, caseId, data).Success?
    ensures var a := MapSummary(p, caseId, data).value.activity;
      var activities := Get(data, "activities");
      && (!Truthy(activities) ==> a == NoActivity)
      && (Truthy(activities) ==>
            && activities.Arr? && NoNullish(activities.items)
            && a.bets == CountOfType(activities.items, "bet")
            && a.deposits == CountOfType(activities.items, "deposit")
            && a.withdrawals == CountOfType(activities.items, "withdraw")
            && a.logins == CountOfType(activities.items, "login")
            && a.bets + a.deposits + a.withdrawals + a.logins <= |activities.items|)
  {
    var activities := Get(data, "activities");
    if Truthy(activities) {
      CountsWithinTotal(activities.items, "bet", "deposit", "withdraw", "login");
    }
  }

  // ---------------------------------------------------------------------------
  // getTransactions
  // ---------------------------------------------------------------------------

  predicate IsCase(c: Json, caseId: int)
    requires !Nullish(c)
  {
    Get(c, "id") == Num(caseId as real) || Get(c, "case_id") == Num(caseId as real)
  }

  /**
   * `cases.find(c => c.id === caseId || c.case_id === caseId)` as a position:
   * the first matching case, none, or a TypeError at a null or undefined case
   * reached before any match.
   */
  function FindCase(cases: seq<Json>, caseId: int): (r: Result<Option<nat>, Rejection>)
    ensures r.Success? && r.value.Some? ==>
      var i := r.value.value;
      && i < |cases| && !Nullish(cases[i]) && IsCase(cases[i], caseId)
      && forall j :: 0 <= j < i ==> !Nullish(cases[j]) && !IsCase(cases[j], caseId)
    ensures r.Success? && r.value.None? ==>
      forall j :: 0 <= j < |cases| ==> !Nullish(cases[j]) && !IsCase(cases[j], caseId)
    ensures r.Failure? ==>
      exists i :: 0 <= i < |cases| && Nullish(cases[i])
                  && forall j :: 0 <= j < i ==> !Nullish(cases[j]) && !IsCase(cases[j], caseId)
  {
    if |cases| == 0 then Success(None)
    else if Nullish(cases[0]) then Failure(TypeError)
    else if IsCase(cases[0], caseId) then Success(Some(0))
    else
      match FindCase(cases[1..], caseId)
      case Failure(e) => Failure(e)
      case Success(None) => Success(None)
      case Success(Some(k)) => Success(Some(k + 1))
  }

  /** The case array searched in a case-queue response: `data.cases`, else `data`, else none. */
  function QueueCases(data: Json): seq<Json>
    requires Truthy(data)
  {
    if IsArray(Get(data, "cases")) then Get(data, "cases").items
    else if IsArray(data) then data.items
    else []
  }

  /**
   * The first source: the `related_transactions` array of the first case in
   * the case-queue response whose `id` or `case_id` equals `caseId`. None when
   * the request fails, the data is falsy, no case matches, the search throws,
   * or the matching case's `related_transactions` is not an array.
   */
  function FromQueue(caseId: int, queue: HttpResult): (r: Option<seq<Json>>)
    ensures r.Some? ==>
      && queue.Ok? && Truthy(queue.data)
      && var cases := QueueCases(queue.data);
         exists i :: 0 <= i < |cases| && FindCase(cases, caseId) == Success(Some(i))
                     && Get(cases[i], "related_transactions") == Arr(r.value)
    ensures queue.Ok? && Truthy(queue.data) ==>
      var cases := QueueCases(queue.data);
      forall i :: 0 <= i < |cases| && FindCase(cases, caseId) == Success(Some(i))
                  && IsArray(Get(cases[i], "related_transactions")) ==>
        r == Some(Get(cases[i], "related_transactions").items)
  {
    if queue.Ok? && Truthy(queue.data) then
      var cases := QueueCases(queue.data);
      match FindCase(cases, caseId)
      case Success(Some(i)) =>
        var related := Get(cases[i], "related_transactions");
        if IsArray(related) then Some(related.items) else None
      case _ => None
    else None
  }

  /** The second source: a bare array, else `.transactions`, else `.related_transactions`, else nothing. */
  function FromSequence(sequence: HttpResult): (r: seq<Json>)
    ensures sequence.Failed? ==> r == []
    ensures sequence.Ok? && IsArray(sequence.data) ==> r == sequence.data.items
    ensures sequence.Ok? && Truthy(sequence.data) && !IsArray(sequence.data) && IsArray(Get(sequence.data, "transactions")) ==>
      r == Get(sequence.data, "transactions").items
    ensures sequence.Ok? && Truthy(sequence.data) && !IsArray(sequence.data) && !IsArray(Get(sequence.data, "transactions"))
            && IsArray(Get(sequence.data, "related_transactions")) ==>
      r == Get(sequence.data, "related_transactions").items
    ensures sequence.Ok? && !Truthy(sequence.data) ==> r == []
    ensures sequence.Ok? && Truthy(sequence.data) && !IsArray(sequence.data) ==>
      (!IsArray(Get(sequence.data, "transactions")) && !IsArray(Get(sequence.data, "related_transactions")) ==> r == [])
  {
    match sequence
    case Failed => []
    case Ok(data) =>
      if IsArray(data) then data.items
      else if Truthy(data) && IsArray(Get(data, "transactions")) then Get(data, "transactions").items
      else if Truthy(data) && IsArray(Get(data, "related_transactions")) then Get(data, "related_transactions").items
      else []
  }

  /**
   * `getTransactions(caseId)`: the case-queue source when it yields, otherwise
   * the transaction-sequence source; it never rejects.
   */
  function GetTransactions(caseId: int, queue: HttpResult, sequence: HttpResult): (res: seq<Json>)
    ensures FromQueue(caseId, queue).Some? ==> res == FromQueue(caseId, queue).value
    ensures FromQueue(caseId, queue).None? ==> res == FromSequence(sequence)
  {
    match FromQueue(caseId, queue)
    case Some(txs) => txs
    case None => FromSequence(sequence)
  }

  /** A queue entry with an array of related transactions wins whatever the second endpoint answers. */
  lemma QueueEntryPreferred(caseId: int, cases: seq<Json>, related: seq<Json>, sequence: HttpResult)
    requires |cases| > 0 && !Nullish(cases[0])
    requires IsCase(cases[0], caseId) && Get(cases[0], "related_transactions") == Arr(related)
    ensures GetTransactions(caseId, Ok(Obj(map["cases" := Arr(cases)])), sequence) == related
    ensures GetTransactions(caseId, Ok(Arr(cases)), sequence) == related
  {
    var wrapped := Obj(map["cases" := Arr(cases)]);
    assert Get(wrapped, "cases") == Arr(cases);
    assert QueueCases(wrapped) == cases;
    assert QueueCases(Arr(cases)) == cases;
  }

  // ---------------------------------------------------------------------------
  // getSimilarCases
  // ---------------------------------------------------------------------------

  /** `getSimilarCases(caseId)`: `data.similar_cases` if an array, else `data` if an array, else none. */
  function GetSimilarCases(r: HttpResult): (res: seq<Json>)
    ensures r.Ok? && Truthy(r.data) && IsArray(Get(r.data, "similar_cases")) ==>
      res == Get(r.data, "similar_cases").items
    ensures r.Ok? && IsArray(r.data) ==> res == r.data.items
    ensures r.Failed? || !(IsArray(r.data) || (Truthy(r.data) && IsArray(Get(r.data, "similar_cases")))) ==>
      res == []
  {
    match r
    case Failed => []
    case Ok(data) =>
      if Truthy(data) && IsArray(Get(data, "similar_cases")) then Get(data, "similar_cases").items
      else if IsArray(data) then data.items
      else []
  }
}
