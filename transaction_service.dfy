/**
 * The transaction service: turns transaction lists from the backend into
 * display records (signed two-decimal amounts, two-decimal balances, a
 * localised time), and falls back to a fixed table of five transactions of
 * case 2, filtered and paged on the client, when the backend fails.
 */
module TransactionService {
  import opened Wrappers
  import opened Js
  import opened NumberFormat

  datatype Transaction = Transaction(
    transactionId: int,
    caseId: int,
    timestamp: string,
    transactionType: string,
    amount: string,
    balance: string,
    status: string,
    time: string)

  function TransactionToJson(t: Transaction): Json {
    Obj(map[
      "transaction_id" := Num(t.transactionId as real),
      "case_id" := Num(t.caseId as real),
      "timestamp" := Str(t.timestamp),
      "transaction_type" := Str(t.transactionType),
      "amount" := Str(t.amount),
      "balance" := Str(t.balance),
      "status" := Str(t.status),
      "time" := Str(t.time)])
  }

  function AllToJson(ts: seq<Transaction>): (r: seq<Json>)
    ensures |r| == |ts| && forall i :: 0 <= i < |ts| ==> r[i] == TransactionToJson(ts[i])
  {
    seq(|ts|, i requires 0 <= i < |ts| => TransactionToJson(ts[i]))
  }

  const FallbackTransactions: seq<Transaction> := [
    Transaction(1, 2, "2025-03-25T11:59:00", "Withdraw", "- $3,096.42", "$3,440.47", "Failed", "Mar 25, 2025, 11:59 AM"),
    Transaction(2, 2, "2025-03-25T11:53:00", "Bet", "- $936.85", "$3,440.47", "Disputed", "Mar 25, 2025, 11:53 AM"),
    Transaction(3, 2, "2025-03-25T02:50:00", "Deposit", "+ $1,126.44", "$4,377.32", "Completed", "Mar 25, 2025, 02:50 AM"),
    Transaction(4, 2, "2025-03-23T09:07:00", "Bet", "- $30.77", "$3,250.88", "Completed", "Mar 23, 2025, 09:07 AM"),
    Transaction(5, 2, "2025-03-17T09:18:00", "Withdraw", "- $109.37", "$3,281.65", "Completed", "Mar 17, 2025, 09:18 AM")
  ]

  // ---------------------------------------------------------------------------
  // Display formatting
  // ---------------------------------------------------------------------------

  /** A numeric amount becomes "- <magnitude>" or "+ <value>" with two decimals; anything else is kept. */
  function FormatAmount(v: Json): Json {
    match v
    case Num(n) => Str(if n < 0.0 then "- " + Fixed2(Abs(n)) else "+ " + Fixed2(n))
    case _ => v
  }

  /** A numeric balance becomes its two-decimal rendering; anything else is kept. */
  function FormatBalance(v: Json): Json {
    match v
    case Num(n) => Str(Fixed2(n))
    case _ => v
  }

  /**
   * A numeric amount renders as a sign prefix, "- " exactly when it is negative
   * and "+ " otherwise (zero included), followed by the magnitude to two
   * decimals; a value of any other type passes through unchanged.
   */
  lemma FormatAmountMeaning(v: Json)
    ensures !v.Num? ==> FormatAmount(v) == v
    ensures v.Num? ==>
      var r := FormatAmount(v);
      && r.Str? && |r.s| >= 2
      && (r.s[..2] == "- " <==> v.n < 0.0)
      && (r.s[..2] == "+ " <==> v.n >= 0.0)
      && exists c: nat ::
           && ParseCents(r.s[2..]) == Some(c)
           && c as real - 0.5 <= Abs(v.n) * 100.0 < c as real + 0.5
  {
    if v.Num? {
      var n := v.n;
      Fixed2Meaning(Abs(n));
      var r := FormatAmount(v);
      assert r.s[2..] == Fixed2(Abs(n));
    }
  }

  /**
   * A numeric balance renders to two decimals with no "+ " or "- " prefix: a
   * non-negative one starts with a digit, a negative one only carries the
   * minus sign of `toFixed`; a value of any other type passes through unchanged.
   */
  lemma FormatBalanceMeaning(v: Json)
    ensures !v.Num? ==> FormatBalance(v) == v
    ensures v.Num? ==>
      var r := FormatBalance(v);
      && r.Str? && |r.s| >= 4
      && (v.n >= 0.0 ==> IsDigit(r.s[0]))
      && (v.n < 0.0 ==> r.s[0] == '-' && IsDigit(r.s[1]))
      && var digits := if v.n < 0.0 then r.s[1..] else r.s;
         exists c: nat ::
           && ParseCents(digits) == Some(c)
           && c as real - 0.5 <= Abs(v.n) * 100.0 < c as real + 0.5
  {
    if v.Num? {
      var n := v.n;
      Fixed2Meaning(n);
      var s := Fixed2(n);
      var digits := if n < 0.0 then s[1..] else s;
      var c: nat :| ParseCents(digits) == Some(c) && c as real - 0.5 <= Abs(n) * 100.0 < c as real + 0.5;
      assert AllDigits(digits[..|digits| - 3]);
      assert IsDigit(digits[0]) by { assert digits[0] == digits[..|digits| - 3][0]; }
    }
  }

  /** Renderings of sample amounts, of zero and of a balance with three decimals. */
  lemma NegativeAmountExample()
    ensures FormatAmount(Num(-936.85)) == Str("- 936.85")
  {
    assert Abs(-936.85) * 100.0 == 93685.0;
    assert RoundHalfUp(93685.0) == 93685;
    assert NatToString(936) == "936" by {
      assert NatToString(93) == "93" by { assert NatToString(9) == "9"; }
    }
    assert CentsToString(93685) == "936.85";
  }

  lemma PositiveAmountExample()
    ensures FormatAmount(Num(1126.44)) == Str("+ 1126.44")
  {
    assert Abs(1126.44) * 100.0 == 112644.0;
    assert RoundHalfUp(112644.0) == 112644;
    assert NatToString(1126) == "1126" by {
      assert NatToString(112) == "112" by {
        assert NatToString(11) == "11" by { assert NatToString(1) == "1"; }
      }
    }
    assert 112644 / 100 == 1126 && 112644 % 100 / 10 == 4 && 112644 % 10 == 4;
    assert CentsToString(112644) == "1126" + "." + ['4', '4'];
  }

  lemma ZeroAmountExample()
    ensures FormatAmount(Num(0.0)) == Str("+ 0.00")
  {
    assert RoundHalfUp(0.0) == 0;
    assert CentsToString(0) == "0.00";
  }

  lemma BalanceExample()
    ensures FormatBalance(Num(3440.473)) == Str("3440.47")
  {
    assert Abs(3440.473) * 100.0 == 344047.3;
    assert RoundHalfUp(344047.3) == 344047;
    assert NatToString(3440) == "3440" by {
      assert NatToString(344) == "344" by {
        assert NatToString(34) == "34" by { assert NatToString(3) == "3"; }
      }
    }
    assert CentsToString(344047) == "3440.47";
  }

  /** `{ ...v }`: the own properties of an object (other values are taken to spread to nothing). */
  function Spread(v: Json): map<string, Json> {
    if v.Obj? then v.fields else map[]
  }

  /** The callback of `formatTransactions` for one element. */
  function FormatTransaction(p: Platform, tx: Json): Json
    requires !Nullish(tx)
  {
    var ts := Get(tx, "timestamp");
    Obj(Spread(tx)
      ["amount" := FormatAmount(Get(tx, "amount"))]
      ["balance" := FormatBalance(Get(tx, "balance"))]
      ["time" := if Truthy(ts) then Str(p.shortDateTime(ts)) else Undefined])
  }

  /**
   * `formatTransactions(txs)`: None when the map throws, which it does exactly
   * when some element is null or undefined. Otherwise the result has the same
   * length and order; every property other than amount, balance and time is
   * copied, amount and balance are reformatted, and time is set exactly when
   * the timestamp is truthy.
   */
  function FormatTransactions(p: Platform, txs: seq<Json>): (r: Option<seq<Json>>)
    ensures r.Some? <==> NoNullish(txs)
    ensures r.Some? ==> |r.value| == |txs| && forall i :: 0 <= i < |txs| ==> r.value[i].Obj?
    ensures r.Some? ==> forall i, k :: 0 <= i < |txs| && k != "amount" && k != "balance" && k != "time" ==>
      Get(r.value[i], k) == Get(txs[i], k)
    ensures r.Some? ==> forall i :: 0 <= i < |txs| ==>
      && Get(r.value[i], "amount") == FormatAmount(Get(txs[i], "amount"))
      && Get(r.value[i], "balance") == FormatBalance(Get(txs[i], "balance"))
      && (Get(r.value[i], "time") != Undefined <==> Truthy(Get(txs[i], "timestamp")))
  {
    if NoNullish(txs) then Some(seq(|txs|, i requires 0 <= i < |txs| => FormatTransaction(p, txs[i])))
    else None
  }

  // ---------------------------------------------------------------------------
  // getTransactionsByCaseId
  // ---------------------------------------------------------------------------

  /** `txs.filter(tx => tx.case_id === caseId)` */
  function TransactionsForCase(txs: seq<Transaction>, caseId: int): (r: seq<Transaction>)
    ensures |r| <= |txs|
    ensures forall t :: t in r ==> t in txs && t.caseId == caseId
    ensures forall t :: t in txs && t.caseId == caseId ==> t in r
  {
    if |txs| == 0 then []
    else (if txs[0].caseId == caseId then [txs[0]] else []) + TransactionsForCase(txs[1..], caseId)
  }

  /**
   * Filtering by case keeps order and multiplicity: a list filters piecewise
   * (and, by `ForCaseSingle`, a single transaction is kept exactly when it
   * belongs to the case).
   */
  lemma {:induction false} ForCaseConcat(a: seq<Transaction>, b: seq<Transaction>, caseId: int)
    ensures TransactionsForCase(a + b, caseId) == TransactionsForCase(a, caseId) + TransactionsForCase(b, caseId)
  {
    if |a| == 0 {
      assert a + b == b;
    } else {
      assert (a + b)[1..] == a[1..] + b;
      ForCaseConcat(a[1..], b, caseId);
    }
  }

  lemma ForCaseSingle(t: Transaction, caseId: int)
    ensures TransactionsForCase([t], caseId) == if t.caseId == caseId then [t] else []
  {
    assert [t][1..] == [];
  }

  lemma {:induction false} ForCaseAll(txs: seq<Transaction>, caseId: int)
    requires forall i :: 0 <= i < |txs| ==> txs[i].caseId == caseId
    ensures TransactionsForCase(txs, caseId) == txs
  {
    if |txs| > 0 {
      ForCaseAll(txs[1..], caseId);
    }
  }

  lemma {:induction false} ForCaseNone(txs: seq<Transaction>, caseId: int)
    requires forall i :: 0 <= i < |txs| ==> txs[i].caseId != caseId
    ensures TransactionsForCase(txs, caseId) == []
  {
    if |txs| > 0 {
      ForCaseNone(txs[1..], caseId);
    }
  }

  /** The fallback table holds five transactions, all of case 2: case 2 gets all of them in order, any other case none. */
  lemma FallbackForCase(caseId: int)
    ensures |FallbackTransactions| == 5
    ensures TransactionsForCase(FallbackTransactions, caseId) == if caseId == 2 then FallbackTransactions else []
  {
    if caseId == 2 {
      ForCaseAll(FallbackTransactions, caseId);
    } else {
      ForCaseNone(FallbackTransactions, caseId);
    }
  }

  /**
   * `getTransactionsByCaseId(caseId)`: an array response is formatted; a
   * non-array response, a request that throws, or a format step that throws
   * all give the fallback table's transactions of that case.
   */
  function GetTransactionsByCaseId(p: Platform, caseId: int, r: HttpResult): (res: seq<Json>)
    ensures r.Ok? && IsArray(r.data) && NoNullish(r.data.items) ==>
      Some(res) == FormatTransactions(p, r.data.items)
    ensures !(r.Ok? && IsArray(r.data) && NoNullish(r.data.items)) ==>
      res == AllToJson(if caseId == 2 then FallbackTransactions else [])
  {
    var fallback := AllToJson(TransactionsForCase(FallbackTransactions, caseId));
    FallbackForCase(caseId);
    match r
    case Failed => fallback
    case Ok(data) =>
      if Truthy(data) && IsArray(data) then
        match FormatTransactions(p, data.items)
        case Some(formatted) => formatted
        case None => fallback
      else fallback
  }

  // ---------------------------------------------------------------------------
  // getTransactions: server list, or the fallback table filtered and paged
  // ---------------------------------------------------------------------------

  /** The optional filters; a falsy value (absent, 0, "") sets no constraint. */
  datatype Filters = Filters(caseId: Option<int>, status: Option<string>, transactionType: Option<string>)

  predicate CaseIdSet(f: Filters) {
    f.caseId.Some? && f.caseId.value != 0
  }

  predicate StatusSet(f: Filters) {
    f.status.Some? && f.status.value != ""
  }

  predicate TypeSet(f: Filters) {
    f.transactionType.Some? && f.transactionType.value != ""
  }

  /** The filter callback: a transaction is kept unless a set filter differs from it. */
  predicate Matches(f: Filters, t: Transaction) {
    && (CaseIdSet(f) ==> t.caseId == f.caseId.value)
    && (StatusSet(f) ==> t.status == f.status.value)
    && (TypeSet(f) ==> t.transactionType == f.transactionType.value)
  }

  /** `txs.filter(tx => matches(f, tx))` */
  function Filtered(txs: seq<Transaction>, f: Filters): (r: seq<Transaction>)
    ensures |r| <= |txs|
    ensures forall t :: t in r ==> t in txs && Matches(f, t)
    ensures forall t :: t in txs && Matches(f, t) ==> t in r
  {
    if |txs| == 0 then []
    else (if Matches(f, txs[0]) then [txs[0]] else []) + Filtered(txs[1..], f)
  }

  /**
   * The client-side filter keeps order and multiplicity: a list filters
   * piecewise (and, by `FilteredSingle`, a single transaction is kept exactly
   * when it matches).
   */
  lemma {:induction false} FilteredConcat(a: seq<Transaction>, b: seq<Transaction>, f: Filters)
    ensures Filtered(a + b, f) == Filtered(a, f) + Filtered(b, f)
  {
    if |a| == 0 {
      assert a + b == b;
    } else {
      assert (a + b)[1..] == a[1..] + b;
      FilteredConcat(a[1..], b, f);
    }
  }

  lemma FilteredSingle(t: Transaction, f: Filters)
    ensures Filtered([t], f) == if Matches(f, t) then [t] else []
  {
    assert [t][1..] == [];
  }

  /** Filtering depends only on which transactions match, so two filter sets that agree on them agree on the result. */
  lemma {:induction false} FilteredAgree(txs: seq<Transaction>, f: Filters, g: Filters)
    requires forall t :: t in txs ==> (Matches(f, t) <==> Matches(g, t))
    ensures Filtered(txs, f) == Filtered(txs, g)
  {
    if |txs| > 0 {
      FilteredAgree(txs[1..], f, g);
    }
  }

  /** A falsy filter value imposes no constraint: case id 0 and "" behave as if absent. */
  lemma FalsyFiltersIgnored(txs: seq<Transaction>, caseId: Option<int>, status: Option<string>, kind: Option<string>)
    ensures Filtered(txs, Filters(Some(0), status, kind)) == Filtered(txs, Filters(None, status, kind))
    ensures Filtered(txs, Filters(caseId, Some(""), kind)) == Filtered(txs, Filters(caseId, None, kind))
    ensures Filtered(txs, Filters(caseId, status, Some(""))) == Filtered(txs, Filters(caseId, status, None))
  {
    var f1, g1 := Filters(Some(0), status, kind), Filters(None, status, kind);
    assert !CaseIdSet(f1) && !CaseIdSet(g1);
    FilteredAgree(txs, f1, g1);
    var f2, g2 := Filters(caseId, Some(""), kind), Filters(caseId, None, kind);
    assert !StatusSet(f2) && !StatusSet(g2);
    FilteredAgree(txs, f2, g2);
    var f3, g3 := Filters(caseId, status, Some("")), Filters(caseId, status, None);
    assert !TypeSet(f3) && !TypeSet(g3);
    FilteredAgree(txs, f3, g3);
  }

  datatype TransactionPage = TransactionPage(transactions: seq<Json>, total: nat)

  /** Page `page` of `limit` transactions of `txs` that pass the filters, with the number that pass. */
  function PageOf(txs: seq<Transaction>, page: int, limit: int, f: Filters): TransactionPage {
    var filtered := Filtered(txs, f);
    TransactionPage(AllToJson(Slice(filtered, (page - 1) * limit, page * limit)), |filtered|)
  }

  /** The fallback answer of `getTransactions`: a page of the filtered fallback table. */
  function FallbackPage(page: int, limit: int, f: Filters): TransactionPage {
    PageOf(FallbackTransactions, page, limit, f)
  }

  lemma PageBounds(page: int, limit: int)
    requires page >= 1 && limit >= 0
    ensures 0 <= (page - 1) * limit <= page * limit
    ensures page * limit - (page - 1) * limit == limit
  {
    assert (page - 1) * limit == page * limit - limit;
    assert (page - 1) * limit >= 0 by { assert page - 1 >= 0; }
  }

  /**
   * For page >= 1 and a non-negative limit a page is exactly the window
   * filtered[(page-1)*limit .. page*limit) clipped to the list, so it holds at
   * most `limit` transactions in their original order, each one of `txs` and
   * matching every set filter, and `total` counts all the matches.
   */
  lemma PageWindow(txs: seq<Transaction>, page: int, limit: int, f: Filters)
    requires page >= 1 && limit >= 0
    ensures var filtered := Filtered(txs, f);
      var window := filtered[Min((page - 1) * limit, |filtered|)..Min(page * limit, |filtered|)];
      && PageOf(txs, page, limit, f) == TransactionPage(AllToJson(window), |filtered|)
      && |window| <= limit
      && forall t :: t in window ==> t in txs && Matches(f, t)
  {
    var filtered := Filtered(txs, f);
    var start, end := (page - 1) * limit, page * limit;
    PageBounds(page, limit);
    SliceWindow(filtered, start, end);
    var window := filtered[Min(start, |filtered|)..Min(end, |filtered|)];
    forall t | t in window ensures t in txs && Matches(f, t) {
      assert t in filtered;
    }
  }

  /**
   * The fallback page is the window of the filtered built-in transactions,
   * at most `limit` of them, and the total is the number that match.
   */
  lemma FallbackPageWindow(page: int, limit: int, f: Filters)
    requires page >= 1 && limit >= 0
    ensures var filtered := Filtered(FallbackTransactions, f);
      var window := filtered[Min((page - 1) * limit, |filtered|)..Min(page * limit, |filtered|)];
      && FallbackPage(page, limit, f) == TransactionPage(AllToJson(window), |filtered|)
      && |window| <= limit
  {
    PageWindow(FallbackTransactions, page, limit, f);
  }

  /**
   * `getTransactions(page, limit, filters)`: a truthy array response is
   * formatted and its length is the total; every other outcome (a falsy
   * response, a non-array one, an element the formatter cannot read, a
   * request that throws) gives the same fallback page.
   */
  function GetTransactions(p: Platform, page: int, limit: int, f: Filters, r: HttpResult): (res: TransactionPage)
    ensures r.Ok? && IsArray(r.data) && NoNullish(r.data.items) ==>
      && Some(res.transactions) == FormatTransactions(p, r.data.items)
      && res.total == |r.data.items|
    ensures !(r.Ok? && IsArray(r.data) && NoNullish(r.data.items)) ==>
      res == FallbackPage(page, limit, f)
  {
    match r
    case Failed => FallbackPage(page, limit, f)
    case Ok(data) =>
      if Truthy(data) && IsArray(data) && FormatTransactions(p, data.items).Some? then
        TransactionPage(FormatTransactions(p, data.items).value, |data.items|)
      else FallbackPage(page, limit, f)
  }

  /** The "no data" path and the "request threw" path give the same answer. */
  lemma FallbackPathsAgree(p: Platform, page: int, limit: int, f: Filters, data: Json)
    requires !Truthy(data)
    ensures GetTransactions(p, page, limit, f, Ok(data)) == GetTransactions(p, page, limit, f, Failed)
  {
  }
}
