# Fraud-case dashboard services — a Dafny model

This project models the service layer of a fraud-case review dashboard.
Each service asks the backend for data, reshapes what comes back, and
substitutes built-in fallback data whenever the request fails or the
response does not have the expected shape. The model covers four services:

- **transaction service** (`src/services/transactionService.ts`)
  - Fetches a case's transactions, or a filtered and paged list of them.
  - Reformats each transaction's amount (`"+ 12.00"` / `"- 12.00"`) and balance (`"12.00"`), and adds a display time.
  - Fallback: five built-in transactions of case 2, filtered and sliced in the client.
- **case-queue service** (`src/services/caseQueueService.ts`)
  - The case list, with each case's `related_transactions` copied into `transactions` in place.
  - Case details mapped from a summary response. Defaults fill in missing fields. Activity counts are derived from the activity list.
  - A case's transactions, looked up in the queue first and then at a second endpoint.
  - Similar cases.
  - Fallback: the six static cases.
- **similar-cases service** (`src/services/similarCasesService.ts`)
  - The backend's `similar_cases` list, or a fixed table keyed by case id.
- **case-study service** (`src/services/caseStudyService.ts`)
  - The backend's analysis of a case as it is.
  - When the request fails, a fixed analysis that quotes only the case's amount and customer.

A decoded response body is a JavaScript value, the `Js.Json` datatype. The
module `Js` defines the language rules the code relies on:

- truthiness and `||`;
- property reads, which throw on `null`/`undefined`;
- `Array.isArray`;
- `String(v)`;
- `slice` with JavaScript's index clamping.

A request's outcome is a parameter (`Js.HttpResult`): it either rejects or
resolves with a body. Every branch the code takes on that outcome is
modelled, including the `catch` blocks. A callback that reads a property of
a `null` element throws a TypeError. The model tracks this where the code
would then fall into a `catch` block.

`NumberFormat.Fixed2` models `Number.prototype.toFixed(2)` over exact
rationals, rounding half away from zero. Locale- and clock-dependent
formatting is left abstract, as fields of `Js.Platform`:

- `String(number)`;
- `toLocaleString`;
- `new Date()`.

The `getCases` callback assigns `caseItem.transactions` in place. It is
modelled as the method `CaseQueueService.AttachRelatedTransactions`, which
runs over an array of the response's items. The method is proved equal to
the value-level specification `CaseQueueService.AttachAll`.

The static case list that `caseQueueService.ts` imports from
`@/components/CaseDetail` (`similarCasesService.ts` imports only the `Case`
type from there) is modelled as `Cases.StaticCases`. Its contents are taken
from `src/components/CaseQueue.tsx:17-72`, the list the queue component
declares. `CaseDetail.tsx` declares no such export.

Three behaviours a reader might expect are not what the code does; the
model follows the code:

- **No response cache.** Nothing in the four services caches responses or
  offers a way to clear such a cache, so none is modelled.
- **The total can be smaller than the list.** One might expect the case
  list's `total` to be at least the number of cases returned. The code
  returns `response.data.total || cases.length`
  (`caseQueueService.ts:58`), so a smaller non-zero backend total is passed
  through. `CaseQueueService.ReportedTotalCanUndercount` exhibits such a
  response.
- **Case details use one endpoint.** One might expect the case details to
  be looked up in the bulk case queue before the per-case endpoint.
  `getCaseDetails` calls only the per-case summary endpoint
  (`caseQueueService.ts:96`).

## Model

| member | source | states |
|---|---|---|
| NumberFormat.Fixed2Meaning | src/services/transactionService.ts:78-81 | `toFixed(2)` output starts with "-" exactly for negative numbers; the rest is a two-decimal number whose value in hundredths is within half a hundredth of the magnitude times 100 |
| NumberFormat.CentsRoundTrip | src/services/transactionService.ts:78-81 | the two-decimal rendering of a count of hundredths reads back as that count: rendering loses nothing |
| Js.SliceWindow | src/services/transactionService.ts:158-161 | `slice(start, end)` with 0 <= start <= end keeps the elements from start up to end that exist, at most end - start of them |
| Cases.FindIndexById | src/services/caseQueueService.ts:159 | `find` by id yields the first case with that id, and nothing exactly when no case has it |
| Cases.StaticCaseIds | src/components/CaseQueue.tsx:17-72 | the static list holds six cases; an id is found exactly when it is 1 to 6, and id k is the k-th case |
| TransactionService.FormatAmountMeaning | src/services/transactionService.ts:77-79 | a numeric amount becomes "- " and the magnitude's `toFixed(2)` when negative, "+ " and its `toFixed(2)` otherwise; any other amount is kept as it is |
| TransactionService.FormatBalanceMeaning | src/services/transactionService.ts:80-82 | a numeric balance becomes its `toFixed(2)`, with no sign prefix for non-negative values; any other balance is kept |
| TransactionService.NegativeAmountExample | src/services/transactionService.ts:78 | -936.85 is shown as "- 936.85" |
| TransactionService.PositiveAmountExample | src/services/transactionService.ts:78 | 1126.44 is shown as "+ 1126.44" |
| TransactionService.ZeroAmountExample | src/services/transactionService.ts:78 | zero counts as non-negative and is shown as "+ 0.00" |
| TransactionService.BalanceExample | src/services/transactionService.ts:81 | a balance of 3440.473 is rounded to "3440.47" |
| TransactionService.FormatTransactions | src/services/transactionService.ts:74-92 | succeeds exactly when no element is null or undefined; then one object per input, every other property spread through unchanged, amount and balance reformatted, and a display time present exactly when the timestamp is truthy |
| TransactionService.TransactionsForCase | src/services/transactionService.ts:113 | filtering by case id keeps exactly the transactions of that case, no more than the input |
| TransactionService.ForCaseConcat | src/services/transactionService.ts:113 | filtering a concatenation by case is the concatenation of the filtered parts, so order and repeats are kept |
| TransactionService.ForCaseSingle | src/services/transactionService.ts:113 | a single transaction is kept exactly when its case id is the requested one |
| TransactionService.FallbackForCase | src/services/transactionService.ts:20-71 | the built-in list has five transactions, all of case 2: case 2 gets all of them, in order, and every other case none |
| TransactionService.GetTransactionsByCaseId | src/services/transactionService.ts:98-119 | an array response without null elements is returned formatted; every other response, a failed request or a throwing format gives the built-in transactions of that case |
| TransactionService.Filtered | src/services/transactionService.ts:151-156 | the client-side filter keeps exactly the transactions that meet every truthy filter |
| TransactionService.FilteredConcat | src/services/transactionService.ts:151-156 | filtering a concatenation is the concatenation of the filtered parts, so order and repeats are kept |
| TransactionService.FilteredSingle | src/services/transactionService.ts:151-156 | a single transaction is kept exactly when it meets the filters |
| TransactionService.FalsyFiltersIgnored | src/services/transactionService.ts:152-154 | a case id of 0 or an empty status or type filters nothing, exactly like an absent one |
| TransactionService.PageWindow | src/services/transactionService.ts:158-161 | for page >= 1 and limit >= 0 the page is the window from (page-1)*limit to page*limit of the filtered list, holds at most `limit` transactions, each of which meets the filters; the total is the filtered count |
| TransactionService.FallbackPageWindow | src/services/transactionService.ts:150-161 | for page >= 1 and limit >= 0 the fallback page is that window of the filtered built-in transactions, at most `limit` of them, with the filtered count as total (each one meets the filters, by `Filtered`) |
| TransactionService.GetTransactions | src/services/transactionService.ts:124-178 | a truthy array response without null elements gives the formatted list with its length as total; any other response or a failed request gives the filtered, paged built-in list |
| TransactionService.FallbackPathsAgree | src/services/transactionService.ts:150-176 | a falsy response and a failed request give the same page |
| CaseQueueService.WithTransactions | src/services/caseQueueService.ts:49-54 | a case with truthy `related_transactions` gains `transactions` equal to it; any other case is unchanged; no other property changes |
| CaseQueueService.AttachAll | src/services/caseQueueService.ts:62-67 | mapping the callback over a list succeeds exactly when no element is null or undefined, giving one updated case per element |
| CaseQueueService.AttachRelatedTransactions | src/services/caseQueueService.ts:49-54 | updating the array in place reports success exactly when no element is nullish; the array then equals the mapped list, and otherwise the elements before the first nullish one have been updated |
| CaseQueueService.ListedCases | src/services/caseQueueService.ts:47-60 | the list is `data.cases` when that is an array, else `data` itself when it is an array, and there is none otherwise |
| CaseQueueService.ReportedTotal | src/services/caseQueueService.ts:58-71 | a wrapped list reports `data.total` when truthy, else the list's length; a bare array reports its length |
| CaseQueueService.GetCases | src/services/caseQueueService.ts:30-88 | a listed response without null elements gives the updated cases and their reported total; every other response and a failed request give the six static cases with total 6 |
| CaseQueueService.ReportedTotalCanUndercount | src/services/caseQueueService.ts:58 | a response listing two cases with total 1 is reported with total 1, less than the number of cases |
| CaseQueueService.CountOfType | src/services/caseQueueService.ts:143-146 | a per-type activity count is at most the number of activities, 0 when no activity has that type, and at least 1 when some activity has it |
| CaseQueueService.CountOfTypeConcat | src/services/caseQueueService.ts:143-146 | the count of a type over a concatenation is the sum of the counts over its parts |
| CaseQueueService.CountsWithinTotal | src/services/caseQueueService.ts:142-147 | the bet, deposit, withdraw and login counts together are at most the number of activities |
| CaseQueueService.MapSummary | src/services/caseQueueService.ts:99-156 | mapping a truthy summary fails, and then only with a TypeError, exactly when the transaction source is not an array or holds a null element, or `activities` is truthy and is not an array or holds a null element; on success the case record is the mapped summary case (see `SummaryCaseDefaults`, `SummaryCaseAmount`, `SummaryCustomer`) and the timeline is `timeline || []` |
| CaseQueueService.SummaryCaseDefaults | src/services/caseQueueService.ts:101-113 | the case record takes `case_info` or the body itself; id, title, priority and status are the record's value when truthy and otherwise the requested id, "Untitled Case", "Medium" and "Open"; date is always a string |
| CaseQueueService.SummaryCaseAmount | src/services/caseQueueService.ts:109 | a falsy amount becomes "$0"; a truthy non-array amount becomes its string form, so a string is kept and a number is converted; an array is kept only when its string form begins with "$" |
| CaseQueueService.SummaryCustomer | src/services/caseQueueService.ts:102-108 | the customer is the user's name, else "User " and the user id from `user_info`, else from the case record |
| CaseQueueService.SummaryTransactionFields | src/services/caseQueueService.ts:118-136 | each mapped transaction has the amount and balance reformatted like the transaction service does, and a time exactly when the timestamp is truthy |
| CaseQueueService.SummaryTransactionCopies | src/services/caseQueueService.ts:118-136 | each mapped transaction has exactly eight properties; id, case id, timestamp, type and status are copied from the source as they are |
| CaseQueueService.SummaryTransactionsFromSource | src/services/caseQueueService.ts:117-136 | the transactions come from `related_transactions` if truthy, else `transactions`, else none, one mapped record per source element, in order |
| CaseQueueService.SummaryActivityCounts | src/services/caseQueueService.ts:141-153 | without `activities` every count is 0; with them, each count is the number of activities of that type, and together they are at most the number of activities |
| CaseQueueService.StaticDetails | src/services/caseQueueService.ts:158-193 | a static id 1 to 6 gives that static case with no transactions, zero activity and an empty timeline; any other id rejects with the given error |
| CaseQueueService.GetCaseDetails | src/services/caseQueueService.ts:93-195 | ids 1 to 6 always resolve; a successful mapping is returned as it is; otherwise the static case is used; an unknown id rejects with the request's error when the request failed, "invalid response" for a falsy body, and a TypeError when mapping throws |
| CaseQueueService.FindCase | src/services/caseQueueService.ts:213 | `find` by `id` or `case_id` yields the first match; it finds nothing only when no element matches; it throws only when a null or undefined element comes before any match |
| CaseQueueService.FromQueue | src/services/caseQueueService.ts:203-222 | the queue answers exactly when the request succeeds with a truthy body, the search finds a first matching case, and that case's `related_transactions` is an array; the answer is that array |
| CaseQueueService.FromSequence | src/services/caseQueueService.ts:225-235 | the second endpoint's body is used when it is an array, else its `transactions`, else its `related_transactions`, else nothing; a failed request gives nothing |
| CaseQueueService.GetTransactions | src/services/caseQueueService.ts:200-240 | the queue's answer wins when there is one; otherwise the second endpoint's; it never rejects |
| CaseQueueService.QueueEntryPreferred | src/services/caseQueueService.ts:213-217 | when the first queued case matches and carries a transactions array, that array is returned whatever the later elements (null ones included) and the second endpoint are, for a wrapped and for a bare queue |
| CaseQueueService.GetSimilarCases | src/services/caseQueueService.ts:245-261 | `similar_cases` when it is an array, else a bare array body, else nothing; a failed request gives nothing |
| SimilarCasesService.GetSimilarCases | src/services/similarCasesService.ts:67-83 | `similar_cases` when it is an array; any other response and a failed request give the fallback table's entry for the case |
| SimilarCasesService.FallbackEntries | src/services/similarCasesService.ts:10-61 | case 2 is similar to cases 3 and 4 (scores 92, 78), case 1 to cases 5 and 6 (85, 70), every other case to none |
| SimilarCasesService.FallbackEntriesWellFormed | src/services/similarCasesService.ts:4-61 | every fallback entry has a score from 0 to 100, is not the case it is listed for, and otherwise equals the static case with its id |
| CaseStudyService.GenerateCaseStudy | src/services/caseStudyService.ts:26-35 | a successful request returns the backend's body as it is; a failed one returns the fallback analysis of the case |
| CaseStudyService.FallbackSummary | src/services/caseStudyService.ts:42-46 | the fallback summary has three points; the first quotes the amount and then the customer; the other two are the same for every case |
| CaseStudyService.FallbackRisk | src/services/caseStudyService.ts:48-54 | the fallback risk assessment is fixed: score 78, "High", device trust 23, behavioural match 18, "Anomalous" |
| CaseStudyService.FallbackRecommendations | src/services/caseStudyService.ts:55-66 | the fallback recommends two actions, an "approve" one and then a "security" one |
| CaseStudyService.FallbackDependsOnAmountAndCustomer | src/services/caseStudyService.ts:39-67 | cases with the same amount and customer get the same fallback analysis |
| CaseStudyService.FallbackDistinguishesAmounts | src/services/caseStudyService.ts:43 | cases with the same customer and different amounts get different fallback analyses |

## Left out

- The HTTP client (`src/services/api.ts`) is not part of this model. This covers the base URL, headers, request parameters, the 401 handler that clears local storage, and URL building. A request is reduced to its outcome.
- `console.error` logging is left out. It has no effect on any result.
- The React components and pages are not part of this model. `CaseQueue.tsx` only supplies the static case list.
- `getTransactions` takes `page` and `limit` explicitly. The defaults `page = 1, limit = 10` (`transactionService.ts:125-126`) belong to the caller and are left out.
- `getCases` accepts `page`, `limit` and `filters` but never uses them. The model drops them. `getTransactions` sends `offset` and the filters to the backend; only the client-side fallback uses them, and that is modelled.
- Floating point is left out. Numbers are exact rationals, so NaN, infinities, `-0` and binary rounding effects such as `(1.005).toFixed(2) == "1.00"` are not captured. Neither is `toFixed` switching to exponent notation at 1e21 and above.
- `toLocaleString`, `new Date()` and `String(number)` are abstract `Js.Platform` functions. This is because their output depends on the locale, the clock and the float printer.
- Object spread of a string or array transaction is modelled as adding no properties. JavaScript would add index keys.
- Property reads see only an object's own properties. Inherited properties, and an object whose own `toString` replaces the default (`caseQueueService.ts:109`), are left out.
- Case ids are integers. The code's `number` also admits fractions, and the fallback table lookup `fallbackSimilarCases[caseId]` would use their string form.
- Aliasing is not captured. Response items are values, so the in-place update in `getCases` cannot be observed through another reference to the same object.
- The asynchronous scheduling of requests is reduced to ordinary function results.
