# Transaction store model

This project is a Dafny model of the Pinia store `src/stores/transaction.js` of a household-ledger web app. The store holds five fields:
- `income`: the income records the backend returned;
- `expense`: the expense records the backend returned;
- `total`: both lists merged, each record tagged with its `type`, sorted by day with the latest day first;
- `totalIncome` and `totalExpense`: the integer sums of `amount` over each list.

A refresh (`fetchTransactions`) fetches both lists and overwrites the five fields one after another. The derived views are `account`, `totalBalance` and the four `get…ForMonth` helpers. Adding a record POSTs it and leaves the store alone. Deleting a record sends a DELETE and, on status 200, refreshes.

Modules:
- `Sequences`: the generic array operations the store uses.
  - `Filter` is `Array.prototype.filter`.
  - `Sum` is an integer `reduce` starting from 0.
  - `IsSubsequence` is order-preserving selection.
- `Records`: a backend record `Transaction(id, amount, date)`, and the tagged record `Entry(tx, kind)` of the merged list.
  - Dates are (year, month, day) triples.
  - `Tag` and `Merged` build the merged list before sorting.
- `DaySort`: the sort of the merged list.
  - `Array.prototype.sort` is stable (section 23.1.3.30 of ECMA-262), so the sorted order is fully determined.
  - `SortByDayDesc` is a stable insertion sort that produces it.
  - `SortByDayDescIsTheStableSort` proves that any list sorted by day that keeps each day's records in their original order equals `SortByDayDesc`.
- `MonthViews`: selection of one calendar month, and the month sums for one kind.
- `TransactionStore`: the class `Store`.
  - It has the five fields and the invariant `Valid()` that a successful refresh establishes.
  - The refresh, add and delete are methods. The views are functions reading the fields.
  - Instance lemmas state what a refresh guarantees about `total`.

Network calls are parameters:
- A refresh receives what its two GET requests delivered (`Fetched(income, expense)` or `FetchFailed`).
- An add or a delete receives the response to its request: `Answered(status)` with a 2xx status, or `Rejected` when the awaited call throws.
- The blocking `alert` notices are returned as a sequence of `Alert` values.

## Model

| member | source | states |
|---|---|---|
| Sequences.Filter | src/stores/transaction.js:62-68 | `Array.prototype.filter`: keeps, in order, the elements that pass the predicate; never longer than its input (its elements and order are stated by FilterMembers and FilterIsSubsequence) |
| Sequences.Sum | src/stores/transaction.js:38-45 | an integer `reduce` starting from 0 that adds each element's weight; definition only, its laws are stated by SumAppend, SumRemove and SumPermutation |
| Sequences.FilterMembers | src/stores/transaction.js:62-68 | the filtered list holds exactly the elements that pass the predicate |
| Sequences.FilterIsSubsequence | src/stores/transaction.js:62-68 | a filter keeps the order of its input (an order-preserving subsequence) |
| Sequences.SumPermutation | src/stores/transaction.js:38-45 | an integer reduce gives the same sum for any permutation of its input |
| Records.SumAmounts | src/stores/transaction.js:38-45 | the integer sum of `amount` over a backend list, the reduce of lines 38-45 with amounts already integers; definition only, SumOfTagged relates it to the merged list |
| Records.Tag | src/stores/transaction.js:21-30 | tagging keeps the length; position i holds record i with the given tag |
| Records.Merged | src/stores/transaction.js:21-30 | the merged list holds the tagged income records in their order, then the tagged expense records in theirs |
| Records.MergedMembers | src/stores/transaction.js:21-30 | a tagged record is in the merged list iff it is income tagged income or expense tagged expense |
| Records.MergedUntagged | src/stores/transaction.js:55 | removing the tags from the merged list gives `income ++ expense`, which is what `account` returns |
| Records.UntagCount | src/stores/transaction.js:21-30 | a backend record occurs in the untagged list as often as it occurs under either tag |
| Records.UntagPermutation | src/stores/transaction.js:32-36 | removing tags from two permutations of each other leaves permutations of each other |
| Records.SumOfTagged | src/stores/transaction.js:38-45 | tagging does not change the sum of amounts; the signed (net) sum counts a tagged expense list negatively |
| DaySort.SortByDayDesc | src/stores/transaction.js:32-36 | the sorted list is a permutation of its input of the same length, with later days first |
| DaySort.InsertByDayOnDay | src/stores/transaction.js:32-36 | inserting a record changes no day's records except by putting it first among those of its own day |
| DaySort.SortByDayDescStable | src/stores/transaction.js:32-36 | stability: for every day, the records of that day appear in the sorted list in their original order |
| DaySort.StableSortIsUnique | src/stores/transaction.js:32-36 | two day-sorted lists that hold the same records in the same order for every day are equal |
| DaySort.SortByDayDescIsTheStableSort | src/stores/transaction.js:32-36 | any day-sorted list that keeps each day's records in their order in the input equals SortByDayDesc of the input |
| DaySort.FilterKeepsSorted | src/stores/transaction.js:62-68 | any selection from a day-sorted list is day-sorted |
| DaySort.SortByDayDescIncomeFirst | src/stores/transaction.js:21-36 | if every income record comes before every expense record, then after sorting income comes before expense within each day |
| MonthViews.InMonth | src/stores/transaction.js:64-67 | a record's date has the query date's month and year; the day is not compared (definition only; MonthIgnoresDay states the consequence) |
| MonthViews.ForMonth | src/stores/transaction.js:59-69 | the month's records are an order-preserving subsequence of `total`; a record is in it iff it is in `total` and in that year and month; each is counted as often as in `total` |
| MonthViews.MonthIgnoresDay | src/stores/transaction.js:59-61 | two dates in the same year and month select the same records |
| MonthViews.MonthSum | src/stores/transaction.js:71-81 | a kind's month sum is 0 when no record of that kind falls in the month |
| MonthViews.MonthSumIsConditionalSum | src/stores/transaction.js:71-81 | filtering by month, then by kind, then summing equals one pass adding the amount of each matching record |
| MonthViews.KindSplit | src/stores/transaction.js:83-85 | income sum plus expense sum is the sum of all amounts; income sum minus expense sum is the net sum |
| MonthViews.TagInMonth | src/stores/transaction.js:21-30 | selecting a month from a list of tagged records gives that month's backend records, tagged |
| MonthViews.KindOfTagged | src/stores/transaction.js:72-73 | among records all tagged with one kind, filtering by a kind keeps all of them or none |
| MonthViews.MonthSumPermutation | src/stores/transaction.js:71-81 | a month sum does not depend on the order of `total` |
| MonthViews.MonthSumOfMerged | src/stores/transaction.js:71-81 | on the merged list, a kind's month sum is the sum of `amount` over that month's records of that kind's backend list |
| MonthViews.MonthSumOfSortedMerge | src/stores/transaction.js:71-81 | the same holds after sorting: sorting the merged list neither loses nor duplicates a record |
| TransactionStore.Store.Valid | src/stores/transaction.js:18-45 | the relation a successful refresh leaves among the five fields: `total` is the day-sorted tagged merge of `income` and `expense`, and the two totals are their sums (definition only; FetchTransactions ensures it and DeleteTransaction keeps it) |
| TransactionStore.Store.constructor | src/stores/transaction.js:6-53 | the store starts with empty lists and zero totals and refreshes once; afterwards the invariant holds, and the refresh's alert (communication error on failure, none on success) is recorded |
| TransactionStore.Store.FetchTransactions | src/stores/transaction.js:14-52 | on failure only the communication-error alert, no field changed; on success the lists equal the fetched lists, `total` is the sorted tagged merge, the totals are the sums |
| TransactionStore.Store.Account | src/stores/transaction.js:55 | `income` followed by `expense`, unsorted; under the invariant a permutation of the untagged `total` |
| TransactionStore.Store.TotalBalance | src/stores/transaction.js:57 | under the invariant equals the net sum over `total` (income positive, expense negative) and the sum over `income` minus the sum over `expense` |
| TransactionStore.Store.GetTransactionsForMonth | src/stores/transaction.js:59-69 | an order-preserving subsequence of `total`, exactly the records of that year and month; under the invariant sorted by day |
| TransactionStore.Store.GetIncomeForMonth | src/stores/transaction.js:71-75 | the sum of the amounts of `total`'s income records in that month; under the invariant the sum over that month's backend income records; 0 when none |
| TransactionStore.Store.GetExpensesForMonth | src/stores/transaction.js:77-81 | the sum of the amounts of `total`'s expense records in that month; under the invariant the sum over that month's backend expense records; 0 when none |
| TransactionStore.Store.GetTotalBalanceForMonth | src/stores/transaction.js:83-85 | as written it is the sum of every amount in the month, which exceeds the month's net by twice its expenses |
| TransactionStore.Store.MonthBalanceAddsExpenses | src/stores/transaction.js:83-85 | when every record falls in the month, the month "balance" is `totalIncome + totalExpense`, that is `totalBalance + 2 * totalExpense` |
| TransactionStore.Store.AddIncomeTransaction | src/stores/transaction.js:87-99 | sends a POST of the record to the income list; status 201: no alert; any other 2xx status: send-failed alert; rejection (transport failure or a status outside 2xx): communication-error alert; no field changes, whatever happens |
| TransactionStore.Store.AddExpenseTransaction | src/stores/transaction.js:101-113 | the same for the expense list |
| TransactionStore.Store.DeleteTransaction | src/stores/transaction.js:115-128 | sends DELETE `{type}/{id}`; nothing changes unless the status is 200; on 200 exactly one refresh with its outcome; the invariant is kept |
| TransactionStore.Store.TotalIsTaggedMerge | src/stores/transaction.js:21-30 | after a refresh `total` has length \|income\| + \|expense\|, is a permutation of the tagged income list followed by the tagged expense list, and holds a record iff it is income tagged income or expense tagged expense |
| TransactionStore.Store.TotalIsSortedStably | src/stores/transaction.js:32-36 | after a refresh `total` is sorted with later days first; each day's records keep their pre-sort order, so income precedes expense within a day |
| TransactionStore.Store.TotalIsTheStableSort | src/stores/transaction.js:32-36 | any list a stable sort by day could produce from the merged list is `total` |
| TransactionStore.RefreshExample | src/stores/transaction.js:21-45 | for income 100 on 2024-01-05 and expense 40 on 2024-01-10, the later expense sorts first and the sums are 100 and 40 |

## Left out

- HTTP is not modelled: the URLs, `axios.get`/`post`/`delete`, and the transport. A request becomes a `Request` value, and its outcome a parameter.
- A response with a status outside 2xx is modelled as `Rejected`. This is how axios behaves by default: it rejects such a response instead of returning it. `Answered` therefore carries an `OkStatus`, an integer from 200 to 299. So a status-500 answer to an add produces the communication-error alert, and only a 2xx status other than 201 produces the send-failed one. A client configured with another `validateStatus` is not modelled.
- `alert` is modelled as a returned `Alert` value. `console.log` and `console.error` (lines 47, 50, 97, 111, 126) are left out; they are output only.
- Vue/Pinia reactivity, `reactive` and the `computed` wrappers (lines 1-6, 130-151) are framework plumbing. They are modelled as plain fields and functions.
- JS `Date` is modelled as a (year, month, day) triple. Not modelled:
  - parsing and local-timezone `getMonth`/`getFullYear`;
  - the time of day;
  - invalid dates, whose `NaN` comparator results the sort treats as equal;
  - the difference between the sort key (the first 10 characters, line 33) and the month key (the whole string, line 63). The model uses one date for both.
- `parseInt` on malformed amounts (which yields `NaN`) is floating point. Amounts are integers.
- The in-place array sort (line 32) is modelled on values: `total` is assigned the sorted sequence. No other code aliases the array.
- Concurrency is not modelled: overlapping refreshes and the un-awaited refresh after a delete (line 123). `DeleteTransaction` runs the refresh to completion before returning.
- TransactionStore.Store.constructor runs the initial refresh (line 53) to completion, although the source does not await it: the store is observable, still empty, until that refresh finishes. The alert it shows is kept in the ghost field `initialAlerts`.
- Records.Transaction keeps only `id`, `amount` and `date`. The spreads at lines 23 and 27 copy every other field the backend sends, so two backend records that differ only in such a field are equal values in the model.
- TransactionStore.Store.FetchTransactions does not model partial updates. A record without a `date` would make the sort at line 33 throw after lines 18-30 had already overwritten `income`, `expense` and `total`. Records are assumed well-formed.
- The store's month "balance" (lines 83-85) adds expenses instead of subtracting them. It is reproduced as written; `MonthBalanceAddsExpenses` states the consequence.
