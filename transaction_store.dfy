// The transaction store: five fields (the backend's income and expense
// lists, the merged and sorted list, and the two integer totals), a refresh
// that overwrites them, the derived views, and the add and delete actions.
// Network calls are parameters: a refresh is given what its two GET requests
// delivered, an add or a delete is given the response to its request.
module TransactionStore {
  import opened Sequences
  import opened Records
  import opened DaySort
  import opened MonthViews

  /** What the two awaited GET requests of a refresh deliver: both lists, or a failure of either. */
  datatype FetchResult = Fetched(income: seq<Transaction>, expense: seq<Transaction>) | FetchFailed

  /**
   * The statuses the HTTP client hands back instead of rejecting: by default
   * axios rejects every response whose status is outside 2xx.
   */
  type OkStatus = s: int | 200 <= s < 300 witness 200

  /**
   * What an awaited POST or DELETE delivers: a 2xx response with its status,
   * or a rejection (the awaited call threw: a transport failure, or a status
   * outside 2xx).
   */
  datatype Response = Answered(status: OkStatus) | Rejected

  /** The blocking notices shown to the user: communication error, send failed, delete failed. */
  datatype Alert = CommunicationError | SendFailed | DeleteFailed

  /** The write requests the store sends: a POST of a record to a list, a DELETE of `{type}/{id}`. */
  datatype Request = Post(resource: Kind, body: Transaction) | Delete(resource: Kind, id: int)

  /** Empty lists merge and sort to the empty list and sum to 0. */
  lemma EmptyListsAreSettled()
    ensures SortByDayDesc(Merged([], [])) == [] && SumAmounts([]) == 0
  {
    assert Merged([], []) == [];
  }

  class Store {
    var income: seq<Transaction>
    var expense: seq<Transaction>
    var total: seq<Entry>
    var totalIncome: int
    var totalExpense: int
    /** The alerts the initial refresh showed. */
    ghost var initialAlerts: seq<Alert>

    /** What a successful refresh establishes between the five fields; every operation keeps it. */
    ghost predicate Valid()
      reads this
    {
      && total == SortByDayDesc(Merged(income, expense))
      && totalIncome == SumAmounts(income)
      && totalExpense == SumAmounts(expense)
    }

    /**
     * The store starts empty and refreshes once. `initialAlerts` records the
     * alert that refresh shows; the assertion after the call checks that the
     * refresh returned exactly those alerts.
     */
    constructor (initial: FetchResult)
      ensures Valid()
      ensures initial.Fetched? ==> income == initial.income && expense == initial.expense
      ensures initial.FetchFailed? ==> income == [] && expense == [] && total == []
      ensures initial.FetchFailed? ==> totalIncome == 0 && totalExpense == 0
      ensures initialAlerts == if initial.FetchFailed? then [CommunicationError] else []
    {
      income, expense, total := [], [], [];
      totalIncome, totalExpense := 0, 0;
      initialAlerts := if initial.FetchFailed? then [CommunicationError] else [];
      new;
      EmptyListsAreSettled();
      var alerts := FetchTransactions(initial);
      assert alerts == initialAlerts;
    }

    /**
     * The refresh. On failure only the alert is shown and no field changes;
     * on success the five fields are overwritten one after another.
     */
    method FetchTransactions(res: FetchResult) returns (alerts: seq<Alert>)
      modifies this`income, this`expense, this`total, this`totalIncome, this`totalExpense
      ensures res.FetchFailed? ==> alerts == [CommunicationError] && unchanged(this)
      ensures res.Fetched? ==> alerts == [] && Valid()
      ensures res.Fetched? ==> income == res.income && expense == res.expense
    {
      if res.FetchFailed? {
        alerts := [CommunicationError];
        return;
      }
      income := res.income;
      expense := res.expense;
      total := Merged(income, expense);
      total := SortByDayDesc(total);
      totalIncome := SumAmounts(income);
      totalExpense := SumAmounts(expense);
      alerts := [];
      assert income == res.income && expense == res.expense;
      assert total == SortByDayDesc(Merged(income, expense));
    }

    /** The backend records in one list, income first, unsorted. */
    function Account(): (r: seq<Transaction>)
      reads this
      ensures |r| == |income| + |expense|
      ensures r[..|income|] == income && r[|income|..] == expense
      ensures Valid() ==> multiset(r) == multiset(Untag(total))
    {
      MergedUntagged(income, expense);
      UntagPermutation(SortByDayDesc(Merged(income, expense)), Merged(income, expense));
      income + expense
    }

    /** Income minus expense. */
    function TotalBalance(): (r: int)
      reads this
      ensures Valid() ==> r == Sum(total, NetAmount)
      ensures Valid() ==> r == SumAmounts(income) - SumAmounts(expense)
    {
      var m := Merged(income, expense);
      SumPermutation(SortByDayDesc(m), m, NetAmount);
      SumAppend(Tag(income, Income), Tag(expense, Expense), NetAmount);
      SumOfTagged(income, Income);
      SumOfTagged(expense, Expense);
      totalIncome - totalExpense
    }

    /** The records of `total` in the year and month of `d`; the day of `d` is ignored. */
    function GetTransactionsForMonth(d: Date): (r: seq<Entry>)
      reads this
      ensures IsSubsequence(r, total)
      ensures forall e :: e in r <==> e in total && InMonth(e.tx.date, d)
      ensures Valid() ==> SortedByDayDesc(r)
    {
      FilterKeepsSorted(SortByDayDesc(Merged(income, expense)), InMonthOf(d));
      ForMonth(total, d)
    }

    /** The sum of the amounts of the month's income records. */
    function GetIncomeForMonth(d: Date): (r: int)
      reads this
      ensures r == Sum(total, AmountIf(d, Income))
      ensures Valid() ==> r == SumAmounts(Filter(income, TxInMonthOf(d)))
      ensures (forall e :: e in total && InMonth(e.tx.date, d) ==> e.kind != Income) ==> r == 0
    {
      MonthSumIsConditionalSum(total, d, Income);
      MonthSumOfSortedMerge(income, expense, d);
      MonthSum(total, d, Income)
    }

    /** The sum of the amounts of the month's expense records. */
    function GetExpensesForMonth(d: Date): (r: int)
      reads this
      ensures r == Sum(total, AmountIf(d, Expense))
      ensures Valid() ==> r == SumAmounts(Filter(expense, TxInMonthOf(d)))
      ensures (forall e :: e in total && InMonth(e.tx.date, d) ==> e.kind != Expense) ==> r == 0
    {
      MonthSumIsConditionalSum(total, d, Expense);
      MonthSumOfSortedMerge(income, expense, d);
      MonthSum(total, d, Expense)
    }

    /**
     * The month's income plus the month's expenses, as the store computes it:
     * the sum of every amount in the month, which exceeds the month's net
     * (income minus expenses) by twice its expenses.
     */
    function GetTotalBalanceForMonth(d: Date): (r: int)
      reads this
      ensures r == Sum(GetTransactionsForMonth(d), EntryAmount)
      ensures r == Sum(GetTransactionsForMonth(d), NetAmount) + 2 * GetExpensesForMonth(d)
    {
      KindSplit(Filter(total, InMonthOf(d)));
      GetIncomeForMonth(d) + GetExpensesForMonth(d)
    }

    /** POST of a record to the income list. No field is in its frame: it changes no state. */
    method AddIncomeTransaction(tx: Transaction, response: Response) returns (req: Request, alerts: seq<Alert>)
      ensures req == Post(Income, tx)
      ensures response.Rejected? ==> alerts == [CommunicationError]
      ensures response.Answered? && response.status == 201 ==> alerts == []
      ensures response.Answered? && response.status != 201 ==> alerts == [SendFailed]
    {
      req := Post(Income, tx);
      match response
      case Rejected =>
        alerts := [CommunicationError];
      case Answered(status) =>
        if status != 201 {
          return req, [SendFailed];
        }
        alerts := [];
    }

    /** POST of a record to the expense list. No field is in its frame: it changes no state. */
    method AddExpenseTransaction(tx: Transaction, response: Response) returns (req: Request, alerts: seq<Alert>)
      ensures req == Post(Expense, tx)
      ensures response.Rejected? ==> alerts == [CommunicationError]
      ensures response.Answered? && response.status == 201 ==> alerts == []
      ensures response.Answered? && response.status != 201 ==> alerts == [SendFailed]
    {
      req := Post(Expense, tx);
      match response
      case Rejected =>
        alerts := [CommunicationError];
      case Answered(status) =>
        if status != 201 {
          return req, [SendFailed];
        }
        alerts := [];
    }

    /**
     * DELETE of `{type}/{id}`; on status 200 exactly one refresh follows,
     * given what its requests deliver (`refetch`). Otherwise nothing changes.
     */
    method DeleteTransaction(e: Entry, response: Response, refetch: FetchResult)
      returns (req: Request, alerts: seq<Alert>)
      modifies this`income, this`expense, this`total, this`totalIncome, this`totalExpense
      ensures req == Delete(e.kind, e.tx.id)
      ensures response != Answered(200) ==> unchanged(this)
      ensures response.Rejected? ==> alerts == [CommunicationError]
      ensures response.Answered? && response.status != 200 ==> alerts == [DeleteFailed]
      ensures response == Answered(200) && refetch.FetchFailed? ==> unchanged(this) && alerts == [CommunicationError]
      ensures response == Answered(200) && refetch.Fetched? ==> alerts == [] && Valid()
      ensures response == Answered(200) && refetch.Fetched? ==> income == refetch.income && expense == refetch.expense
      ensures old(Valid()) ==> Valid()
    {
      req := Delete(e.kind, e.tx.id);
      match response
      case Rejected =>
        alerts := [CommunicationError];
      case Answered(status) =>
        if status != 200 {
          return req, [DeleteFailed];
        }
        alerts := FetchTransactions(refetch);
    }

    /**
     * After a refresh `total` holds each income record tagged income and each
     * expense record tagged expense, and nothing else, as often as the lists do.
     */
    lemma TotalIsTaggedMerge()
      requires Valid()
      ensures |total| == |income| + |expense|
      ensures multiset(total) == multiset(Tag(income, Income) + Tag(expense, Expense))
      ensures forall e :: e in total <==> (e.kind == Income && e.tx in income) || (e.kind == Expense && e.tx in expense)
    {
      var m := Merged(income, expense);
      MergedMembers(income, expense);
      forall e
        ensures e in total <==> e in m
      {
        assert e in total <==> e in multiset(total);
        assert e in m <==> e in multiset(m);
      }
    }

    /**
     * After a refresh `total` is sorted with later days first; within a day
     * the records keep their order from before the sort, so income records
     * precede expense records and each keeps the backend's order.
     */
    lemma TotalIsSortedStably()
      requires Valid()
      ensures SortedByDayDesc(total)
      ensures forall k :: OnDay(total, k) == OnDay(Merged(income, expense), k)
      ensures IncomeFirstWithinDay(total)
    {
      var m := Merged(income, expense);
      forall k
        ensures OnDay(total, k) == OnDay(m, k)
      {
        SortByDayDescStable(m, k);
      }
      assert IncomeFirst(m) by {
        forall i, j | 0 <= i < j < |m| && m[i].kind == Expense
          ensures m[j].kind == Expense
        {
          assert i >= |income|;
        }
      }
      SortByDayDescIncomeFirst(m);
    }

    /** Any order a stable sort by day can give the merged list is the one `total` has. */
    lemma TotalIsTheStableSort(r: seq<Entry>)
      requires Valid()
      requires SortedByDayDesc(r)
      requires forall k :: OnDay(r, k) == OnDay(Merged(income, expense), k)
      ensures r == total
    {
      SortByDayDescIsTheStableSort(Merged(income, expense), r);
    }

    /**
     * When every record falls in the month of `d`, the store's month "balance"
     * is income plus expense, while its total balance is income minus expense.
     */
    lemma MonthBalanceAddsExpenses(d: Date)
      requires Valid()
      requires forall e :: e in total ==> InMonth(e.tx.date, d)
      ensures GetTotalBalanceForMonth(d) == totalIncome + totalExpense
      ensures GetTotalBalanceForMonth(d) == TotalBalance() + 2 * totalExpense
    {
      TotalIsTaggedMerge();
      FilterAll(income, TxInMonthOf(d));
      FilterAll(expense, TxInMonthOf(d));
    }
  }

  /** An income record of 100 dated 2024-01-05 and an expense record of 40 dated 2024-01-10. */
  const Salary := Transaction(1, 100, Date(2024, 1, 5))
  const Rent := Transaction(7, 40, Date(2024, 1, 10))

  /** The later expense sorts before the earlier income; the sums are 100 and 40. */
  lemma RefreshExample()
    ensures SortByDayDesc(Merged([Salary], [Rent])) == [Entry(Rent, Expense), Entry(Salary, Income)]
    ensures SumAmounts([Salary]) == 100 && SumAmounts([Rent]) == 40
  {
    var m := Merged([Salary], [Rent]);
    assert m == [Entry(Salary, Income), Entry(Rent, Expense)];
    assert m[1..] == [Entry(Rent, Expense)];
    assert SortByDayDesc(m[1..]) == [Entry(Rent, Expense)];
    assert [Salary][1..] == [] && [Rent][1..] == [];
    assert SumAmounts([Salary]) == Amount(Salary) + Sum([Salary][1..], Amount);
    assert SumAmounts([Rent]) == Amount(Rent) + Sum([Rent][1..], Amount);
  }

  /** The two records above after one refresh: later day first, balance 60. */
  method RefreshScenario()
  {
    RefreshExample();
    var store := new Store(Fetched([Salary], [Rent]));
    assert store.total == [Entry(Rent, Expense), Entry(Salary, Income)];
    assert store.TotalBalance() == 60;
  }

  /**
   * An add answered 200 instead of 201 shows "send failed"; a 500, which the
   * client rejects, shows "communication error". Neither changes the store.
   */
  method AddScenario(store: Store, tx: Transaction)
  {
    var before := store.total;
    var req, alerts := store.AddIncomeTransaction(tx, Answered(200));
    assert req == Post(Income, tx) && alerts == [SendFailed];
    req, alerts := store.AddExpenseTransaction(tx, Rejected);
    assert req == Post(Expense, tx) && alerts == [CommunicationError];
    assert store.total == before;
  }

  /** Deleting expense 7 with status 200, after which the backend no longer lists it. */
  method DeleteScenario()
  {
    assert Merged([Salary], []) == [Entry(Salary, Income)];
    assert SortByDayDesc([Entry(Salary, Income)]) == [Entry(Salary, Income)];
    var store := new Store(Fetched([Salary], [Rent]));
    var req, alerts := store.DeleteTransaction(Entry(Rent, Expense), Answered(200), Fetched([Salary], []));
    assert req == Delete(Expense, 7) && alerts == [];
    assert store.expense == [] && store.total == [Entry(Salary, Income)];
  }
}
