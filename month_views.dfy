// The monthly queries over the merged list: the records of one calendar
// month, and the sum of their amounts for one kind.
module MonthViews {
  import opened Sequences
  import opened Records
  import opened DaySort

  /** `date` falls in the calendar month of `d`: same year and same month, whatever the day. */
  predicate InMonth(date: Date, d: Date)
  {
    date.year == d.year && date.month == d.month
  }

  function InMonthOf(d: Date): Entry -> bool
  {
    (e: Entry) => InMonth(e.tx.date, d)
  }

  function TxInMonthOf(d: Date): Transaction -> bool
  {
    (t: Transaction) => InMonth(t.date, d)
  }

  function IsKind(k: Kind): Entry -> bool
  {
    (e: Entry) => e.kind == k
  }

  /** The records of `total` that fall in the month of `d`, in their order in `total`. */
  function ForMonth(total: seq<Entry>, d: Date): (r: seq<Entry>)
    ensures IsSubsequence(r, total)
    ensures forall e :: e in r <==> e in total && InMonth(e.tx.date, d)
    ensures forall e :: multiset(r)[e] == if InMonth(e.tx.date, d) then multiset(total)[e] else 0
  {
    FilterMembers(total, InMonthOf(d));
    FilterIsSubsequence(total, InMonthOf(d));
    FilterCounts(total, InMonthOf(d));
    Filter(total, InMonthOf(d))
  }

  /** Only the year and month of `d` matter: any two days of one month select the same records. */
  lemma MonthIgnoresDay(total: seq<Entry>, d1: Date, d2: Date)
    requires d1.year == d2.year && d1.month == d2.month
    ensures ForMonth(total, d1) == ForMonth(total, d2)
  {
    FilterAgree(total, InMonthOf(d1), InMonthOf(d2));
  }

  /** The sum of `amount` over the records of kind `k` in the month of `d`. */
  function MonthSum(total: seq<Entry>, d: Date, k: Kind): (r: int)
    ensures (forall e :: e in total && InMonth(e.tx.date, d) ==> e.kind != k) ==> r == 0
  {
    FilterMembers(total, InMonthOf(d));
    FilterMembers(Filter(total, InMonthOf(d)), IsKind(k));
    Sum(Filter(Filter(total, InMonthOf(d)), IsKind(k)), EntryAmount)
  }

  /** The amount of `e` if it is of kind `k` and falls in the month of `d`, else 0. */
  function AmountIf(d: Date, k: Kind): Entry -> int
  {
    (e: Entry) => if InMonth(e.tx.date, d) && e.kind == k then e.tx.amount else 0
  }

  /** Filtering by month, then by kind, then summing adds up the same as one pass over `total`. */
  lemma {:induction false} MonthSumIsConditionalSum(total: seq<Entry>, d: Date, k: Kind)
    ensures MonthSum(total, d, k) == Sum(total, AmountIf(d, k))
  {
    if total != [] {
      var e, rest := total[0], total[1..];
      var inMonth := if InMonth(e.tx.date, d) then [e] else [];
      var head := Filter(inMonth, IsKind(k));
      var tail := Filter(Filter(rest, InMonthOf(d)), IsKind(k));
      assert head == if InMonth(e.tx.date, d) && e.kind == k then [e] else [];
      assert Sum(head, EntryAmount) == AmountIf(d, k)(e);
      calc {
        MonthSum(total, d, k);
        Sum(Filter(Filter(total, InMonthOf(d)), IsKind(k)), EntryAmount);
        { assert Filter(total, InMonthOf(d)) == inMonth + Filter(rest, InMonthOf(d)); }
        Sum(Filter(inMonth + Filter(rest, InMonthOf(d)), IsKind(k)), EntryAmount);
        { FilterAppend(inMonth, Filter(rest, InMonthOf(d)), IsKind(k)); }
        Sum(head + tail, EntryAmount);
        { SumAppend(head, tail, EntryAmount); }
        AmountIf(d, k)(e) + Sum(tail, EntryAmount);
        { MonthSumIsConditionalSum(rest, d, k); }
        AmountIf(d, k)(e) + Sum(rest, AmountIf(d, k));
        Sum(total, AmountIf(d, k));
      }
    }
  }

  /** Every record is income or expense, so the two kinds' sums add up to the sum over the month. */
  lemma {:induction false} KindSplit(es: seq<Entry>)
    ensures Sum(Filter(es, IsKind(Income)), EntryAmount) + Sum(Filter(es, IsKind(Expense)), EntryAmount)
         == Sum(es, EntryAmount)
    ensures Sum(Filter(es, IsKind(Income)), EntryAmount) - Sum(Filter(es, IsKind(Expense)), EntryAmount)
         == Sum(es, NetAmount)
  {
    if es != [] {
      KindSplit(es[1..]);
      var e := es[0];
      assert es == [e] + es[1..];
      FilterAppend([e], es[1..], IsKind(Income));
      FilterAppend([e], es[1..], IsKind(Expense));
      SumAppend(Filter([e], IsKind(Income)), Filter(es[1..], IsKind(Income)), EntryAmount);
      SumAppend(Filter([e], IsKind(Expense)), Filter(es[1..], IsKind(Expense)), EntryAmount);
      assert Filter([e], IsKind(Income)) == if e.kind == Income then [e] else [];
      assert Filter([e], IsKind(Expense)) == if e.kind == Expense then [e] else [];
    }
  }

  /** The records of a month among records all tagged `kind` are that month's backend records, tagged. */
  lemma {:induction false} TagInMonth(txs: seq<Transaction>, kind: Kind, d: Date)
    ensures Filter(Tag(txs, kind), InMonthOf(d)) == Tag(Filter(txs, TxInMonthOf(d)), kind)
  {
    if txs != [] {
      var t, rest := txs[0], txs[1..];
      var tagged := Tag(txs, kind);
      var kept := Filter(rest, TxInMonthOf(d));
      TagInMonth(rest, kind, d);
      assert tagged[0] == Entry(t, kind) && tagged[1..] == Tag(rest, kind);
      if InMonth(t.date, d) {
        calc {
          Filter(tagged, InMonthOf(d));
          [Entry(t, kind)] + Filter(Tag(rest, kind), InMonthOf(d));
          [Entry(t, kind)] + Tag(kept, kind);
          { assert Tag([t] + kept, kind)[1..] == Tag(kept, kind); }
          Tag([t] + kept, kind);
          Tag(Filter(txs, TxInMonthOf(d)), kind);
        }
      } else {
        calc {
          Filter(tagged, InMonthOf(d));
          Filter(Tag(rest, kind), InMonthOf(d));
          Tag(kept, kind);
          Tag(Filter(txs, TxInMonthOf(d)), kind);
        }
      }
    }
  }

  /** Among records all tagged `kind`, those of kind `k` are all of them or none. */
  lemma KindOfTagged(txs: seq<Transaction>, kind: Kind, k: Kind)
    ensures Filter(Tag(txs, kind), IsKind(k)) == if k == kind then Tag(txs, kind) else []
  {
    if k == kind {
      FilterAll(Tag(txs, kind), IsKind(k));
    } else {
      FilterNone(Tag(txs, kind), IsKind(k));
    }
  }

  /** A month sum depends only on which records the list holds, not on their order. */
  lemma MonthSumPermutation(a: seq<Entry>, b: seq<Entry>, d: Date, k: Kind)
    requires multiset(a) == multiset(b)
    ensures MonthSum(a, d, k) == MonthSum(b, d, k)
  {
    var ma, mb := Filter(a, InMonthOf(d)), Filter(b, InMonthOf(d));
    FilterPermutation(a, b, InMonthOf(d));
    FilterPermutation(ma, mb, IsKind(k));
    SumPermutation(Filter(ma, IsKind(k)), Filter(mb, IsKind(k)), EntryAmount);
  }

  /** On the unsorted merged list, a month sum of one kind is the month's sum over that kind's backend list. */
  lemma MonthSumOfMerged(income: seq<Transaction>, expense: seq<Transaction>, d: Date, k: Kind)
    ensures MonthSum(Merged(income, expense), d, k)
         == SumAmounts(Filter(if k == Income then income else expense, TxInMonthOf(d)))
  {
    var ti, te := Tag(income, Income), Tag(expense, Expense);
    var oi, oe := Filter(income, TxInMonthOf(d)), Filter(expense, TxInMonthOf(d));
    var own := if k == Income then oi else oe;
    TagInMonth(income, Income, d);
    TagInMonth(expense, Expense, d);
    KindOfTagged(oi, Income, k);
    KindOfTagged(oe, Expense, k);
    calc {
      MonthSum(Merged(income, expense), d, k);
      Sum(Filter(Filter(ti + te, InMonthOf(d)), IsKind(k)), EntryAmount);
      { FilterAppend(ti, te, InMonthOf(d)); }
      Sum(Filter(Tag(oi, Income) + Tag(oe, Expense), IsKind(k)), EntryAmount);
      { FilterAppend(Tag(oi, Income), Tag(oe, Expense), IsKind(k)); }
      Sum(Filter(Tag(oi, Income), IsKind(k)) + Filter(Tag(oe, Expense), IsKind(k)), EntryAmount);
      { assert Filter(Tag(oi, Income), IsKind(k)) + Filter(Tag(oe, Expense), IsKind(k)) == Tag(own, k); }
      Sum(Tag(own, k), EntryAmount);
      { SumOfTagged(own, k); }
      SumAmounts(own);
    }
  }

  /**
   * The month sum of each kind over the sorted merged list equals the sum of `amount`
   * over that month's records in the backend list of that kind: merging and sorting
   * neither lose nor double a record.
   */
  lemma MonthSumOfSortedMerge(income: seq<Transaction>, expense: seq<Transaction>, d: Date)
    ensures MonthSum(SortByDayDesc(Merged(income, expense)), d, Income) == SumAmounts(Filter(income, TxInMonthOf(d)))
    ensures MonthSum(SortByDayDesc(Merged(income, expense)), d, Expense) == SumAmounts(Filter(expense, TxInMonthOf(d)))
  {
    var m := Merged(income, expense);
    MonthSumPermutation(SortByDayDesc(m), m, d, Income);
    MonthSumPermutation(SortByDayDesc(m), m, d, Expense);
    MonthSumOfMerged(income, expense, d, Income);
    MonthSumOfMerged(income, expense, d, Expense);
  }
}
