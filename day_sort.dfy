// The order of the merged list. The store sorts it with
// `Array.prototype.sort` and a comparator that subtracts the two records'
// day timestamps (later day first). That sort is stable (section 23.1.3.30
// of ECMA-262), so the result is determined: records of the same day keep
// their order from before the sort. SortByDayDesc is a stable insertion sort
// producing that result, and StableSortIsUnique shows that every stable sort
// by the same key yields exactly it.
module DaySort {
  import opened Sequences
  import opened Records

  /** Day `a` is on or before day `b` (the comparator's order on timestamps of whole days). */
  predicate DayLe(a: Date, b: Date)
  {
    a.year < b.year ||
    (a.year == b.year && (a.month < b.month || (a.month == b.month && a.day <= b.day)))
  }

  /** Later days come first. */
  ghost predicate SortedByDayDesc(s: seq<Entry>)
  {
    forall i, j :: 0 <= i < j < |s| ==> DayLe(s[j].tx.date, s[i].tx.date)
  }

  /** The records of `s` dated on day `k`, in their order in `s`. */
  function OnDay(s: seq<Entry>, k: Date): seq<Entry>
  {
    Filter(s, DatedOn(k))
  }

  function DatedOn(k: Date): Entry -> bool
  {
    (e: Entry) => e.tx.date == k
  }

  /** Inserts `x` in front of the first record whose day is not later than its own. */
  function InsertByDay(x: Entry, t: seq<Entry>): (r: seq<Entry>)
    ensures multiset(r) == multiset(t) + multiset{x}
  {
    if t == [] || DayLe(t[0].tx.date, x.tx.date) then [x] + t
    else
      assert t == [t[0]] + t[1..];
      [t[0]] + InsertByDay(x, t[1..])
  }

  /** The merged list as the stable descending sort by day leaves it. */
  function SortByDayDesc(s: seq<Entry>): (r: seq<Entry>)
    ensures multiset(r) == multiset(s)
    ensures |r| == |s|
    ensures SortedByDayDesc(r)
  {
    if s == [] then []
    else
      var t := SortByDayDesc(s[1..]);
      InsertByDaySorted(s[0], t);
      assert s == [s[0]] + s[1..];
      InsertByDay(s[0], t)
  }

  lemma {:induction false} InsertByDaySorted(x: Entry, t: seq<Entry>)
    requires SortedByDayDesc(t)
    ensures SortedByDayDesc(InsertByDay(x, t))
  {
    if t == [] || DayLe(t[0].tx.date, x.tx.date) {
      var r := [x] + t;
      forall i, j | 0 <= i < j < |r|
        ensures DayLe(r[j].tx.date, r[i].tx.date)
      {
        if i == 0 {
          assert r[j] == t[j - 1];
          if j > 1 {
            assert DayLe(t[j - 1].tx.date, t[0].tx.date);
          }
        } else {
          assert r[i] == t[i - 1] && r[j] == t[j - 1];
        }
      }
    } else {
      var rest := InsertByDay(x, t[1..]);
      InsertByDaySorted(x, t[1..]);
      forall j | 0 <= j < |rest|
        ensures DayLe(rest[j].tx.date, t[0].tx.date)
      {
        assert rest[j] in multiset(rest);
        if rest[j] != x {
          assert rest[j] in multiset(t[1..]);
          var m :| 0 <= m < |t[1..]| && t[1..][m] == rest[j];
          assert t[m + 1] == rest[j];
        }
      }
      var r := [t[0]] + rest;
      forall i, j | 0 <= i < j < |r|
        ensures DayLe(r[j].tx.date, r[i].tx.date)
      {
        if i == 0 {
          assert r[j] == rest[j - 1];
        } else {
          assert r[i] == rest[i - 1] && r[j] == rest[j - 1];
        }
      }
    }
  }

  /** Inserting `x` changes no day's records except by putting `x` first among its own day's. */
  lemma {:induction false} InsertByDayOnDay(x: Entry, t: seq<Entry>, k: Date)
    ensures OnDay(InsertByDay(x, t), k) == OnDay([x] + t, k)
  {
    if t != [] && !DayLe(t[0].tx.date, x.tx.date) {
      var p := DatedOn(k);
      var y, t1 := t[0], t[1..];
      InsertByDayOnDay(x, t1, k);
      assert t == [y] + t1;
      assert InsertByDay(x, t) == [y] + InsertByDay(x, t1);
      FilterCons(y, InsertByDay(x, t1), p);
      FilterCons(x, t1, p);
      FilterCons(y, t1, p);
      FilterCons(x, t, p);
      assert !(p(x) && p(y)) by {
        assert y.tx.date != x.tx.date;
      }
      SwapHeads(if p(x) then [x] else [], if p(y) then [y] else [], Filter(t1, p));
    }
  }

  /** Stability: for every day, the records of that day appear in the sorted list in their original order. */
  lemma {:induction false} SortByDayDescStable(s: seq<Entry>, k: Date)
    ensures OnDay(SortByDayDesc(s), k) == OnDay(s, k)
  {
    if s != [] {
      SortByDayDescStable(s[1..], k);
      InsertByDayOnDay(s[0], SortByDayDesc(s[1..]), k);
      assert s == [s[0]] + s[1..];
      FilterAppend([s[0]], SortByDayDesc(s[1..]), DatedOn(k));
      FilterAppend([s[0]], s[1..], DatedOn(k));
    }
  }

  /** Any selection of records from a list sorted by day is sorted by day. */
  lemma {:induction false} FilterKeepsSorted(s: seq<Entry>, p: Entry -> bool)
    requires SortedByDayDesc(s)
    ensures SortedByDayDesc(Filter(s, p))
  {
    if s != [] {
      FilterKeepsSorted(s[1..], p);
      FilterMembers(s[1..], p);
      var rest := Filter(s[1..], p);
      forall j | 0 <= j < |rest|
        ensures DayLe(rest[j].tx.date, s[0].tx.date)
      {
        var m :| 0 <= m < |s[1..]| && s[1..][m] == rest[j];
        assert s[m + 1] == rest[j];
      }
      var r := (if p(s[0]) then [s[0]] else []) + rest;
      assert Filter(s, p) == r;
      forall i, j | 0 <= i < j < |r|
        ensures DayLe(r[j].tx.date, r[i].tx.date)
      {
        if p(s[0]) {
          if i == 0 {
            assert r[j] == rest[j - 1];
          } else {
            assert r[i] == rest[i - 1] && r[j] == rest[j - 1];
          }
        }
      }
    }
  }

  /** All income records precede all expense records. */
  ghost predicate IncomeFirst(s: seq<Entry>)
  {
    forall i, j :: 0 <= i < j < |s| && s[i].kind == Expense ==> s[j].kind == Expense
  }

  /** Within each day, income records precede expense records. */
  ghost predicate IncomeFirstWithinDay(s: seq<Entry>)
  {
    forall i, j ::
      0 <= i < j < |s| && s[i].tx.date == s[j].tx.date && s[i].kind == Expense ==> s[j].kind == Expense
  }

  lemma {:induction false} InsertIncomeKeepsOrder(x: Entry, t: seq<Entry>)
    requires x.kind == Income && IncomeFirstWithinDay(t)
    ensures IncomeFirstWithinDay(InsertByDay(x, t))
  {
    if t == [] || DayLe(t[0].tx.date, x.tx.date) {
      var r := [x] + t;
      forall i, j | 0 <= i < j < |r| && r[i].tx.date == r[j].tx.date && r[i].kind == Expense
        ensures r[j].kind == Expense
      {
        assert i > 0 && r[i] == t[i - 1] && r[j] == t[j - 1];
      }
    } else {
      var rest := InsertByDay(x, t[1..]);
      InsertIncomeKeepsOrder(x, t[1..]);
      var r := [t[0]] + rest;
      forall i, j | 0 <= i < j < |r| && r[i].tx.date == r[j].tx.date && r[i].kind == Expense
        ensures r[j].kind == Expense
      {
        if i == 0 {
          assert r[j] == rest[j - 1] && rest[j - 1] in multiset(rest);
          if rest[j - 1] != x {
            assert rest[j - 1] in multiset(t[1..]);
            var m :| 0 <= m < |t[1..]| && t[1..][m] == rest[j - 1];
            assert t[m + 1] == r[j];
          }
        } else {
          assert r[i] == rest[i - 1] && r[j] == rest[j - 1];
        }
      }
    }
  }

  /** Sorting a list whose income records all come first keeps income before expense within each day. */
  lemma {:induction false} SortByDayDescIncomeFirst(s: seq<Entry>)
    requires IncomeFirst(s)
    ensures IncomeFirstWithinDay(SortByDayDesc(s))
  {
    if s != [] {
      var t := SortByDayDesc(s[1..]);
      assert IncomeFirst(s[1..]) by {
        forall i, j | 0 <= i < j < |s[1..]| && s[1..][i].kind == Expense
          ensures s[1..][j].kind == Expense
        {
          assert s[i + 1].kind == Expense;
        }
      }
      SortByDayDescIncomeFirst(s[1..]);
      if s[0].kind == Income {
        InsertIncomeKeepsOrder(s[0], t);
      } else {
        var r := InsertByDay(s[0], t);
        forall i | 0 <= i < |r|
          ensures r[i].kind == Expense
        {
          assert r[i] in multiset(r);
          if r[i] != s[0] {
            assert r[i] in multiset(s[1..]);
            var m :| 0 <= m < |s[1..]| && s[1..][m] == r[i];
            assert s[m + 1] == r[i];
          }
        }
      }
    }
  }

  lemma DayLeAntisymmetric(a: Date, b: Date)
    requires DayLe(a, b) && DayLe(b, a)
    ensures a == b
  {
  }

  lemma FirstIsOnItsDay(s: seq<Entry>)
    requires s != []
    ensures OnDay(s, s[0].tx.date) != []
  {
    FilterMembers(s, DatedOn(s[0].tx.date));
    assert s[0] in OnDay(s, s[0].tx.date);
  }

  /** Two lists sorted by day that hold, for every day, the same records in the same order are equal. */
  lemma {:induction false} StableSortIsUnique(a: seq<Entry>, b: seq<Entry>)
    requires SortedByDayDesc(a) && SortedByDayDesc(b)
    requires forall k :: OnDay(a, k) == OnDay(b, k)
    ensures a == b
  {
    if a == [] || b == [] {
      if a != [] {
        FirstIsOnItsDay(a);
        assert false;
      } else if b != [] {
        FirstIsOnItsDay(b);
        assert false;
      }
    } else {
      var ka, kb := a[0].tx.date, b[0].tx.date;
      assert OnDay(a, ka) == [a[0]] + OnDay(a[1..], ka);
      assert OnDay(b, kb) == [b[0]] + OnDay(b[1..], kb);
      FilterMembers(a, DatedOn(ka));
      FilterMembers(b, DatedOn(ka));
      FilterMembers(a, DatedOn(kb));
      FilterMembers(b, DatedOn(kb));
      assert a[0] in OnDay(b, ka);
      var j :| 0 <= j < |b| && b[j] == a[0];
      assert DayLe(ka, kb) by {
        if j > 0 { assert DayLe(b[j].tx.date, b[0].tx.date); }
      }
      assert b[0] in OnDay(a, kb);
      var i :| 0 <= i < |a| && a[i] == b[0];
      assert DayLe(kb, ka) by {
        if i > 0 { assert DayLe(a[i].tx.date, a[0].tx.date); }
      }
      DayLeAntisymmetric(ka, kb);
      assert OnDay(a, ka) == OnDay(b, kb);
      assert OnDay(a, ka)[0] == a[0] && OnDay(b, kb)[0] == b[0];
      assert a[0] == b[0];
      forall k
        ensures OnDay(a[1..], k) == OnDay(b[1..], k)
      {
        var front := if a[0].tx.date == k then [a[0]] else [];
        assert OnDay(a, k) == front + OnDay(a[1..], k);
        assert OnDay(b, k) == front + OnDay(b[1..], k);
        assert OnDay(a, k) == OnDay(b, k);
        assert OnDay(a[1..], k) == OnDay(a, k)[|front|..];
        assert OnDay(b[1..], k) == OnDay(b, k)[|front|..];
      }
      StableSortIsUnique(a[1..], b[1..]);
      assert a == [a[0]] + a[1..] && b == [b[0]] + b[1..];
    }
  }

  /** Any list that is sorted by day and keeps each day's records in their order in `s` equals SortByDayDesc(s). */
  lemma SortByDayDescIsTheStableSort(s: seq<Entry>, r: seq<Entry>)
    requires SortedByDayDesc(r)
    requires forall k :: OnDay(r, k) == OnDay(s, k)
    ensures r == SortByDayDesc(s)
  {
    forall k
      ensures OnDay(r, k) == OnDay(SortByDayDesc(s), k)
    {
      SortByDayDescStable(s, k);
    }
    StableSortIsUnique(r, SortByDayDesc(s));
  }
}
