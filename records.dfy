// The records the store holds. The backend returns plain transactions; the
// merged list tags each one with the list it came from.
module Records {
  import opened Sequences

  /** A calendar day. Time of day is not represented. */
  datatype Date = Date(year: int, month: int, day: int)

  /** The `type` field the store adds to each record of the merged list. */
  datatype Kind = Income | Expense

  /** A record as the backend returns it; `amount` is already an integer. */
  datatype Transaction = Transaction(id: int, amount: int, date: Date)

  /** A record of the merged list: the backend record with its `type`. */
  datatype Entry = Entry(tx: Transaction, kind: Kind)

  function Amount(t: Transaction): int { t.amount }

  function EntryAmount(e: Entry): int { e.tx.amount }

  /** An amount counted positively for income and negatively for an expense. */
  function NetAmount(e: Entry): int
  {
    match e.kind
    case Income => e.tx.amount
    case Expense => -e.tx.amount
  }

  /** The integer sum of `amount` over a list of backend records. */
  function SumAmounts(txs: seq<Transaction>): int { Sum(txs, Amount) }

  /** Every record of `txs`, in order, tagged with `kind`. */
  function Tag(txs: seq<Transaction>, kind: Kind): (r: seq<Entry>)
    ensures |r| == |txs|
    ensures forall i :: 0 <= i < |r| ==> r[i] == Entry(txs[i], kind)
  {
    if txs == [] then [] else [Entry(txs[0], kind)] + Tag(txs[1..], kind)
  }

  /** The merged list before sorting: tagged income records followed by tagged expense records. */
  function Merged(income: seq<Transaction>, expense: seq<Transaction>): (r: seq<Entry>)
    ensures |r| == |income| + |expense|
    ensures forall i :: 0 <= i < |income| ==> r[i] == Entry(income[i], Income)
    ensures forall j :: 0 <= j < |expense| ==> r[|income| + j] == Entry(expense[j], Expense)
  {
    Tag(income, Income) + Tag(expense, Expense)
  }

  /** A record is in the merged list exactly when it is tagged with the list it comes from. */
  lemma MergedMembers(income: seq<Transaction>, expense: seq<Transaction>)
    ensures forall e :: e in Merged(income, expense) <==>
      (e.kind == Income && e.tx in income) || (e.kind == Expense && e.tx in expense)
  {
    var m := Merged(income, expense);
    forall e | e in m
      ensures (e.kind == Income && e.tx in income) || (e.kind == Expense && e.tx in expense)
    {
      var n :| 0 <= n < |m| && m[n] == e;
      if n < |income| {
        assert e == Entry(income[n], Income);
      } else {
        assert e == Entry(expense[n - |income|], Expense);
      }
    }
    forall e: Entry | (e.kind == Income && e.tx in income) || (e.kind == Expense && e.tx in expense)
      ensures e in m
    {
      if e.kind == Income {
        var i :| 0 <= i < |income| && income[i] == e.tx;
        assert m[i] == e;
      } else {
        var j :| 0 <= j < |expense| && expense[j] == e.tx;
        assert m[|income| + j] == e;
      }
    }
  }

  /** The backend records of a merged list, without their tags. */
  function Untag(es: seq<Entry>): (r: seq<Transaction>)
    ensures |r| == |es|
    ensures forall i :: 0 <= i < |r| ==> r[i] == es[i].tx
  {
    if es == [] then [] else [es[0].tx] + Untag(es[1..])
  }

  /** Removing the tags from the merged list gives back income followed by expense. */
  lemma MergedUntagged(income: seq<Transaction>, expense: seq<Transaction>)
    ensures Untag(Merged(income, expense)) == income + expense
  {
  }

  /** A backend record occurs in the untagged list as often as it occurs under either tag. */
  lemma {:induction false} UntagCount(s: seq<Entry>, t: Transaction)
    ensures multiset(Untag(s))[t] == multiset(s)[Entry(t, Income)] + multiset(s)[Entry(t, Expense)]
  {
    if s != [] {
      var h, rest := s[0], s[1..];
      UntagCount(rest, t);
      assert s == [h] + rest;
      assert multiset(s) == multiset{h} + multiset(rest);
      assert multiset(Untag(s)) == multiset{h.tx} + multiset(Untag(rest));
      var other := if h.kind == Income then Entry(t, Expense) else Entry(t, Income);
      assert h.tx == t <==> h == Entry(t, h.kind);
      assert multiset{h}[other] == 0;
    }
  }

  /** Stripping tags keeps the two sides permutations of each other. */
  lemma UntagPermutation(a: seq<Entry>, b: seq<Entry>)
    requires multiset(a) == multiset(b)
    ensures multiset(Untag(a)) == multiset(Untag(b))
  {
    forall t
      ensures multiset(Untag(a))[t] == multiset(Untag(b))[t]
    {
      UntagCount(a, t);
      UntagCount(b, t);
    }
  }

  /** Tagging keeps the sum of amounts; the net sum counts tagged expenses negatively. */
  lemma {:induction false} SumOfTagged(txs: seq<Transaction>, kind: Kind)
    ensures Sum(Tag(txs, kind), EntryAmount) == SumAmounts(txs)
    ensures Sum(Tag(txs, kind), NetAmount) == if kind == Income then SumAmounts(txs) else -SumAmounts(txs)
  {
    if txs != [] {
      SumOfTagged(txs[1..], kind);
      assert Tag(txs, kind)[1..] == Tag(txs[1..], kind);
    }
  }
}
