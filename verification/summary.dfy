/** The three totals of the summary report: income, expense and balance. */
module Summary {
  import opened Transactions

  /** The records whose type is exactly `kind`, in ledger order. */
  function Select(ts: seq<Transaction>, kind: string): (r: seq<Transaction>)
    ensures |r| <= |ts|
    ensures forall i :: 0 <= i < |r| ==> r[i].tType == kind
    ensures forall t :: t in r <==> t in ts && t.tType == kind
    ensures forall t {:trigger multiset(r)[t]} :: multiset(r)[t] == if t.tType == kind then multiset(ts)[t] else 0
  {
    if |ts| == 0 then []
    else
      assert ts == [ts[0]] + ts[1..];
      (if ts[0].tType == kind then [ts[0]] else []) + Select(ts[1..], kind)
  }

  /** The sum of all amounts. */
  function Total(ts: seq<Transaction>): int {
    if |ts| == 0 then 0 else ts[0].amount + Total(ts[1..])
  }

  /** The sum of the amounts of the records whose type is exactly `kind`,
      accumulated from the front of the ledger. Records of other types add
      nothing; when every record has that type it is the sum of all amounts. */
  function KindTotal(ts: seq<Transaction>, kind: string): (r: int)
    ensures NoneOfKind(ts, kind) ==> r == 0
    ensures AllOfKind(ts, kind) ==> r == Total(ts)
    ensures AllNonNegative(ts) ==> r >= 0
  {
    if |ts| == 0 then 0
    else
      assert NoneOfKind(ts, kind) ==> NoneOfKind(ts[1..], kind);
      assert AllOfKind(ts, kind) ==> AllOfKind(ts[1..], kind);
      assert AllNonNegative(ts) ==> AllNonNegative(ts[1..]);
      (if ts[0].tType == kind then ts[0].amount else 0) + KindTotal(ts[1..], kind)
  }

  /** True when no record has type `kind`. */
  predicate NoneOfKind(ts: seq<Transaction>, kind: string) {
    forall i :: 0 <= i < |ts| ==> ts[i].tType != kind
  }

  /** True when every record has type `kind`. */
  predicate AllOfKind(ts: seq<Transaction>, kind: string) {
    forall i :: 0 <= i < |ts| ==> ts[i].tType == kind
  }

  /** A kind's total is the sum over the records selected by that kind: the
      accumulation and the filtered sum agree. */
  lemma {:induction false} KindTotalIsFilteredSum(ts: seq<Transaction>, kind: string)
    ensures KindTotal(ts, kind) == Total(Select(ts, kind))
  {
    if |ts| > 0 {
      var head := if ts[0].tType == kind then [ts[0]] else [];
      KindTotalIsFilteredSum(ts[1..], kind);
      TotalAppend(head, Select(ts[1..], kind));
      if ts[0].tType == kind {
        assert head[1..] == [];
      }
    }
  }

  /** True when no record has a negative amount. */
  predicate AllNonNegative(ts: seq<Transaction>) {
    forall i :: 0 <= i < |ts| ==> ts[i].amount >= 0
  }

  datatype Totals = Totals(income: int, expense: int, balance: int)

  /** The summary report's figures. */
  function Summarize(ts: seq<Transaction>): (s: Totals)
    ensures s.balance == s.income - s.expense
    ensures AllNonNegative(ts) ==> s.income >= 0 && s.expense >= 0
  {
    var income := KindTotal(ts, Income);
    var expense := KindTotal(ts, Expense);
    Totals(income, expense, income - expense)
  }

  /** `Total` distributes over concatenation. */
  lemma {:induction false} TotalAppend(a: seq<Transaction>, b: seq<Transaction>)
    ensures Total(a + b) == Total(a) + Total(b)
  {
    if |a| > 0 {
      assert (a + b)[1..] == a[1..] + b;
      TotalAppend(a[1..], b);
    } else {
      assert a + b == b;
    }
  }

  /** `Select` distributes over concatenation. */
  lemma {:induction false} SelectAppend(a: seq<Transaction>, b: seq<Transaction>, kind: string)
    ensures Select(a + b, kind) == Select(a, kind) + Select(b, kind)
  {
    if |a| > 0 {
      assert (a + b)[1..] == a[1..] + b;
      SelectAppend(a[1..], b, kind);
    } else {
      assert a + b == b;
    }
  }

  /** A kind's total over two ledgers laid end to end is the sum of the two. */
  lemma {:induction false} KindTotalAppend(a: seq<Transaction>, b: seq<Transaction>, kind: string)
    ensures KindTotal(a + b, kind) == KindTotal(a, kind) + KindTotal(b, kind)
  {
    if |a| > 0 {
      assert (a + b)[1..] == a[1..] + b;
      KindTotalAppend(a[1..], b, kind);
    } else {
      assert a + b == b;
    }
  }

  /** Appending one record adds its amount to a kind's total exactly when
      its type is that kind. */
  lemma KindTotalSnoc(ts: seq<Transaction>, t: Transaction, kind: string)
    ensures KindTotal(ts + [t], kind) == KindTotal(ts, kind) + (if t.tType == kind then t.amount else 0)
  {
    KindTotalAppend(ts, [t], kind);
    assert [t][1..] == [];
  }

  /** Appending one record adds its amount to exactly the total its type
      names, and to neither when its type is neither `income` nor `expense`. */
  lemma SummaryAfterAdd(ts: seq<Transaction>, t: Transaction)
    ensures t.tType == Income ==>
      Summarize(ts + [t]).income == Summarize(ts).income + t.amount &&
      Summarize(ts + [t]).expense == Summarize(ts).expense
    ensures t.tType == Expense ==>
      Summarize(ts + [t]).income == Summarize(ts).income &&
      Summarize(ts + [t]).expense == Summarize(ts).expense + t.amount
    ensures t.tType != Income && t.tType != Expense ==>
      Summarize(ts + [t]) == Summarize(ts)
  {
    KindTotalSnoc(ts, t, Income);
    KindTotalSnoc(ts, t, Expense);
  }

  /** Records of any other type leave the summary as if they were not there. */
  lemma OtherKindsIgnored(ts: seq<Transaction>, others: seq<Transaction>)
    requires forall i :: 0 <= i < |others| ==>
      others[i].tType != Income && others[i].tType != Expense
    ensures Summarize(ts + others) == Summarize(ts)
  {
    assert NoneOfKind(others, Income) && NoneOfKind(others, Expense);
    KindTotalAppend(ts, others, Income);
    KindTotalAppend(ts, others, Expense);
  }

  /** Income 1000.00 for a salary and expense 200.00 for lunch leave a
      balance of 800.00 (amounts in cents). */
  lemma SalaryAndLunch(date: string)
    ensures Summarize([Transaction(100000, "Salary", "", Income, date),
                       Transaction(20000, "Food", "lunch", Expense, date)])
            == Totals(100000, 20000, 80000)
  {
    var salary := Transaction(100000, "Salary", "", Income, date);
    var lunch := Transaction(20000, "Food", "lunch", Expense, date);
    SummaryAfterAdd([salary], lunch);
    assert [salary] + [lunch] == [salary, lunch];
  }

  /** The summary computed in one pass over the ledger. */
  method ComputeSummary(ts: seq<Transaction>) returns (s: Totals)
    ensures s == Summarize(ts)
  {
    var income, expense := 0, 0;
    var i := 0;
    while i < |ts|
      invariant 0 <= i <= |ts|
      invariant income == KindTotal(ts[..i], Income)
      invariant expense == KindTotal(ts[..i], Expense)
    {
      var done, t := ts[..i], ts[i];
      assert ts[..i + 1] == done + [t];
      KindTotalSnoc(done, t, Income);
      KindTotalSnoc(done, t, Expense);
      income := income + (if t.tType == Income then t.amount else 0);
      expense := expense + (if t.tType == Expense then t.amount else 0);
      i := i + 1;
    }
    assert ts[..i] == ts;
    s := Totals(income, expense, income - expense);
  }
}
