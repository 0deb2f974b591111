/**
 * The balance and the income/expense summary: reductions over the whole,
 * unfiltered list of transactions. Each is defined on the list alone, so no
 * filter or search criterion can affect it.
 */
module Summary {
  import opened Transactions
  import opened Adapter

  /** A transaction's contribution to the balance: income adds, expense subtracts. */
  function Signed(t: Transaction): real {
    if t.isIncome then t.amount else -t.amount
  }

  /** Σ (isIncome ? amount : -amount), accumulated from the front of the list. */
  function Balance(s: seq<Transaction>): real {
    if s == [] then 0.0 else Balance(s[..|s| - 1]) + Signed(s[|s| - 1])
  }

  function TotalIncome(s: seq<Transaction>): real {
    if s == [] then 0.0
    else TotalIncome(s[..|s| - 1]) + (if s[|s| - 1].isIncome then s[|s| - 1].amount else 0.0)
  }

  function TotalExpense(s: seq<Transaction>): real {
    if s == [] then 0.0
    else TotalExpense(s[..|s| - 1]) + (if s[|s| - 1].isIncome then 0.0 else s[|s| - 1].amount)
  }

  function IncomeCount(s: seq<Transaction>): nat {
    if s == [] then 0 else IncomeCount(s[..|s| - 1]) + (if s[|s| - 1].isIncome then 1 else 0)
  }

  function ExpenseCount(s: seq<Transaction>): nat {
    if s == [] then 0 else ExpenseCount(s[..|s| - 1]) + (if s[|s| - 1].isIncome then 0 else 1)
  }

  /** The plain sum of the amounts of a list. */
  function SumAmounts(s: seq<Transaction>): real {
    if s == [] then 0.0 else SumAmounts(s[..|s| - 1]) + s[|s| - 1].amount
  }

  /** With exact amounts, the balance is total income minus total expense. */
  lemma {:induction false} BalanceIsIncomeMinusExpense(s: seq<Transaction>)
    ensures Balance(s) == TotalIncome(s) - TotalExpense(s)
  {
    if s != [] {
      BalanceIsIncomeMinusExpense(s[..|s| - 1]);
    }
  }

  /** Every transaction is counted exactly once, as income or as expense. */
  lemma {:induction false} CountsPartitionList(s: seq<Transaction>)
    ensures IncomeCount(s) + ExpenseCount(s) == |s|
  {
    if s != [] {
      CountsPartitionList(s[..|s| - 1]);
    }
  }

  /** The two totals together sum every amount of the list. */
  lemma {:induction false} TotalsPartitionAmounts(s: seq<Transaction>)
    ensures TotalIncome(s) + TotalExpense(s) == SumAmounts(s)
  {
    if s != [] {
      TotalsPartitionAmounts(s[..|s| - 1]);
    }
  }

  /** With positive amounts, neither total is negative. */
  lemma {:induction false} TotalsNonNegative(s: seq<Transaction>)
    requires forall i :: 0 <= i < |s| ==> s[i].amount > 0.0
    ensures TotalIncome(s) >= 0.0 && TotalExpense(s) >= 0.0
  {
    if s != [] {
      TotalsNonNegative(s[..|s| - 1]);
    }
  }

  /**
   * The income side of the summary is exactly what the `IncomeOnly` view with
   * an empty query would list, and the expense side what `ExpenseOnly` would:
   * same count, same sum.
   */
  lemma {:induction false} SummaryAgreesWithTypeViews(s: seq<Transaction>)
    ensures IncomeCount(s) == |Filtered(s, "", IncomeOnly)|
    ensures TotalIncome(s) == SumAmounts(Filtered(s, "", IncomeOnly))
    ensures ExpenseCount(s) == |Filtered(s, "", ExpenseOnly)|
    ensures TotalExpense(s) == SumAmounts(Filtered(s, "", ExpenseOnly))
  {
    if s != [] {
      var init, last := s[..|s| - 1], s[|s| - 1];
      SummaryAgreesWithTypeViews(init);
      assert s == init + [last];
      assert [last][1..] == [];
      FilteredAppend(init, [last], "", IncomeOnly);
      FilteredAppend(init, [last], "", ExpenseOnly);
      SumAmountsAppend(Filtered(init, "", IncomeOnly), Filtered([last], "", IncomeOnly));
      SumAmountsAppend(Filtered(init, "", ExpenseOnly), Filtered([last], "", ExpenseOnly));
    }
  }

  lemma {:induction false} SumAmountsAppend(a: seq<Transaction>, b: seq<Transaction>)
    ensures SumAmounts(a + b) == SumAmounts(a) + SumAmounts(b)
    decreases |b|
  {
    if b == [] {
      assert a + b == a;
    } else {
      assert (a + b)[..|a + b| - 1] == a + b[..|b| - 1];
      SumAmountsAppend(a, b[..|b| - 1]);
    }
  }

  /**
   * The worked example: an income of 100 and an expense of 40. The
   * `ExpenseOnly` view lists one item, yet the balance is 60, the income
   * total 100 over one transaction and the expense total 40 over one.
   */
  lemma SummaryExample(id1: int, id2: int, d1: string, d2: string)
    ensures var s := [Transaction(id1, d1, 100.0, true), Transaction(id2, d2, 40.0, false)];
      |Filtered(s, "", ExpenseOnly)| == 1 &&
      Balance(s) == 60.0 &&
      TotalIncome(s) == 100.0 && IncomeCount(s) == 1 &&
      TotalExpense(s) == 40.0 && ExpenseCount(s) == 1
  {
    var s := [Transaction(id1, d1, 100.0, true), Transaction(id2, d2, 40.0, false)];
    var first := s[..|s| - 1];
    assert first == [s[0]] && first[..|first| - 1] == [];
    assert Balance(first) == 100.0 && TotalIncome(first) == 100.0 && TotalExpense(first) == 0.0;
    assert IncomeCount(first) == 1 && ExpenseCount(first) == 0;
    assert s[1..] == [s[1]] && s[1..][1..] == [];
  }
}
