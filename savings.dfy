/**
 * TotalSavingsBox (src/App.js:116-125): the lifetime savings figure, the
 * sum of every month record's savings. The source's reduce adds the records
 * up in Object.values order (the order months were first added). Over exact
 * integers any order gives the same total: TotalSavingsRemove lets any month
 * be counted first, and SumSavings adds the months up in an arbitrary order.
 */
module Savings {
  import opened Ledger
  import opened ExpenseList

  /** Some month of a non-empty ledger. */
  ghost function PickMonth(l: Ledger): (m: string)
    requires l != map[]
    ensures m in l
  {
    var m :| m in l; m
  }

  /** The sum of savings over all month records; 0 for the empty ledger. */
  ghost function TotalSavings(l: Ledger): (total: int)
    decreases l.Keys
  {
    if l == map[] then 0
    else
      var m := PickMonth(l);
      l[m].savings + TotalSavings(l - {m})
  }

  /** The sum is the same whichever month is counted first. */
  lemma {:induction false} TotalSavingsRemove(l: Ledger, m: string)
    requires m in l
    ensures TotalSavings(l) == l[m].savings + TotalSavings(l - {m})
    decreases l.Keys
  {
    var p := PickMonth(l);
    if p != m {
      TotalSavingsRemove(l - {p}, m);
      TotalSavingsRemove(l - {m}, p);
      assert (l - {p}) - {m} == (l - {m}) - {p};
    }
  }

  /** Replacing the record of a present month changes the total by the change in its savings. */
  lemma TotalSavingsUpdatePresent(l: Ledger, m: string, rec: MonthRecord)
    requires m in l
    ensures TotalSavings(l[m := rec]) == TotalSavings(l) - l[m].savings + rec.savings
  {
    TotalSavingsRemove(l, m);
    TotalSavingsRemove(l[m := rec], m);
    assert l[m := rec] - {m} == l - {m};
  }

  /** Adding the record of a new month adds its savings to the total. */
  lemma TotalSavingsUpdateAbsent(l: Ledger, m: string, rec: MonthRecord)
    requires m !in l
    ensures TotalSavings(l[m := rec]) == TotalSavings(l) + rec.savings
  {
    TotalSavingsRemove(l[m := rec], m);
    assert l[m := rec] - {m} == l;
  }

  /** Each add moves the lifetime total by exactly the amount: up for income, down for an expense. */
  lemma TotalSavingsAfterAdd(l: Ledger, t: Transaction)
    ensures TotalSavings(AddTransaction(l, t)) ==
      TotalSavings(l) + (if t.txType == Income then t.amount else -t.amount)
  {
    var r := AddTransaction(l, t);
    assert r == l[t.month := r[t.month]];
    if t.month in l {
      TotalSavingsUpdatePresent(l, t.month, r[t.month]);
    } else {
      TotalSavingsUpdateAbsent(l, t.month, r[t.month]);
    }
  }

  /** Replacing or deleting an expense entry leaves the lifetime total as it was. */
  lemma TotalSavingsAfterEdit(l: Ledger, m: string, i: nat, t: Transaction)
    requires m in l && i < |l[m].expenseTransactions|
    ensures TotalSavings(l[m := ReplaceEntry(l[m], i, t)]) == TotalSavings(l)
    ensures TotalSavings(l[m := RemoveEntry(l[m], i)]) == TotalSavings(l)
  {
    TotalSavingsUpdatePresent(l, m, ReplaceEntry(l[m], i, t));
    TotalSavingsUpdatePresent(l, m, RemoveEntry(l[m], i));
  }

  /**
   * The reduce: add up the savings month by month, taking the months in
   * whatever order; the result is the lifetime total.
   */
  method SumSavings(l: Ledger) returns (total: int)
    ensures total == TotalSavings(l)
  {
    total := 0;
    var rest := l;
    while rest != map[]
      invariant total + TotalSavings(rest) == TotalSavings(l)
      decreases rest.Keys
    {
      var m :| m in rest;
      TotalSavingsRemove(rest, m);
      total := total + rest[m].savings;
      rest := rest - {m};
    }
  }

  /** The lifetime total of a balanced ledger is its total income minus its total expense. */
  lemma {:induction false} TotalSavingsIsNet(l: Ledger)
    requires Balanced(l)
    ensures TotalSavings(l) == TotalIncome(l) - TotalExpense(l)
    decreases l.Keys
  {
    if l != map[] {
      var p := PickMonth(l);
      TotalSavingsIsNet(l - {p});
    }
  }

  ghost function TotalIncome(l: Ledger): (total: int)
    decreases l.Keys
  {
    if l == map[] then 0 else var m := PickMonth(l); l[m].totalIncome + TotalIncome(l - {m})
  }

  ghost function TotalExpense(l: Ledger): (total: int)
    decreases l.Keys
  {
    if l == map[] then 0 else var m := PickMonth(l); l[m].totalExpense + TotalExpense(l - {m})
  }
}
