/**
 * The ledger kept by the App component: a map from month name to that
 * month's record, and the pure update that folds one new transaction into
 * it (App.handleAddTransaction, src/App.js:129-161).
 */
module Ledger {

  /** The two values of the form's transactionType field ('income', 'expense'). */
  datatype TxType = Income | Expense

  /** One entry as built by the form: { month, type, amount, description }. */
  datatype Transaction = Transaction(month: string, txType: TxType, amount: int, description: string)

  /** One month's record: its expense entries in insertion order and three running totals. */
  datatype MonthRecord = MonthRecord(
    expenseTransactions: seq<Transaction>,
    totalIncome: int,
    totalExpense: int,
    savings: int)

  type Ledger = map<string, MonthRecord>

  /** Sum of the amounts of a list of entries. */
  function SumAmounts(s: seq<Transaction>): (sum: int)
    decreases |s|
  {
    if s == [] then 0 else SumAmounts(s[..|s| - 1]) + s[|s| - 1].amount
  }

  /**
   * The invariant the totals are meant to keep: the expense total is the sum
   * of the listed entries, savings is income minus expense, and only
   * expense entries are listed.
   */
  predicate Consistent(rec: MonthRecord)
  {
    && rec.totalExpense == SumAmounts(rec.expenseTransactions)
    && rec.savings == rec.totalIncome - rec.totalExpense
    && forall i :: 0 <= i < |rec.expenseTransactions| ==> rec.expenseTransactions[i].txType == Expense
  }

  /** Every month record is consistent and lists only entries of its own month. */
  predicate WellFormed(l: Ledger)
  {
    forall m :: m in l ==>
      && Consistent(l[m])
      && forall i :: 0 <= i < |l[m].expenseTransactions| ==> l[m].expenseTransactions[i].month == m
  }

  /**
   * The part of Consistent that every App handler keeps (adding, editing
   * and deleting an entry): savings is income minus expense, only expense
   * entries are listed, and each is listed under its own month. (The
   * expense total itself goes stale after an edit or a delete.)
   */
  predicate Balanced(l: Ledger)
  {
    forall m :: m in l ==>
      && l[m].savings == l[m].totalIncome - l[m].totalExpense
      && forall i :: 0 <= i < |l[m].expenseTransactions| ==>
           l[m].expenseTransactions[i].txType == Expense && l[m].expenseTransactions[i].month == m
  }

  /**
   * Fold one transaction into the ledger. Only the key t.month changes; a
   * month seen for the first time gets a record built from t alone.
   */
  function AddTransaction(l: Ledger, t: Transaction): (r: Ledger)
    ensures r.Keys == l.Keys + {t.month}
    ensures forall m :: m in l && m != t.month ==> r[m] == l[m]
  {
    var month := t.month;
    l[month :=
      if month in l then
        MonthRecord(
          if t.txType == Expense then l[month].expenseTransactions + [t] else l[month].expenseTransactions,
          if t.txType == Income then l[month].totalIncome + t.amount else l[month].totalIncome,
          if t.txType == Expense then l[month].totalExpense + t.amount else l[month].totalExpense,
          if t.txType == Income then l[month].savings + t.amount else l[month].savings - t.amount)
      else
        MonthRecord(
          if t.txType == Expense then [t] else [],
          if t.txType == Income then t.amount else 0,
          if t.txType == Expense then t.amount else 0,
          if t.txType == Income then t.amount else -t.amount)]
  }

  /** Adding to a month not yet in the ledger creates its record from the one entry. */
  lemma AddToAbsentMonth(l: Ledger, t: Transaction)
    requires t.month !in l
    ensures t.txType == Income ==>
      AddTransaction(l, t)[t.month] == MonthRecord([], t.amount, 0, t.amount)
    ensures t.txType == Expense ==>
      AddTransaction(l, t)[t.month] == MonthRecord([t], 0, t.amount, -t.amount)
  {
  }

  /**
   * Adding to a month already present: income raises income and savings and
   * leaves the list and expense total alone; an expense is appended at the
   * end, raises the expense total, lowers savings and leaves income alone.
   */
  lemma AddToPresentMonth(l: Ledger, t: Transaction)
    requires t.month in l
    ensures var before := l[t.month]; var after := AddTransaction(l, t)[t.month];
      t.txType == Income ==>
        && after.expenseTransactions == before.expenseTransactions
        && after.totalIncome == before.totalIncome + t.amount
        && after.totalExpense == before.totalExpense
        && after.savings == before.savings + t.amount
    ensures var before := l[t.month]; var after := AddTransaction(l, t)[t.month];
      t.txType == Expense ==>
        && |after.expenseTransactions| == |before.expenseTransactions| + 1
        && after.expenseTransactions[..|before.expenseTransactions|] == before.expenseTransactions
        && after.expenseTransactions[|before.expenseTransactions|] == t
        && after.totalIncome == before.totalIncome
        && after.totalExpense == before.totalExpense + t.amount
        && after.savings == before.savings - t.amount
  {
  }

  lemma {:induction false} SumAmountsAppend(s: seq<Transaction>, t: Transaction)
    ensures SumAmounts(s + [t]) == SumAmounts(s) + t.amount
  {
    assert (s + [t])[..|s|] == s;
  }

  lemma {:induction false} SumAmountsConcat(a: seq<Transaction>, b: seq<Transaction>)
    ensures SumAmounts(a + b) == SumAmounts(a) + SumAmounts(b)
    decreases |b|
  {
    if b == [] {
      assert a + b == a;
    } else {
      var b' := b[..|b| - 1];
      assert a + b == (a + b') + [b[|b| - 1]];
      SumAmountsAppend(a + b', b[|b| - 1]);
      SumAmountsConcat(a, b');
      SumAmountsAppend(b', b[|b| - 1]);
      assert b == b' + [b[|b| - 1]];
    }
  }

  /** Adding keeps every month consistent and every entry under its own month. */
  lemma AddPreservesWellFormed(l: Ledger, t: Transaction)
    requires WellFormed(l)
    ensures WellFormed(AddTransaction(l, t))
  {
    var r := AddTransaction(l, t);
    if t.month in l {
      SumAmountsAppend(l[t.month].expenseTransactions, t);
    } else {
      assert [t] == [] + [t];
      SumAmountsAppend([], t);
    }
    assert Consistent(r[t.month]);
  }

  /** Adding keeps the savings identity, only expense entries, and each entry under its own month. */
  lemma AddPreservesBalanced(l: Ledger, t: Transaction)
    requires Balanced(l)
    ensures Balanced(AddTransaction(l, t))
  {
  }

  /** The ledger after a sequence of adds, applied first to last. */
  function Replay(l: Ledger, ts: seq<Transaction>): (r: Ledger)
    decreases |ts|
  {
    if ts == [] then l else AddTransaction(Replay(l, ts[..|ts| - 1]), ts[|ts| - 1])
  }

  /** The months named by a sequence of transactions. */
  function Months(ts: seq<Transaction>): (months: set<string>)
    decreases |ts|
  {
    if ts == [] then {} else Months(ts[..|ts| - 1]) + {ts[|ts| - 1].month}
  }

  /** Sum of the income amounts added for month m. */
  function IncomeOf(ts: seq<Transaction>, m: string): (income: int)
    decreases |ts|
  {
    if ts == [] then 0
    else
      var last := ts[|ts| - 1];
      IncomeOf(ts[..|ts| - 1], m) + (if last.month == m && last.txType == Income then last.amount else 0)
  }

  /** The expense entries added for month m, in the order they were added. */
  function ExpensesOf(ts: seq<Transaction>, m: string): (expenses: seq<Transaction>)
    decreases |ts|
  {
    if ts == [] then []
    else
      var last := ts[|ts| - 1];
      ExpensesOf(ts[..|ts| - 1], m) + (if last.month == m && last.txType == Expense then [last] else [])
  }

  /** Any sequence of adds keeps a well-formed ledger well-formed. */
  lemma {:induction false} ReplayPreservesWellFormed(l: Ledger, ts: seq<Transaction>)
    requires WellFormed(l)
    ensures WellFormed(Replay(l, ts))
    decreases |ts|
  {
    if ts != [] {
      ReplayPreservesWellFormed(l, ts[..|ts| - 1]);
      AddPreservesWellFormed(Replay(l, ts[..|ts| - 1]), ts[|ts| - 1]);
    }
  }

  /**
   * Starting from the empty ledger, after any sequence of adds a month is
   * present exactly when some added transaction named it, its income total
   * is the sum of the income added for it, and its list holds exactly the
   * expenses added for it, in order.
   */
  lemma {:induction false} ReplayFromEmpty(ts: seq<Transaction>, m: string)
    ensures m in Replay(map[], ts) <==> m in Months(ts)
    ensures m in Replay(map[], ts) ==>
      && Replay(map[], ts)[m].totalIncome == IncomeOf(ts, m)
      && Replay(map[], ts)[m].expenseTransactions == ExpensesOf(ts, m)
    decreases |ts|
  {
    if ts != [] {
      var prefix := ts[..|ts| - 1];
      ReplayFromEmpty(prefix, m);
      var t := ts[|ts| - 1];
      if t.month == m && m !in Replay(map[], prefix) {
        assert ExpensesOf(prefix, m) == [] by {
          ReplayFromEmptyAbsent(prefix, m);
        }
        assert IncomeOf(prefix, m) == 0 by {
          ReplayFromEmptyAbsent(prefix, m);
        }
      }
    }
  }

  /** A month no transaction named has no income and no expenses. */
  lemma {:induction false} ReplayFromEmptyAbsent(ts: seq<Transaction>, m: string)
    requires m !in Months(ts)
    ensures ExpensesOf(ts, m) == [] && IncomeOf(ts, m) == 0
    decreases |ts|
  {
    if ts != [] {
      ReplayFromEmptyAbsent(ts[..|ts| - 1], m);
    }
  }
}
