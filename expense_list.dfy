/**
 * The two in-place changes App makes to one month's list of expense
 * entries: assigning a new entry at an index (updateTransaction,
 * src/App.js:196-200) and removing one with Array.prototype.splice
 * (deleteTransaction, src/App.js:202-206). Neither touches the totals.
 */
module ExpenseList {
  import opened Ledger

  /**
   * Where splice(start, 1) starts removing on a list of length len: a
   * negative start counts back from the end (clamped at 0), a start past
   * the end is clamped to the end.
   */
  function SpliceStart(len: nat, start: int): (k: nat)
    ensures k <= len
    ensures 0 <= start <= len ==> k == start
    ensures start > len ==> k == len
    ensures start < 0 && len + start >= 0 ==> k == len + start
    ensures len + start < 0 ==> k == 0
  {
    if start < 0 then (if len + start < 0 then 0 else len + start)
    else if start < len then start else len
  }

  /** The list left by s.splice(start, 1). */
  function SpliceOne<T>(s: seq<T>, start: int): (r: seq<T>)
    ensures 0 <= start < |s| ==>
      && |r| == |s| - 1
      && (forall j :: 0 <= j < start ==> r[j] == s[j])
      && (forall j :: start <= j < |r| ==> r[j] == s[j + 1])
    ensures start >= |s| ==> r == s
    ensures start < 0 && |s| + start >= 0 ==>
      && |r| == |s| - 1
      && (forall j :: 0 <= j < |s| + start ==> r[j] == s[j])
      && (forall j :: |s| + start <= j < |r| ==> r[j] == s[j + 1])
    ensures |s| + start < 0 && s != [] ==> r == s[1..]
    ensures s == [] ==> r == []
  {
    var k := SpliceStart(|s|, start);
    if k < |s| then s[..k] + s[k + 1..] else s
  }

  /** Removing an in-range entry takes exactly that one element out of the multiset of entries. */
  lemma SpliceOneMultiset<T>(s: seq<T>, i: int)
    requires 0 <= i < |s|
    ensures multiset(SpliceOne(s, i)) + multiset{s[i]} == multiset(s)
  {
    var r := SpliceOne(s, i);
    assert r == s[..i] + s[i + 1..];
    assert s == s[..i] + ([s[i]] + s[i + 1..]);
    calc {
      multiset(s);
      multiset(s[..i]) + multiset([s[i]] + s[i + 1..]);
      multiset(s[..i]) + multiset{s[i]} + multiset(s[i + 1..]);
      multiset(r) + multiset{s[i]};
    }
  }

  /** Whatever the start, splice(start, 1) leaves only elements of the original list. */
  lemma SpliceOneSubset<T>(s: seq<T>, start: int)
    ensures multiset(SpliceOne(s, start)) <= multiset(s)
  {
    var k := SpliceStart(|s|, start);
    if k < |s| {
      SpliceOneMultiset(s, k);
      assert SpliceOne(s, start) == SpliceOne(s, k);
    }
  }

  /** Deleting with any index keeps the ledger balanced, since the remaining entries are old ones. */
  lemma RemovePreservesBalanced(l: Ledger, m: string, i: int)
    requires Balanced(l) && m in l
    ensures Balanced(l[m := RemoveEntry(l[m], i)])
  {
  }

  /** The record after assigning t at index i of its expense list; totals as before. */
  function ReplaceEntry(rec: MonthRecord, i: nat, t: Transaction): (r: MonthRecord)
    requires i < |rec.expenseTransactions|
    ensures |r.expenseTransactions| == |rec.expenseTransactions| && r.expenseTransactions[i] == t
    ensures forall j :: 0 <= j < |r.expenseTransactions| && j != i ==>
      r.expenseTransactions[j] == rec.expenseTransactions[j]
    ensures r.totalIncome == rec.totalIncome && r.totalExpense == rec.totalExpense && r.savings == rec.savings
  {
    rec.(expenseTransactions := rec.expenseTransactions[i := t])
  }

  /** The record after splice(i, 1) on its expense list; totals as before. */
  function RemoveEntry(rec: MonthRecord, i: int): (r: MonthRecord)
    ensures r.expenseTransactions == SpliceOne(rec.expenseTransactions, i)
    ensures r.totalIncome == rec.totalIncome && r.totalExpense == rec.totalExpense && r.savings == rec.savings
  {
    rec.(expenseTransactions := SpliceOne(rec.expenseTransactions, i))
  }

  lemma SumAmountsReplace(s: seq<Transaction>, i: nat, t: Transaction)
    requires i < |s|
    ensures SumAmounts(s[i := t]) == SumAmounts(s) - s[i].amount + t.amount
  {
    assert s == s[..i] + [s[i]] + s[i + 1..];
    assert s[i := t] == s[..i] + [t] + s[i + 1..];
    SumAmountsConcat(s[..i] + [s[i]], s[i + 1..]);
    SumAmountsConcat(s[..i] + [t], s[i + 1..]);
    SumAmountsAppend(s[..i], s[i]);
    SumAmountsAppend(s[..i], t);
  }

  lemma SumAmountsRemove(s: seq<Transaction>, i: nat)
    requires i < |s|
    ensures SumAmounts(SpliceOne(s, i)) == SumAmounts(s) - s[i].amount
  {
    assert SpliceOne(s, i) == s[..i] + s[i + 1..];
    SumAmountsSplit(s, i);
  }

  lemma SumAmountsSplit(s: seq<Transaction>, i: nat)
    requires i < |s|
    ensures SumAmounts(s[..i] + s[i + 1..]) == SumAmounts(s) - s[i].amount
  {
    var front, back := s[..i], s[i + 1..];
    assert s == (front + [s[i]]) + back;
    SumAmountsConcat(front + [s[i]], back);
    SumAmountsConcat(front, back);
    SumAmountsAppend(front, s[i]);
  }

  /**
   * Because the totals are not recomputed, a consistent month stays
   * consistent after an in-place replacement of an expense entry exactly
   * when the new entry is an expense with the same amount as the old one.
   */
  lemma ReplaceKeepsConsistentIff(rec: MonthRecord, i: nat, t: Transaction)
    requires Consistent(rec)
    requires i < |rec.expenseTransactions|
    ensures Consistent(ReplaceEntry(rec, i, t)) <==>
      t.txType == Expense && t.amount == rec.expenseTransactions[i].amount
  {
    var s := rec.expenseTransactions;
    SumAmountsReplace(s, i, t);
    if Consistent(ReplaceEntry(rec, i, t)) {
      assert s[i := t][i] == t;
    }
  }

  /**
   * Because the totals are not recomputed, a consistent month stays
   * consistent after deleting an in-range entry exactly when that entry's
   * amount is zero.
   */
  lemma RemoveKeepsConsistentIff(rec: MonthRecord, i: nat)
    requires Consistent(rec)
    requires i < |rec.expenseTransactions|
    ensures Consistent(RemoveEntry(rec, i)) <==> rec.expenseTransactions[i].amount == 0
  {
    SumAmountsRemove(rec.expenseTransactions, i);
  }
}
