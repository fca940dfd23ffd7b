/**
 * The App component's state (src/App.js:126-206): the ledger held in
 * `transactions`, replaced by handleAddTransaction and changed in place by
 * updateTransaction and deleteTransaction. The browser's prompt and
 * confirm dialogs are replaced by the values they would return.
 */
module AppState {
  import opened Ledger
  import opened ExpenseList

  /** The replacement entry handleEdit builds: the old entry with a new amount and description. */
  function EditedTransaction(original: Transaction, newAmount: int, newDescription: string): (r: Transaction)
    ensures r.month == original.month && r.txType == original.txType
    ensures r.amount == newAmount && r.description == newDescription
  {
    original.(amount := newAmount, description := newDescription)
  }

  /**
   * Editing an entry keeps the ledger balanced: the replacement keeps the
   * old entry's type and month, and the totals are not touched.
   */
  lemma EditPreservesBalanced(l: Ledger, m: string, i: nat, newAmount: int, newDescription: string)
    requires Balanced(l) && m in l && i < |l[m].expenseTransactions|
    ensures Balanced(l[m := ReplaceEntry(l[m], i,
      EditedTransaction(l[m].expenseTransactions[i], newAmount, newDescription))])
  {
  }

  class App {
    var transactions: Ledger

    /** The ledger starts empty. */
    constructor ()
      ensures transactions == map[]
    {
      transactions := map[];
    }

    /** Fold a submitted transaction into the ledger. */
    method HandleAddTransaction(t: Transaction)
      modifies this
      ensures transactions == AddTransaction(old(transactions), t)
      ensures Balanced(old(transactions)) ==> Balanced(transactions)
    {
      if Balanced(transactions) {
        AddPreservesBalanced(transactions, t);
      }
      transactions := AddTransaction(transactions, t);
    }

    /**
     * Assign `updated` at `index` of the month's expense list. The length,
     * every other entry, the month's totals and every other month stay as
     * they were.
     */
    method UpdateTransaction(month: string, index: int, updated: Transaction)
      requires month in transactions
      requires 0 <= index < |transactions[month].expenseTransactions|
      modifies this
      ensures transactions.Keys == old(transactions).Keys
      ensures forall m :: m in old(transactions) && m != month ==> transactions[m] == old(transactions)[m]
      ensures var before, after := old(transactions)[month], transactions[month];
        && |after.expenseTransactions| == |before.expenseTransactions|
        && after.expenseTransactions[index] == updated
        && (forall j :: 0 <= j < |after.expenseTransactions| && j != index ==>
              after.expenseTransactions[j] == before.expenseTransactions[j])
        && after.totalIncome == before.totalIncome
        && after.totalExpense == before.totalExpense
        && after.savings == before.savings
    {
      transactions := transactions[month := ReplaceEntry(transactions[month], index, updated)];
    }

    /**
     * Remove one entry of the month's expense list with splice(index, 1).
     * The month's totals and every other month stay as they were.
     */
    method DeleteTransaction(month: string, index: int)
      requires month in transactions
      modifies this
      ensures transactions.Keys == old(transactions).Keys
      ensures forall m :: m in old(transactions) && m != month ==> transactions[m] == old(transactions)[m]
      ensures var before, after := old(transactions)[month], transactions[month];
        && after.expenseTransactions == SpliceOne(before.expenseTransactions, index)
        && after.totalIncome == before.totalIncome
        && after.totalExpense == before.totalExpense
        && after.savings == before.savings
      ensures Balanced(old(transactions)) ==> Balanced(transactions)
    {
      if Balanced(transactions) {
        RemovePreservesBalanced(transactions, month, index);
      }
      transactions := transactions[month := RemoveEntry(transactions[month], index)];
    }

    /**
     * Replace the entry at `index` by one with the same month and type and
     * the amount and description the user entered.
     */
    method HandleEdit(month: string, index: int, newAmount: int, newDescription: string)
      requires month in transactions
      requires 0 <= index < |transactions[month].expenseTransactions|
      modifies this
      ensures transactions == old(transactions)[month := ReplaceEntry(old(transactions)[month], index,
        EditedTransaction(old(transactions)[month].expenseTransactions[index], newAmount, newDescription))]
      ensures var e := transactions[month].expenseTransactions[index];
        && e.month == old(transactions)[month].expenseTransactions[index].month
        && e.txType == old(transactions)[month].expenseTransactions[index].txType
        && e.amount == newAmount && e.description == newDescription
      ensures Balanced(old(transactions)) ==> Balanced(transactions)
    {
      if Balanced(transactions) {
        EditPreservesBalanced(transactions, month, index, newAmount, newDescription);
      }
      var transactionToEdit := transactions[month].expenseTransactions[index];
      var updatedTransaction := EditedTransaction(transactionToEdit, newAmount, newDescription);
      UpdateTransaction(month, index, updatedTransaction);
      assert transactions[month] == ReplaceEntry(old(transactions)[month], index, updatedTransaction);
    }

    /**
     * Delete the entry at `index` only when the user confirmed: the entry
     * goes, later entries move down by one, and nothing else changes;
     * without confirmation the ledger is untouched.
     */
    method HandleDelete(month: string, index: int, confirmDelete: bool)
      requires month in transactions
      requires 0 <= index < |transactions[month].expenseTransactions|
      modifies this
      ensures !confirmDelete ==> transactions == old(transactions)
      ensures confirmDelete ==>
        transactions == old(transactions)[month := RemoveEntry(old(transactions)[month], index)]
      ensures confirmDelete ==>
        var before, after := old(transactions)[month].expenseTransactions, transactions[month].expenseTransactions;
        && |after| == |before| - 1
        && (forall j :: 0 <= j < index ==> after[j] == before[j])
        && (forall j :: index <= j < |after| ==> after[j] == before[j + 1])
      ensures Balanced(old(transactions)) ==> Balanced(transactions)
    {
      if confirmDelete {
        DeleteTransaction(month, index);
        assert transactions[month] == RemoveEntry(old(transactions)[month], index);
      }
    }
  }
}
