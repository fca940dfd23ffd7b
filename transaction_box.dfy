/**
 * The TransactionBox form (src/App.js:43-114): five fields set by its
 * inputs, radio buttons that also clear the amount, and a submit handler
 * that emits a transaction when the entry is complete. The number parsed
 * from the amount text is passed in with the submit.
 */
module TransactionForm {
  import opened Wrappers
  import opened Ledger

  /** The label an entry gets when its description was left empty. */
  const DefaultDescription: string := "Income"

  /**
   * The transaction a submit produces from the form's fields, or None when
   * the month or the amount is empty, or the description is empty on an
   * expense.
   */
  function NewTransaction(month: string, txType: TxType, amountText: string, description: string,
                          parsedAmount: int): (r: Option<Transaction>)
    ensures r.Some? <==> month != "" && amountText != "" && (description != "" || txType == Income)
    ensures r.Some? ==>
      && r.value.month == month && r.value.txType == txType && r.value.amount == parsedAmount
      && r.value.description == (if description != "" then description else DefaultDescription)
    ensures r.Some? ==> r.value.month != "" && r.value.description != ""
  {
    if month != "" && amountText != "" && (description != "" || txType == Income) then
      Some(Transaction(month, txType, parsedAmount, if description != "" then description else DefaultDescription))
    else
      None
  }

  class TransactionBox {
    var selectedMonth: string
    var transactionType: TxType
    var amount: string
    var description: string
    var errorMessage: string

    /** Every field starts empty and the type starts as income. */
    constructor ()
      ensures selectedMonth == "" && transactionType == Income
      ensures amount == "" && description == "" && errorMessage == ""
    {
      selectedMonth, transactionType := "", Income;
      amount, description, errorMessage := "", "", "";
    }

    /** The month selector. */
    method SelectMonth(month: string)
      modifies this`selectedMonth
      ensures selectedMonth == month
    {
      selectedMonth := month;
    }

    /** The income radio button: sets the type and clears the amount. */
    method SelectIncome()
      modifies this`transactionType, this`amount
      ensures transactionType == Income && amount == ""
    {
      transactionType := Income;
      amount := "";
    }

    /** The expense radio button: sets the type and clears the amount. */
    method SelectExpense()
      modifies this`transactionType, this`amount
      ensures transactionType == Expense && amount == ""
    {
      transactionType := Expense;
      amount := "";
    }

    /** The amount input. */
    method SetAmount(text: string)
      modifies this`amount
      ensures amount == text
    {
      amount := text;
    }

    /** The description input. */
    method SetDescription(text: string)
      modifies this`description
      ensures description == text
    {
      description := text;
    }

    /**
     * Submit: a rejected entry changes no field and emits nothing; an
     * accepted one emits the transaction from the fields and clears amount,
     * description and error message, keeping month and type.
     */
    method HandleAddTransaction(parsedAmount: int) returns (emitted: Option<Transaction>)
      modifies this
      ensures emitted == NewTransaction(old(selectedMonth), old(transactionType), old(amount),
                                        old(description), parsedAmount)
      ensures selectedMonth == old(selectedMonth) && transactionType == old(transactionType)
      ensures emitted.None? ==>
        amount == old(amount) && description == old(description) && errorMessage == old(errorMessage)
      ensures emitted.Some? ==> amount == "" && description == "" && errorMessage == ""
    {
      emitted := NewTransaction(selectedMonth, transactionType, amount, description, parsedAmount);
      if emitted.Some? {
        amount := "";
        description := "";
        errorMessage := "";
      }
    }
  }
}
