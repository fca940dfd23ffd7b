# Expense tracker ledger — Dafny model

A model of the state logic of a browser expense tracker (the React component
tree in `src/App.js`). The user records income and expense entries per month
through a form; the App keeps a ledger mapping each month name to a record
holding that month's expense entries in insertion order, its total income,
its total expense and its savings. Entries can be edited or deleted from the
history table, and a summary box shows the sum of savings over all months.

Modules:

- `Ledger` (`ledger.dfy`): the entities (`TxType`, `Transaction`,
  `MonthRecord`, `Ledger`), the pure fold of one new transaction into the
  ledger (`AddTransaction`, App's `handleAddTransaction`), the consistency
  invariant of a month record, and replay of any sequence of adds from the
  empty ledger against reference definitions (`IncomeOf`, `ExpensesOf`).
- `ExpenseList` (`expense_list.dfy`): JavaScript's `splice(index, 1)` on a
  list (`SpliceOne`, including negative and past-the-end starts) and the two
  in-place changes to a month record, neither of which touches the totals.
- `Savings` (`savings.dfy`): `TotalSavingsBox`'s reduce: the lifetime total
  as a sum over the ledger's records, and a method that adds it up month by
  month.
- `AppState` (`app.dfy`): class `App` whose field `transactions` is the
  ledger; its methods are the component's handlers. The answers of
  `prompt` and `window.confirm` are method parameters.
- `TransactionForm` (`transaction_box.dfy`): class `TransactionBox` with the
  form's five state fields, its input and radio handlers and its submit
  guard. The number `parseFloat` would read from the amount text is a
  parameter of the submit.
- `Wrappers` (`wrappers.dfy`): `Option`.

Points where the code behaves differently from what a reader might expect:

- Editing or deleting an expense entry changes the list but does not
  recompute `totalExpense` or `savings` (src/App.js:196-206). So
  `totalExpense`, which nothing displays, no longer matches the listed
  entries, and the per-month savings (src/App.js:33) and the total savings
  (src/App.js:117) go stale. The model keeps the totals unchanged and proves
  exactly when the full consistency invariant survives: an edit keeps it iff
  the new amount equals the old one, a delete iff the removed amount is zero.
  What every handler (`HandleAddTransaction`, `HandleEdit`,
  `DeleteTransaction`, `HandleDelete`) does keep (`Ledger.Balanced`) is the
  savings identity, only expense entries listed, and each entry under its
  own month. `UpdateTransaction` alone, given an arbitrary entry, need not
  keep it; its only caller, `HandleEdit`, does.
- An income entry keeps a description left in the form state (the field is
  hidden for income but not cleared when the type changes); only an empty
  description becomes `"Income"` (src/App.js:56), rather than every income
  entry being labelled `"Income"`.
- A rejected submit sets no error message; `errorMessage` is only ever
  cleared (src/App.js:61).
- Amounts are not checked for sign.

## Model

| member | source | states |
|---|---|---|
| `Ledger.AddTransaction` | src/App.js:129-161 | the new ledger's months are the old ones plus the transaction's month, and every other month's record is identical |
| `Ledger.AddToAbsentMonth` | src/App.js:153-158 | a first income for a month gives `{[], a, 0, a}`; a first expense gives `{[t], 0, a, -a}` |
| `Ledger.AddToPresentMonth` | src/App.js:134-152 | income adds `a` to income and savings and keeps list and expense total; an expense is appended at the end, adds `a` to the expense total, subtracts it from savings and keeps income |
| `Ledger.AddPreservesWellFormed` | src/App.js:131-159 | adding keeps every month's expense total equal to the sum of its entries, savings equal to income minus expense, only expense entries listed, each under its own month |
| `Ledger.AddPreservesBalanced` | src/App.js:131-159 | adding keeps every month's savings equal to income minus expense, only expense entries listed, each under its own month |
| `Ledger.ReplayPreservesWellFormed` | src/App.js:127-161 | any sequence of adds from a well-formed ledger (the empty one included) leaves it well-formed |
| `Ledger.ReplayFromEmpty` | src/App.js:127-161 | from the empty ledger, a month is present iff some added transaction named it; its income is the sum of the income added for it and its list is exactly its added expenses in order |
| `ExpenseList.SpliceStart` | src/App.js:204 | where `splice` starts: in-range starts as given, negative ones counted from the end and clamped at 0, large ones clamped to the length |
| `ExpenseList.SpliceOne` | src/App.js:204 | an in-range delete shortens the list by one, keeps the entries before the index and shifts later ones down by one; a start past the end changes nothing; a negative start removes counting from the end |
| `ExpenseList.SpliceOneMultiset` | src/App.js:204 | an in-range delete removes exactly that one entry and no other |
| `ExpenseList.SpliceOneSubset` | src/App.js:204 | whatever the start, the spliced list holds only elements of the original |
| `ExpenseList.ReplaceEntry` | src/App.js:198 | the record's list has the new entry at the index and every other entry as before, with the same length; all three totals are as before |
| `ExpenseList.RemoveEntry` | src/App.js:204 | the record's list is the spliced old list; all three totals are as before |
| `ExpenseList.RemovePreservesBalanced` | src/App.js:202-206 | deleting at any index keeps the ledger balanced, since only old entries remain and the totals are kept |
| `ExpenseList.ReplaceKeepsConsistentIff` | src/App.js:196-200 | since the totals are kept, a consistent month stays consistent after a replacement iff the new entry is an expense with the old entry's amount |
| `ExpenseList.RemoveKeepsConsistentIff` | src/App.js:202-206 | since the totals are kept, a consistent month stays consistent after a delete iff the removed amount is zero |
| `Savings.TotalSavingsRemove` | src/App.js:117 | the sum of savings is the same whichever month is counted first, so the reduce's order does not affect it |
| `Savings.SumSavings` | src/App.js:117 | adding the months' savings one by one, in any order, yields the lifetime total |
| `Savings.TotalSavingsAfterAdd` | src/App.js:117 | each add raises the lifetime total by the amount for income and lowers it by the amount for an expense |
| `Savings.TotalSavingsAfterEdit` | src/App.js:117 | replacing or deleting an expense entry leaves the lifetime total unchanged |
| `Savings.TotalSavingsIsNet` | src/App.js:117 | on a balanced ledger, which every handler keeps, the lifetime total is total income minus total expense over all months |
| `AppState.EditedTransaction` | src/App.js:172-176 | the replacement keeps the old entry's month and type and takes the new amount and description |
| `AppState.EditPreservesBalanced` | src/App.js:163-200 | replacing an entry by its edited version keeps the ledger balanced, since type, month and totals are kept |
| `AppState.App.constructor` | src/App.js:127 | the ledger starts empty |
| `AppState.App.HandleAddTransaction` | src/App.js:129-161 | the new ledger is the old one with the transaction folded in, and stays balanced |
| `AppState.App.UpdateTransaction` | src/App.js:196-200 | the entry at the index becomes the given one; length, other entries, the month's totals and other months are unchanged |
| `AppState.App.DeleteTransaction` | src/App.js:202-206 | the month's list is spliced at the index; the month's totals and other months are unchanged; the ledger stays balanced |
| `AppState.App.HandleEdit` | src/App.js:163-180 | the entry at the index is replaced by one with its old month and type and the entered amount and description; nothing else changes; the ledger stays balanced |
| `AppState.App.HandleDelete` | src/App.js:182-193 | without confirmation nothing changes; with it the entry goes, earlier entries stay and later ones move down by one, and nothing else changes; the ledger stays balanced |
| `TransactionForm.NewTransaction` | src/App.js:51-57 | a transaction is produced iff month and amount are non-empty and the description is non-empty or the type is income; it carries month, type, amount and the description, with an empty one replaced by "Income" |
| `TransactionForm.TransactionBox.constructor` | src/App.js:44-48 | the fields start empty and the type starts as income |
| `TransactionForm.TransactionBox.SelectMonth` | src/App.js:68 | the selected month becomes the chosen one |
| `TransactionForm.TransactionBox.SelectIncome` | src/App.js:86-89 | the type becomes income and the amount is cleared; nothing else changes |
| `TransactionForm.TransactionBox.SelectExpense` | src/App.js:91-94 | the type becomes expense and the amount is cleared; nothing else changes |
| `TransactionForm.TransactionBox.SetAmount` | src/App.js:100 | the amount text becomes the typed text |
| `TransactionForm.TransactionBox.SetDescription` | src/App.js:106 | the description text becomes the typed text |
| `TransactionForm.TransactionBox.HandleAddTransaction` | src/App.js:50-62 | a rejected submit changes no field and emits nothing; an accepted one emits the transaction and clears amount, description and error message, keeping month and type |

## Left out

- Rendering (the history table, the form widgets, the summary box, the CSS import): presentational only.
- React's `useState` and re-rendering: the state is held in class fields instead.
- `prompt` and `window.confirm`: their answers are parameters. A cancelled prompt (which yields `null`, and `NaN` after `parseFloat`) is not modelled.
- `parseFloat`, `NaN` and floating-point rounding: amounts are integers and the parsed amount is a parameter of the submit and of the edit.
- The iteration order of `Object.keys` / `Object.values`: the history table lists months in it and the reduce sums savings in it. The model does not fix that order; `Savings.SumSavings` adds the months in an arbitrary order and is proved to give the same total, so over exact integers every order agrees.
- Month names: the model accepts any string as a month and treats a month as present when it is a key of the ledger. The source tests `transactions[month]` for truthiness (src/App.js:133), which differs from key membership for names inherited from `Object.prototype` such as `"constructor"`; the month selector only offers the twelve month names (src/App.js:69-81), where the two tests agree.
- Aliasing of the inner arrays shared by the shallow copy `{ ...transactions }`: the model describes the resulting ledger value, not object identity.
- AppState.App.UpdateTransaction: requires an index inside the list. JavaScript would grow the array (leaving holes) for a larger index, but the only caller, handleEdit, reads the entry at that index first and fails otherwise.
- AppState.App.HandleEdit and AppState.App.HandleDelete: require the month to be present and the index in range, because the source dereferences that entry and throws otherwise.
- AppState.App.DeleteTransaction and AppState.App.UpdateTransaction: require the month to be present; the source throws on a missing month.
