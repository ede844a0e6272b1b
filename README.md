# Accounting dashboard: transaction store and editor dialog

A Dafny model of the behaviour inside the React component `AccountingMain`
of the accounting module: an ordered, in-memory list of transactions
(`id`, `type`, `description`, `amount`, `date`, `category`), the summary
cards derived from it (income, expenses, net profit, count), and the editor
dialog through which entries are added, edited, saved, deleted and
cancelled.

- `wrappers.dfy`, module `Wrappers`: `Option`, used for the outcome of
  parsing the amount text and for the transaction the editor is bound to.
- `ledger.dfy`, module `Ledger`: the records and the pure list transforms
  the handlers hand to the state setter: the sign rule applied on save, the
  replace-by-id `map` of an edit, the append of an add, the delete-by-id
  `filter`, what delete and replace do to an id carried by exactly one
  entry, and the Edit→Save round trip.
- `totals.dfy`, module `Summary`: the `filter`/`reduce` totals of the
  summary cards, a one-pass definition of the same figures proved equal to
  them, and how an append, a delete and an edit move each card.
- `accounting_main.dfy`, module `Dashboard`: class `AccountingMain` with the
  component's four state cells (`transactions`, `open`, `editTransaction`,
  `formData`) as fields and one method per handler; the seed list.
- `scenarios.dfy`, module `Scenarios`: sessions driven through the handlers
  (the seeded cards, adding an expense, editing entry 1, deleting entry 2,
  unparsable amount text, Edit→Save, Edit→Cancel) and the cards they leave.

Amounts are integers. The clock is a parameter: `HandleSave(now, today)`
receives the value `Date.now()` would give as the new id and the ISO day
`new Date()` would give as the date. The outcome of `parseFloat` is a
parameter too, as `Option<int>` (`None` for text that does not parse).

Ids are not claimed unique: an add takes its id from the clock, and an
edit-mode save rewrites every entry carrying the edited id.

Three behaviours of the code worth stating:
- Cancel (and dismissing the dialog) only closes it. The draft and the
  binding to the edited transaction are left in place, not discarded; the
  next Add or Edit overwrites them.
- Save does not clear the binding or the draft either; it only closes the
  dialog.
- The draft spreads the edited transaction's `id` and `date` into the form
  data, but Save always overwrites both, so `Draft` leaves them out.

## Model

| member | source | states |
|---|---|---|
| `Ledger.Abs` | components/AccountingMain.js:23 | `Math.abs` on integers: the result is never negative and is the argument or its negation |
| `Ledger.Signed` | components/AccountingMain.js:39 | an Expense amount is never positive, any other type never negative, and the magnitude is that of the typed amount |
| `Ledger.Commit` | components/AccountingMain.js:38-40 | the saved record carries the draft's type, description and category, the given id and date, the draft's magnitude, and keeps the sign convention |
| `Ledger.DraftOf` | components/AccountingMain.js:32-36 | Edit loads the transaction's type, description and category and the magnitude of its amount (never negative) |
| `Ledger.ReplaceById` | components/AccountingMain.js:43 | same length and order; each entry with the edited id becomes the new record, every other entry is unchanged |
| `Ledger.DeleteById` | components/AccountingMain.js:50-52 | no surviving entry carries the deleted id; the list never grows; the sign convention is preserved |
| `Ledger.Saved` | components/AccountingMain.js:38-46 | add mode appends exactly one record with the clock id and today's date after an unchanged prefix; edit mode keeps length and order, rewrites exactly the entries with the bound id; both preserve the sign convention of the whole list |
| `Ledger.DeleteMembers` | components/AccountingMain.js:51 | an entry survives a delete iff it was in the list and its id differs |
| `Ledger.DeleteConcat` | components/AccountingMain.js:51 | delete distributes over concatenation, so survivors keep their relative order |
| `Ledger.DeleteAbsent` | components/AccountingMain.js:51 | deleting an id no entry carries leaves the list unchanged |
| `Ledger.DeleteIdempotent` | components/AccountingMain.js:51 | deleting the same id twice is the same as once |
| `Ledger.DeleteHit` | components/AccountingMain.js:51 | a one-entry list carrying the deleted id becomes empty |
| `Ledger.DeleteCut` | components/AccountingMain.js:51 | deleting the id carried only by the entry between two parts joins the two parts |
| `Ledger.DeleteUnique` | components/AccountingMain.js:51 | deleting an id that exactly one entry carries removes that entry and keeps everything before and after it in order |
| `Ledger.ReplaceUnique` | components/AccountingMain.js:43 | an edit-mode save of an id that exactly one entry carries swaps that entry in place and keeps everything before and after it |
| `Ledger.EditSaveRoundTrip` | components/AccountingMain.js:34-43 | for a record keeping the sign convention, Edit then Save without changes yields the same record with only the date replaced |
| `Ledger.EditSaveUnchanged` | components/AccountingMain.js:32-46 | Edit then Save without changes, of an entry with a unique id already dated today, leaves the list exactly as it was |
| `Summary.SumAmounts` | components/AccountingMain.js:22-23 | the `reduce((sum, t) => sum + t.amount, 0)` left fold over a list: zero for the empty list, the fold of the rest plus the last amount |
| `Summary.Positive` | components/AccountingMain.js:22 | the income filter never lengthens the list and keeps only positive amounts |
| `Summary.Negative` | components/AccountingMain.js:23 | the expense filter never lengthens the list and keeps only negative amounts |
| `Summary.PositiveMembers` | components/AccountingMain.js:22 | an entry passes the income filter iff it is in the list with a positive amount |
| `Summary.NegativeMembers` | components/AccountingMain.js:23 | an entry passes the expense filter iff it is in the list with a negative amount |
| `Summary.SumSnoc` | components/AccountingMain.js:22-23 | the `reduce` over one more entry adds that entry's amount |
| `Summary.SumNonNegative` | components/AccountingMain.js:22 | a sum of non-negative amounts is non-negative, so total income is never negative |
| `Summary.SumNonPositive` | components/AccountingMain.js:23 | a sum of non-positive amounts is non-positive, so total expenses are a magnitude |
| `Summary.SplitSum` | components/AccountingMain.js:22-24 | the positive and negative entries together sum to the whole list; zero amounts count toward neither |
| `Summary.TotalIncome` | components/AccountingMain.js:22 | `totalIncome`, the sum of the positive amounts, is never negative |
| `Summary.TotalExpenses` | components/AccountingMain.js:23 | `totalExpenses`, the `Math.abs` of the sum of the negative amounts, is never negative and equals that sum negated |
| `Summary.TotalsOf` | components/AccountingMain.js:22-24 | income and expenses are non-negative, net profit is income minus expenses and equals the sum of all amounts; the count (line 184) is the length |
| `Summary.TotalsEmpty` | components/AccountingMain.js:22-24 | an empty list shows zero on every card |
| `Summary.IncomeSnoc` | components/AccountingMain.js:22 | one more entry adds its amount to income when positive and nothing otherwise |
| `Summary.ExpensesSnoc` | components/AccountingMain.js:23 | one more entry adds its magnitude to expenses when negative and nothing otherwise |
| `Summary.TotalsSnoc` | components/AccountingMain.js:22-24 | appending an entry adds a positive amount to income, a negative one to expenses, zero to neither, its amount to net profit and one to the count |
| `Summary.TallyIsTotals` | components/AccountingMain.js:22-24 | the cards equal a one-pass sum of per-entry contributions, an independent definition of the two filters and folds |
| `Summary.TallySnoc` | components/AccountingMain.js:22-24 | the one-pass figures of one more entry add its contribution |
| `Summary.TallyAppend` | components/AccountingMain.js:22-24 | the one-pass figures of two lists laid end to end are the card-by-card sums |
| `Summary.TotalsAppend` | components/AccountingMain.js:22-24 | the cards of two lists laid end to end are the card-by-card sums: they depend on which entries are listed, not where |
| `Summary.TallyCut` | components/AccountingMain.js:22-24 | the one-pass figures of a list split around one entry are the parts' figures plus that entry's contribution |
| `Summary.TallyAfterDelete` | components/AccountingMain.js:22-24 | in one-pass figures, deleting a uniquely carried id takes off exactly its entry's contribution |
| `Summary.TallyAfterEdit` | components/AccountingMain.js:22-24 | in one-pass figures, an edit-mode save of a uniquely carried id trades the old entry's contribution for the new record's |
| `Summary.TotalsAfterDelete` | components/AccountingMain.js:50-52 | deleting an entry whose id no other entry carries takes exactly its contribution off each card |
| `Summary.TotalsAfterEdit` | components/AccountingMain.js:42-43 | saving an edit of an entry whose id no other entry carries trades its contribution on each card for the new record's |
| `Dashboard.SeedTransactions` | components/AccountingMain.js:11-16 | the four seeded entries keep the sign convention |
| `Dashboard.BlankDraft` | components/AccountingMain.js:20 | the blank draft is an Income of amount zero |
| `Dashboard.CoerceAmount` | components/AccountingMain.js:278 | text that does not parse becomes amount 0; a parsed number is kept |
| `Dashboard.AccountingMain.constructor` | components/AccountingMain.js:11-20 | the list starts as the seed, the dialog closed, unbound, with a blank draft |
| `Dashboard.AccountingMain.HandleAdd` | components/AccountingMain.js:26-30 | clears the binding, resets the draft to (Income, "", 0, ""), opens the dialog, leaves the list |
| `Dashboard.AccountingMain.HandleEdit` | components/AccountingMain.js:32-36 | binds the transaction, loads it with the magnitude of its amount, opens the dialog, leaves the list |
| `Dashboard.AccountingMain.HandleSave` | components/AccountingMain.js:38-48 | the list becomes `Saved` of the old list, binding and draft; the dialog closes; the sign convention of the list is preserved |
| `Dashboard.AccountingMain.HandleDelete` | components/AccountingMain.js:50-52 | the list becomes `DeleteById` of the old list; an entry remains iff it was there with another id; nothing else changes; the sign convention is preserved |
| `Dashboard.AccountingMain.Cancel` | components/AccountingMain.js:283 | closes the dialog and changes nothing else |
| `Dashboard.AccountingMain.SetKind` | components/AccountingMain.js:252 | sets the draft's type, nothing else |
| `Dashboard.AccountingMain.SetDescription` | components/AccountingMain.js:263 | sets the draft's description, nothing else |
| `Dashboard.AccountingMain.SetCategory` | components/AccountingMain.js:270 | sets the draft's category, nothing else |
| `Dashboard.AccountingMain.SetAmount` | components/AccountingMain.js:278 | sets the draft's amount to the parsed number, or to 0 when the text does not parse |
| `Scenarios.TallyOfFour` | components/AccountingMain.js:22-24 | the one-pass figures of four entries, entry by entry |
| `Scenarios.SeedTotals` | components/AccountingMain.js:11-24 | the seeded list gives income 1550, expenses 950, net profit 600, count 4 |
| `Scenarios.SeedSession` | components/AccountingMain.js:11-24 | a fresh component shows 1550 / 950 / 600 / 4 |
| `Scenarios.AddExpenseTotals` | components/AccountingMain.js:38-45 | an add-mode save of an Expense "Internet" of 60 on a list showing 1550 / 950 / 600 / 4 appends it as -60 and gives 1550 / 1010 / 540 / 5 |
| `Scenarios.AddExpenseSession` | components/AccountingMain.js:26-48 | adding an Expense "Internet" of 60 leaves the seed followed by one new entry, the -60 record with the clock id and today's date; the cards become 1550 / 1010 / 540 / 5 |
| `Scenarios.RefundEntry` | components/AccountingMain.js:38-43 | an edit-mode save on the seed, bound to entry 1, of an Expense "Refund" of 200 keeps four entries, stores the -200 record under id 1 at position 0 and leaves the other three unchanged |
| `Scenarios.RefundTotals` | components/AccountingMain.js:38-43 | on a list showing 1550 / 950 / 600 / 4, an edit-mode save turning a uniquely identified income of 1200 into an Expense of 200 gives 350 / 1150 / -800 / 4 |
| `Scenarios.UpdateSession` | components/AccountingMain.js:32-48 | editing entry 1 into an Expense "Refund" of 200 leaves four entries: the -200 record under id 1 at position 0 and the other three seeded entries unchanged; the cards become 350 / 1150 / -800 / 4 |
| `Scenarios.RentDeletedTotals` | components/AccountingMain.js:50-52 | deleting id 2 from the seed gives 1550 / 150 / 1400 / 3 |
| `Scenarios.DeleteSession` | components/AccountingMain.js:50-52 | deleting id 2 leaves three entries, none with id 2; the cards become 1550 / 150 / 1400 / 3 |
| `Scenarios.UnparsableAmountSession` | components/AccountingMain.js:278 | unparsable amount text leaves amount 0 with the dialog still open, not an error |
| `Scenarios.EditThenSave` | components/AccountingMain.js:32-48 | Edit then Save of a record keeping the sign convention rewrites every entry with its id to the record dated today, closing the dialog |
| `Scenarios.EditThenCancel` | components/AccountingMain.js:32-36 | Edit then Cancel leaves the list unchanged and the dialog closed |

## Left out

- Rendering: the JSX layout, MUI components, icons, colours and the
  dialog's title (components/AccountingMain.js:54-289) are presentation only.
- `PageContainer` is not part of this model: it is a foreign layout
  component whose source is not available.
- Currency and locale formatting with `toLocaleString` is a library call
  with locale-dependent output.
- The clock: `Date.now()` ids and the ISO date string are parameters of
  `HandleSave`.
- Floating point: amounts are integers, `parseFloat` is a parameter of type
  `Option<int>`, and `Math.abs` is integer absolute value. JavaScript's
  negative zero (an Expense of 0 is stored as -0) is modelled as 0; it
  counts toward neither total either way.
- The `type` field is a free string in the code, but its only writers are
  the seed and a select offering "Income" and "Expense"; the model has just
  those two kinds (any type other than Expense is saved positive).
- React's asynchronous, batched `useState` updates and re-renders: the four
  state cells are fields updated synchronously, and each handler reads the
  state as it was when it was called.
