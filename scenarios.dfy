/** Sessions on the dashboard, driven through the component's handlers as a
    user would drive them, with what each leaves on the summary cards. */
module Scenarios {
  import opened Wrappers
  import opened Ledger
  import opened Summary
  import opened Dashboard

  /** The one-pass figures of a list of four, entry by entry. */
  lemma TallyOfFour(s: seq<Transaction>)
    requires |s| == 4
    ensures Tally(s) == Plus(Plus(Plus(Plus(Totals(0, 0, 0, 0), Contribution(s[0])),
                                       Contribution(s[1])), Contribution(s[2])), Contribution(s[3]))
  {
    assert s[..0] == [];
    assert s[..1] == s[..0] + [s[0]];
    TallySnoc(s[..0], s[0]);
    assert s[..2] == s[..1] + [s[1]];
    TallySnoc(s[..1], s[1]);
    assert s[..3] == s[..2] + [s[2]];
    TallySnoc(s[..2], s[2]);
    assert s == s[..3] + [s[3]];
    TallySnoc(s[..3], s[3]);
  }

  /** The totals of the four seeded transactions. */
  lemma SeedTotals()
    ensures TotalsOf(SeedTransactions()) == Totals(1550, 950, 600, 4)
  {
    var s := SeedTransactions();
    TallyOfFour(s);
    TallyIsTotals(s);
  }

  /** The cards before any interaction. */
  method SeedSession() returns (t: Totals)
    ensures t == Totals(1550, 950, 600, 4)
  {
    var m := new AccountingMain();
    SeedTotals();
    t := TotalsOf(m.transactions);
  }

  /** Saving the Internet expense in add mode on a list showing the seeded cards. */
  lemma AddExpenseTotals(s: seq<Transaction>, now: int, today: string)
    requires TotalsOf(s) == Totals(1550, 950, 600, 4)
    ensures var r := Saved(s, None, Draft(Expense, "Internet", 60, "Operating"), now, today);
      r == s + [Transaction(now, Expense, "Internet", -60, today, "Operating")] &&
      TotalsOf(r) == Totals(1550, 1010, 540, 5)
  {
    var e := Transaction(now, Expense, "Internet", -60, today, "Operating");
    assert Commit(Draft(Expense, "Internet", 60, "Operating"), now, today) == e;
    TotalsSnoc(s, e);
  }

  /** Adding an expense of 60 stores it as -60 at the end of the list, and
      the net profit drops by 60. */
  method AddExpenseSession(now: int, today: string) returns (r: seq<Transaction>, entry: Transaction, t: Totals)
    ensures r == SeedTransactions() + [entry]
    ensures entry == Transaction(now, Expense, "Internet", -60, today, "Operating")
    ensures t == Totals(1550, 1010, 540, 5)
  {
    var m := new AccountingMain();
    var s := m.transactions;
    m.HandleAdd();
    m.SetKind(Expense);
    m.SetDescription("Internet");
    m.SetCategory("Operating");
    m.SetAmount(Some(60));
    assert m.formData == Draft(Expense, "Internet", 60, "Operating") && m.editTransaction == None;
    m.HandleSave(now, today);
    r := m.transactions;
    assert r == Saved(s, None, Draft(Expense, "Internet", 60, "Operating"), now, today);
    SeedTotals();
    AddExpenseTotals(s, now, today);
    entry := r[|s|];
    t := TotalsOf(r);
  }

  /** Saving, in edit mode bound to the first seeded transaction, a draft
      that turns it into an expense of 200 rewrites that entry in place. */
  lemma RefundEntry(s: seq<Transaction>, now: int, today: string)
    requires s == SeedTransactions()
    ensures var r := Saved(s, Some(s[0]), Draft(Expense, "Refund", 200, "Revenue"), now, today);
      |r| == 4 && r[0] == Transaction(1, Expense, "Refund", -200, today, "Revenue") &&
      r[1..] == s[1..]
  {
    var nt := Commit(Draft(Expense, "Refund", 200, "Revenue"), 1, today);
    assert nt == Transaction(1, Expense, "Refund", -200, today, "Revenue");
    assert UniqueAt(s, 0);
    ReplaceUnique(s, 0, nt);
  }

  /** On a list showing the seeded cards, an edit-mode save that turns an
      income of 1200, carried by no other entry's id, into an expense of 200:
      the 1200 leaves income and 200 joins expenses. */
  lemma RefundTotals(s: seq<Transaction>, k: nat, now: int, today: string)
    requires TotalsOf(s) == Totals(1550, 950, 600, 4)
    requires k < |s| && s[k].amount == 1200 && UniqueAt(s, k)
    ensures TotalsOf(Saved(s, Some(s[k]), Draft(Expense, "Refund", 200, "Revenue"), now, today))
         == Totals(350, 1150, -800, 4)
  {
    var nt := Commit(Draft(Expense, "Refund", 200, "Revenue"), s[k].id, today);
    assert nt.amount == -200;
    TotalsAfterEdit(s, k, nt);
  }

  /** Editing transaction 1 into an expense of 200 keeps its id and position;
      its 1200 leaves income and 200 joins expenses. */
  method UpdateSession(now: int, today: string) returns (r: seq<Transaction>, entry: Transaction, t: Totals)
    ensures |r| == 4 && r[0] == entry && r[1..] == SeedTransactions()[1..]
    ensures entry == Transaction(1, Expense, "Refund", -200, today, "Revenue")
    ensures t == Totals(350, 1150, -800, 4)
  {
    var m := new AccountingMain();
    var s := m.transactions;
    m.HandleEdit(s[0]);
    m.SetKind(Expense);
    m.SetAmount(Some(200));
    m.SetDescription("Refund");
    m.SetCategory("Revenue");
    assert m.formData == Draft(Expense, "Refund", 200, "Revenue") && m.editTransaction == Some(s[0]);
    m.HandleSave(now, today);
    r := m.transactions;
    assert r == Saved(s, Some(s[0]), Draft(Expense, "Refund", 200, "Revenue"), now, today);
    RefundEntry(s, now, today);
    SeedTotals();
    assert UniqueAt(s, 0);
    RefundTotals(s, 0, now, today);
    entry := r[0];
    t := TotalsOf(r);
  }

  /** Deleting id 2 from the seeded list. */
  lemma RentDeletedTotals(s: seq<Transaction>)
    requires s == SeedTransactions()
    ensures TotalsOf(DeleteById(s, 2)) == Totals(1550, 150, 1400, 3)
  {
    assert UniqueAt(s, 1);
    TotalsAfterDelete(s, 1);
    SeedTotals();
  }

  /** Deleting transaction 2 removes the office rent and nothing else; its
      800 leaves expenses. */
  method DeleteSession() returns (rest: seq<Transaction>, t: Totals)
    ensures |rest| == 3 && forall e :: e in rest ==> e.id != 2
    ensures t == Totals(1550, 150, 1400, 3)
  {
    var m := new AccountingMain();
    var s := m.transactions;
    m.HandleDelete(2);
    rest := m.transactions;
    RentDeletedTotals(s);
    t := TotalsOf(rest);
  }

  /** Text in the amount field that does not parse leaves a zero amount. */
  method UnparsableAmountSession() returns (amount: int, editorOpen: bool)
    ensures amount == 0 && editorOpen
  {
    var m := new AccountingMain();
    m.HandleAdd();
    m.SetAmount(None);
    amount, editorOpen := m.formData.amount, m.open;
  }

  /** Edit immediately followed by Save, with no field changed: every entry
      carrying the edited id becomes the edited transaction, dated today;
      every other entry is untouched. */
  method EditThenSave(m: AccountingMain, t: Transaction, now: int, today: string)
    requires SignOk(t)
    modifies m
    ensures m.transactions == ReplaceById(old(m.transactions), t.id, t.(date := today))
    ensures !m.open && m.editTransaction == Some(t)
  {
    m.HandleEdit(t);
    m.HandleSave(now, today);
    EditSaveRoundTrip(t, today);
  }

  /** Cancelling an edit leaves the list as it was. */
  method EditThenCancel(m: AccountingMain, t: Transaction)
    modifies m
    ensures m.transactions == old(m.transactions) && !m.open
  {
    m.HandleEdit(t);
    m.Cancel();
  }
}
