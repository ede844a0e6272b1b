/** The summary cards of the dashboard, recomputed from the list on every
    render: income is the sum of the positive amounts, expenses the magnitude
    of the sum of the negative ones, the net profit their difference and the
    count the length of the list. */
module Summary {
  import opened Ledger

  datatype Totals = Totals(income: int, expenses: int, netProfit: int, count: int)

  /** `reduce((sum, t) => sum + t.amount, 0)`: a left fold, so the recursion
      peels off the last entry. */
  function SumAmounts(s: seq<Transaction>): int {
    if s == [] then 0 else SumAmounts(s[..|s| - 1]) + s[|s| - 1].amount
  }

  /** `filter(t => t.amount > 0)`. */
  function Positive(s: seq<Transaction>): (r: seq<Transaction>)
    ensures |r| <= |s|
    ensures forall i :: 0 <= i < |r| ==> r[i].amount > 0
  {
    if s == [] then []
    else
      var last := s[|s| - 1];
      Positive(s[..|s| - 1]) + (if last.amount > 0 then [last] else [])
  }

  /** `filter(t => t.amount < 0)`. */
  function Negative(s: seq<Transaction>): (r: seq<Transaction>)
    ensures |r| <= |s|
    ensures forall i :: 0 <= i < |r| ==> r[i].amount < 0
  {
    if s == [] then []
    else
      var last := s[|s| - 1];
      Negative(s[..|s| - 1]) + (if last.amount < 0 then [last] else [])
  }

  /** The income filter keeps exactly the entries with a positive amount. */
  lemma {:induction false} PositiveMembers(s: seq<Transaction>)
    ensures forall t :: t in Positive(s) <==> t in s && t.amount > 0
  {
    if s != [] {
      var init, last := s[..|s| - 1], s[|s| - 1];
      PositiveMembers(init);
      assert s == init + [last];
    }
  }

  /** The expense filter keeps exactly the entries with a negative amount. */
  lemma {:induction false} NegativeMembers(s: seq<Transaction>)
    ensures forall t :: t in Negative(s) <==> t in s && t.amount < 0
  {
    if s != [] {
      var init, last := s[..|s| - 1], s[|s| - 1];
      NegativeMembers(init);
      assert s == init + [last];
    }
  }

  /** The fold over one more entry adds that entry's amount. */
  lemma SumSnoc(s: seq<Transaction>, t: Transaction)
    ensures SumAmounts(s + [t]) == SumAmounts(s) + t.amount
  {
    assert (s + [t])[..|s|] == s;
  }

  /** A sum of amounts none of which is negative is not negative. */
  lemma {:induction false} SumNonNegative(s: seq<Transaction>)
    requires forall i :: 0 <= i < |s| ==> s[i].amount >= 0
    ensures SumAmounts(s) >= 0
  {
    if s != [] {
      SumNonNegative(s[..|s| - 1]);
    }
  }

  /** A sum of amounts none of which is positive is not positive. */
  lemma {:induction false} SumNonPositive(s: seq<Transaction>)
    requires forall i :: 0 <= i < |s| ==> s[i].amount <= 0
    ensures SumAmounts(s) <= 0
  {
    if s != [] {
      SumNonPositive(s[..|s| - 1]);
    }
  }

  /** The positive and the negative entries together sum to the whole list:
      entries of amount zero contribute to neither and change no sum. */
  lemma {:induction false} SplitSum(s: seq<Transaction>)
    ensures SumAmounts(Positive(s)) + SumAmounts(Negative(s)) == SumAmounts(s)
  {
    if s != [] {
      var init, last := s[..|s| - 1], s[|s| - 1];
      SplitSum(init);
      if last.amount > 0 { SumSnoc(Positive(init), last); }
      if last.amount < 0 { SumSnoc(Negative(init), last); }
      assert Positive(init) + [] == Positive(init);
      assert Negative(init) + [] == Negative(init);
    }
  }

  /** `totalIncome`: the sum of the positive amounts, never negative. */
  function TotalIncome(s: seq<Transaction>): (r: int)
    ensures r >= 0
  {
    SumNonNegative(Positive(s));
    SumAmounts(Positive(s))
  }

  /** `totalExpenses`: the magnitude of the sum of the negative amounts;
      that sum is never positive, so the magnitude is its negation. */
  function TotalExpenses(s: seq<Transaction>): (r: int)
    ensures r >= 0 && r == -SumAmounts(Negative(s))
  {
    SumNonPositive(Negative(s));
    Abs(SumAmounts(Negative(s)))
  }

  /** The four figures of the summary cards. Neither total is negative, the
      net profit is income minus expenses and equals the sum of all amounts. */
  function TotalsOf(s: seq<Transaction>): (r: Totals)
    ensures r.income >= 0 && r.expenses >= 0
    ensures r.netProfit == r.income - r.expenses
    ensures r.netProfit == SumAmounts(s)
    ensures r.count == |s|
  {
    SumNonNegative(Positive(s));
    SumNonPositive(Negative(s));
    SplitSum(s);
    var income := TotalIncome(s);
    var expenses := TotalExpenses(s);
    Totals(income, expenses, income - expenses, |s|)
  }

  /** The empty list shows zero on every card. */
  lemma TotalsEmpty()
    ensures TotalsOf([]) == Totals(0, 0, 0, 0)
  {
  }

  /** What one entry adds to the cards: its amount to income when positive,
      its magnitude to expenses when negative, its amount to the net profit,
      and one to the count. */
  function Contribution(t: Transaction): Totals {
    Totals(if t.amount > 0 then t.amount else 0, if t.amount < 0 then -t.amount else 0, t.amount, 1)
  }

  /** Card-by-card sum of two sets of figures. */
  function Plus(x: Totals, y: Totals): Totals {
    Totals(x.income + y.income, x.expenses + y.expenses, x.netProfit + y.netProfit, x.count + y.count)
  }

  /** One more entry adds its positive part to the income card. */
  lemma IncomeSnoc(s: seq<Transaction>, t: Transaction)
    ensures TotalIncome(s + [t]) == TotalIncome(s) + Contribution(t).income
  {
    assert (s + [t])[..|s|] == s;
    assert Positive(s) + [] == Positive(s);
    if t.amount > 0 { SumSnoc(Positive(s), t); }
  }

  /** One more entry adds the magnitude of its negative part to the expenses card. */
  lemma ExpensesSnoc(s: seq<Transaction>, t: Transaction)
    ensures TotalExpenses(s + [t]) == TotalExpenses(s) + Contribution(t).expenses
  {
    assert (s + [t])[..|s|] == s;
    assert Negative(s) + [] == Negative(s);
    SumNonPositive(Negative(s));
    if t.amount < 0 {
      SumSnoc(Negative(s), t);
      SumNonPositive(Negative(s) + [t]);
    }
  }

  /** Appending one entry moves the totals by that entry alone: a positive
      amount adds to income, a negative one to expenses, zero to neither. */
  lemma TotalsSnoc(s: seq<Transaction>, t: Transaction)
    ensures TotalsOf(s + [t]) == Plus(TotalsOf(s), Contribution(t))
  {
    IncomeSnoc(s, t);
    ExpensesSnoc(s, t);
  }

  /** The same four figures computed in one pass, entry by entry: the sum of
      the contributions of the entries. */
  function Tally(s: seq<Transaction>): Totals {
    if s == [] then Totals(0, 0, 0, 0) else Plus(Tally(s[..|s| - 1]), Contribution(s[|s| - 1]))
  }

  /** The one-pass figures are the figures of the two filters and folds. */
  lemma {:induction false} TallyIsTotals(s: seq<Transaction>)
    ensures Tally(s) == TotalsOf(s)
  {
    if s == [] {
      TotalsEmpty();
    } else {
      var init, last := s[..|s| - 1], s[|s| - 1];
      TallyIsTotals(init);
      assert s == init + [last];
      TotalsSnoc(init, last);
    }
  }

  /** The one-pass figures of one more entry add its contribution. */
  lemma TallySnoc(s: seq<Transaction>, t: Transaction)
    ensures Tally(s + [t]) == Plus(Tally(s), Contribution(t))
  {
    assert (s + [t])[..|s|] == s;
  }

  /** The one-pass figures of two lists laid end to end are the sums of their figures. */
  lemma {:induction false} TallyAppend(a: seq<Transaction>, b: seq<Transaction>)
    ensures Tally(a + b) == Plus(Tally(a), Tally(b))
  {
    if b == [] {
      assert a + b == a;
    } else {
      var b', u := b[..|b| - 1], b[|b| - 1];
      calc {
        Tally(a + b);
      == { assert a + b == (a + b') + [u]; }
        Tally((a + b') + [u]);
      == { TallySnoc(a + b', u); }
        Plus(Tally(a + b'), Contribution(u));
      == { TallyAppend(a, b'); }
        Plus(Plus(Tally(a), Tally(b')), Contribution(u));
      }
    }
  }

  /** The figures of two lists laid end to end are the sums of their figures:
      the cards depend on which entries are listed, not on where. */
  lemma TotalsAppend(a: seq<Transaction>, b: seq<Transaction>)
    ensures TotalsOf(a + b) == Plus(TotalsOf(a), TotalsOf(b))
  {
    TallyAppend(a, b);
    TallyIsTotals(a);
    TallyIsTotals(b);
    TallyIsTotals(a + b);
  }

  /** The one-pass figures of a list split around one entry. */
  lemma TallyCut(pre: seq<Transaction>, t: Transaction, post: seq<Transaction>)
    ensures Tally(pre + [t] + post) == Plus(Plus(Tally(pre), Contribution(t)), Tally(post))
  {
    TallyAppend(pre + [t], post);
    TallySnoc(pre, t);
  }

  /** In one-pass figures: deleting a uniquely carried id removes its entry's contribution. */
  lemma TallyAfterDelete(s: seq<Transaction>, k: nat)
    requires k < |s| && UniqueAt(s, k)
    ensures Plus(Tally(DeleteById(s, s[k].id)), Contribution(s[k])) == Tally(s)
  {
    var pre, t, post := s[..k], s[k], s[k + 1..];
    calc {
      Plus(Tally(DeleteById(s, t.id)), Contribution(t));
    == { DeleteUnique(s, k); }
      Plus(Tally(pre + post), Contribution(t));
    == { TallyAppend(pre, post); }
      Plus(Plus(Tally(pre), Contribution(t)), Tally(post));
    == { TallyCut(pre, t, post); }
      Tally(pre + [t] + post);
    == { assert s == pre + [t] + post; }
      Tally(s);
    }
  }

  /** In one-pass figures: replacing a uniquely carried id trades one contribution for another. */
  lemma TallyAfterEdit(s: seq<Transaction>, k: nat, nt: Transaction)
    requires k < |s| && UniqueAt(s, k)
    ensures Plus(Tally(ReplaceById(s, s[k].id, nt)), Contribution(s[k])) == Plus(Tally(s), Contribution(nt))
  {
    var pre, t, post := s[..k], s[k], s[k + 1..];
    calc {
      Plus(Tally(ReplaceById(s, t.id, nt)), Contribution(t));
    == { ReplaceUnique(s, k, nt); }
      Plus(Tally(pre + [nt] + post), Contribution(t));
    == { TallyCut(pre, nt, post); }
      Plus(Plus(Plus(Tally(pre), Contribution(t)), Tally(post)), Contribution(nt));
    == { TallyCut(pre, t, post); }
      Plus(Tally(pre + [t] + post), Contribution(nt));
    == { assert s == pre + [t] + post; }
      Plus(Tally(s), Contribution(nt));
    }
  }

  /** Deleting an entry whose id no other entry carries takes exactly its
      contribution off the cards: adding it back gives the old figures. */
  lemma TotalsAfterDelete(s: seq<Transaction>, k: nat)
    requires k < |s| && UniqueAt(s, k)
    ensures Plus(TotalsOf(DeleteById(s, s[k].id)), Contribution(s[k])) == TotalsOf(s)
  {
    TallyAfterDelete(s, k);
    TallyIsTotals(s);
    TallyIsTotals(DeleteById(s, s[k].id));
  }

  /** Saving an edit of an entry whose id no other entry carries trades its
      contribution for that of the new record. */
  lemma TotalsAfterEdit(s: seq<Transaction>, k: nat, nt: Transaction)
    requires k < |s| && UniqueAt(s, k)
    ensures Plus(TotalsOf(ReplaceById(s, s[k].id, nt)), Contribution(s[k]))
         == Plus(TotalsOf(s), Contribution(nt))
  {
    TallyAfterEdit(s, k, nt);
    TallyIsTotals(s);
    TallyIsTotals(ReplaceById(s, s[k].id, nt));
  }
}
