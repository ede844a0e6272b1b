/** The component's four state cells and the handlers that update them. Each
    handler assigns the result of a pure transform from `Ledger`; the totals
    are derived from `transactions` by `Summary.TotalsOf`. */
module Dashboard {
  import opened Wrappers
  import opened Ledger

  /** The four transactions the list starts with. */
  function SeedTransactions(): (s: seq<Transaction>)
    ensures |s| == 4 && AllSigned(s)
  {
    [ Transaction(1, Income, "Product Sale", 1200, "2024-01-15", "Revenue"),
      Transaction(2, Expense, "Office Rent", -800, "2024-01-14", "Operating"),
      Transaction(3, Income, "Service Fee", 350, "2024-01-13", "Revenue"),
      Transaction(4, Expense, "Utilities", -150, "2024-01-12", "Operating") ]
  }

  /** The form data of a new entry. */
  function BlankDraft(): (d: Draft)
    ensures d.kind == Income && d.amount == 0
  {
    Draft(Income, "", 0, "")
  }

  /** `parseFloat(text) || 0`: input that does not parse is taken as zero,
      never rejected. */
  function CoerceAmount(parsed: Option<int>): (a: int)
    ensures parsed.None? ==> a == 0
    ensures parsed.Some? ==> a == parsed.value
  {
    match parsed
    case None => 0
    case Some(v) => v
  }

  class AccountingMain {
    var transactions: seq<Transaction>
    var open: bool
    var editTransaction: Option<Transaction>
    var formData: Draft

    /** Every stored transaction keeps the sign convention. */
    ghost predicate Valid()
      reads this
    {
      AllSigned(transactions)
    }

    constructor ()
      ensures Valid()
      ensures transactions == SeedTransactions()
      ensures !open && editTransaction == None && formData == BlankDraft()
    {
      transactions := SeedTransactions();
      open := false;
      editTransaction := None;
      formData := BlankDraft();
    }

    /** Opens the editor unbound, on a blank draft. */
    method HandleAdd()
      modifies this`editTransaction, this`formData, this`open
      ensures editTransaction == None && formData == BlankDraft() && open
    {
      editTransaction := None;
      formData := BlankDraft();
      open := true;
    }

    /** Opens the editor bound to `t`, its amount loaded as a magnitude. */
    method HandleEdit(t: Transaction)
      modifies this`editTransaction, this`formData, this`open
      ensures editTransaction == Some(t) && open
      ensures formData == DraftOf(t) && formData.amount == Abs(t.amount)
    {
      editTransaction := Some(t);
      formData := DraftOf(t);
      open := true;
    }

    /** Saves the draft with the sign its type demands, dated `today`: bound,
        it replaces every entry carrying the bound id; unbound, it appends an
        entry with id `now`. Either way the editor closes; binding and draft
        stay as they were. */
    method HandleSave(now: int, today: string)
      modifies this`transactions, this`open
      ensures transactions == Saved(old(transactions), editTransaction, formData, now, today)
      ensures !open
      ensures old(Valid()) ==> Valid()
      ensures editTransaction.None? ==>
        |transactions| == |old(transactions)| + 1 &&
        transactions[..|old(transactions)|] == old(transactions) &&
        transactions[|old(transactions)|].id == now &&
        transactions[|old(transactions)|].date == today &&
        SignOk(transactions[|old(transactions)|])
      ensures editTransaction.Some? ==> |transactions| == |old(transactions)|
    {
      transactions := Saved(transactions, editTransaction, formData, now, today);
      open := false;
    }

    /** Removes every entry carrying `id`; the rest keep their values and order. */
    method HandleDelete(id: int)
      modifies this`transactions
      ensures transactions == DeleteById(old(transactions), id)
      ensures forall t :: t in transactions <==> t in old(transactions) && t.id != id
      ensures old(Valid()) ==> Valid()
    {
      DeleteMembers(transactions, id);
      transactions := DeleteById(transactions, id);
    }

    /** Cancel, and a dismissal of the dialog: the editor closes and nothing
        else changes, the draft and the binding included. */
    method Cancel()
      modifies this`open
      ensures !open
    {
      open := false;
    }

    method SetKind(k: Kind)
      modifies this`formData
      ensures formData == old(formData).(kind := k)
    {
      formData := formData.(kind := k);
    }

    method SetDescription(text: string)
      modifies this`formData
      ensures formData == old(formData).(description := text)
    {
      formData := formData.(description := text);
    }

    method SetCategory(text: string)
      modifies this`formData
      ensures formData == old(formData).(category := text)
    {
      formData := formData.(category := text);
    }

    /** The amount field: `parsed` is the outcome of parsing the typed text;
        text that does not parse sets the amount to zero. */
    method SetAmount(parsed: Option<int>)
      modifies this`formData
      ensures formData == old(formData).(amount := CoerceAmount(parsed))
      ensures parsed.None? ==> formData.amount == 0
    {
      formData := formData.(amount := CoerceAmount(parsed));
    }
  }
}
