/** The transaction records of the accounting dashboard and the pure list
    transforms its handlers hand to the state setter: the sign rule applied on
    save, the replace-by-id `map`, the append and the delete-by-id `filter`. */
module Ledger {
  import opened Wrappers

  /** The two values of the `type` select of the editor. */
  datatype Kind = Income | Expense

  datatype Transaction = Transaction(
    id: int,
    kind: Kind,
    description: string,
    amount: int,
    date: string,
    category: string)

  /** The editor's form data. The amount is the magnitude typed by the user
      (it may still carry a sign: the sign rule discards it on save). The id
      and date an edited transaction spreads into the form are always
      overwritten on save, so they are not part of the draft. */
  datatype Draft = Draft(kind: Kind, description: string, amount: int, category: string)

  /** `Math.abs` on integer amounts. */
  function Abs(x: int): (r: nat)
    ensures r == x || r == -x
  {
    if x < 0 then -x else x
  }

  /** The sign convention of the data model: income is never negative,
      an expense never positive. */
  predicate SignOk(t: Transaction) {
    (t.kind == Income ==> t.amount >= 0) && (t.kind == Expense ==> t.amount <= 0)
  }

  predicate AllSigned(s: seq<Transaction>) {
    forall i :: 0 <= i < |s| ==> SignOk(s[i])
  }

  /** The amount a draft is saved with: the magnitude, negated for an expense. */
  function Signed(kind: Kind, a: int): (r: int)
    ensures Abs(r) == Abs(a)
    ensures kind == Expense ==> r <= 0
    ensures kind == Income ==> r >= 0
  {
    var m: int := Abs(a);
    if kind == Expense then -m else m
  }

  /** The record a save produces from a draft, an id and today's date. */
  function Commit(d: Draft, id: int, date: string): (r: Transaction)
    ensures r.id == id && r.date == date
    ensures r.kind == d.kind && r.description == d.description && r.category == d.category
    ensures Abs(r.amount) == Abs(d.amount)
    ensures SignOk(r)
  {
    Transaction(id, d.kind, d.description, Signed(d.kind, d.amount), date, d.category)
  }

  /** The form data loaded by Edit: the transaction's fields, amount as magnitude. */
  function DraftOf(t: Transaction): (d: Draft)
    ensures d.kind == t.kind && d.description == t.description && d.category == t.category
    ensures d.amount >= 0 && Abs(d.amount) == Abs(t.amount)
  {
    Draft(t.kind, t.description, Abs(t.amount), t.category)
  }

  /** The `map` of an edit-mode save: every entry whose id matches becomes
      `nt`, every other entry is kept, length and order are unchanged. */
  function ReplaceById(s: seq<Transaction>, id: int, nt: Transaction): (r: seq<Transaction>)
    ensures |r| == |s|
    ensures forall i :: 0 <= i < |s| ==> r[i] == if s[i].id == id then nt else s[i]
  {
    if s == [] then []
    else
      var last := s[|s| - 1];
      ReplaceById(s[..|s| - 1], id, nt) + [if last.id == id then nt else last]
  }

  /** The `filter` of a delete: no entry left carries `id`, the list never
      grows, and the sign convention survives. */
  function DeleteById(s: seq<Transaction>, id: int): (r: seq<Transaction>)
    ensures |r| <= |s|
    ensures forall i :: 0 <= i < |r| ==> r[i].id != id
    ensures AllSigned(s) ==> AllSigned(r)
  {
    if s == [] then []
    else
      var last := s[|s| - 1];
      DeleteById(s[..|s| - 1], id) + (if last.id != id then [last] else [])
  }

  /** The new list a save hands to the state setter. Unbound (add mode) it
      appends a record with the fresh id `now`; bound to a transaction (edit
      mode) it replaces every entry carrying that transaction's id. */
  function Saved(s: seq<Transaction>, editing: Option<Transaction>, d: Draft, now: int, date: string)
    : (r: seq<Transaction>)
    ensures editing.None? ==>
      |r| == |s| + 1 && r[..|s|] == s && r[|s|] == Commit(d, now, date)
    ensures editing.Some? ==>
      |r| == |s| &&
      forall i :: 0 <= i < |s| ==>
        r[i] == if s[i].id == editing.value.id then Commit(d, editing.value.id, date) else s[i]
    ensures AllSigned(s) ==> AllSigned(r)
  {
    match editing
    case None => s + [Commit(d, now, date)]
    case Some(e) => ReplaceById(s, e.id, Commit(d, e.id, date))
  }

  /** Deleting keeps exactly the entries whose id differs. */
  lemma {:induction false} DeleteMembers(s: seq<Transaction>, id: int)
    ensures forall t :: t in DeleteById(s, id) <==> t in s && t.id != id
  {
    if s != [] {
      var init, last := s[..|s| - 1], s[|s| - 1];
      DeleteMembers(init, id);
      assert s == init + [last];
    }
  }

  /** Deleting works entry by entry: it distributes over concatenation, so the
      entries that survive keep their relative order. */
  lemma {:induction false} DeleteConcat(a: seq<Transaction>, b: seq<Transaction>, id: int)
    ensures DeleteById(a + b, id) == DeleteById(a, id) + DeleteById(b, id)
  {
    if b == [] {
      assert a + b == a;
    } else {
      var b' := b[..|b| - 1];
      assert (a + b)[..|a + b| - 1] == a + b';
      DeleteConcat(a, b', id);
    }
  }

  /** Deleting an id no entry carries is a no-op. */
  lemma {:induction false} DeleteAbsent(s: seq<Transaction>, id: int)
    requires forall t :: t in s ==> t.id != id
    ensures DeleteById(s, id) == s
  {
    if s != [] {
      DeleteAbsent(s[..|s| - 1], id);
      assert s[..|s| - 1] + [s[|s| - 1]] == s;
    }
  }

  /** A second delete of the same id changes nothing. */
  lemma DeleteIdempotent(s: seq<Transaction>, id: int)
    ensures DeleteById(DeleteById(s, id), id) == DeleteById(s, id)
  {
    DeleteAbsent(DeleteById(s, id), id);
  }

  /** The id of entry `k` is carried by no other entry. */
  predicate UniqueAt(s: seq<Transaction>, k: nat)
    requires k < |s|
  {
    forall i :: 0 <= i < |s| && s[i].id == s[k].id ==> i == k
  }

  /** Deleting the id of a single entry that carries it leaves nothing. */
  lemma DeleteHit(t: Transaction)
    ensures DeleteById([t], t.id) == []
  {
    assert [t][..0] == [];
  }

  /** Deleting an id carried only by the entry between `pre` and `post`
      joins `pre` and `post`. */
  lemma DeleteCut(pre: seq<Transaction>, t: Transaction, post: seq<Transaction>)
    requires forall u :: u in pre ==> u.id != t.id
    requires forall u :: u in post ==> u.id != t.id
    ensures DeleteById(pre + [t] + post, t.id) == pre + post
  {
    calc {
      DeleteById(pre + [t] + post, t.id);
    == { DeleteConcat(pre + [t], post, t.id); }
      DeleteById(pre + [t], t.id) + DeleteById(post, t.id);
    == { DeleteConcat(pre, [t], t.id); DeleteHit(t); DeleteAbsent(pre, t.id); assert pre + [] == pre; }
      pre + DeleteById(post, t.id);
    == { DeleteAbsent(post, t.id); }
      pre + post;
    }
  }

  /** Deleting an id that exactly one entry carries cuts out that entry and
      nothing else. */
  lemma DeleteUnique(s: seq<Transaction>, k: nat)
    requires k < |s| && UniqueAt(s, k)
    ensures DeleteById(s, s[k].id) == s[..k] + s[k + 1..]
  {
    var pre, post := s[..k], s[k + 1..];
    assert forall u :: u in pre ==> u.id != s[k].id;
    assert forall u :: u in post ==> u.id != s[k].id;
    assert s == pre + [s[k]] + post;
    DeleteCut(pre, s[k], post);
  }

  /** Replacing an id that exactly one entry carries swaps that entry for
      `nt` in place and keeps the rest. */
  lemma ReplaceUnique(s: seq<Transaction>, k: nat, nt: Transaction)
    requires k < |s| && UniqueAt(s, k)
    ensures ReplaceById(s, s[k].id, nt) == s[..k] + [nt] + s[k + 1..]
  {
    var r, r' := ReplaceById(s, s[k].id, nt), s[..k] + [nt] + s[k + 1..];
    assert forall i :: 0 <= i < |s| ==> r[i] == r'[i];
  }

  /** Editing a record that keeps the sign convention and saving it with no
      change gives back the record itself, dated today. */
  lemma EditSaveRoundTrip(t: Transaction, date: string)
    requires SignOk(t)
    ensures Commit(DraftOf(t), t.id, date) == t.(date := date)
  {
  }

  /** Edit and Save, with no field changed, of an entry that keeps the sign
      convention, that no other entry shares its id with and that was already
      dated `date`, leave the list exactly as it was. */
  lemma {:induction false} EditSaveUnchanged(s: seq<Transaction>, k: nat, now: int, date: string)
    requires k < |s| && SignOk(s[k]) && s[k].date == date && UniqueAt(s, k)
    ensures Saved(s, Some(s[k]), DraftOf(s[k]), now, date) == s
  {
    var r := Saved(s, Some(s[k]), DraftOf(s[k]), now, date);
    EditSaveRoundTrip(s[k], date);
    assert s[k].(date := date) == s[k];
    assert forall i :: 0 <= i < |s| ==> r[i] == s[i];
  }
}
