/** The split-bill form (src/App.js:173-206): a draft of the bill, the user's expense and who
    pays, the friend's expense derived from them, and the signed delta a submit hands to the
    app. A fresh draft is made for every selected friend. */
module SplitBillForm {
  import opened Wrappers
  import opened Friends
  import opened Store

  /** A numeric field: None is the empty text "" the field starts with; Some(n) is the number
      an edit produced. */
  type Field = Option<int>

  /** The numeric value JavaScript gives a field in arithmetic and comparisons: "" reads as 0. */
  function Num(f: Field): int {
    f.GetOr(0)
  }

  /** JavaScript truthiness of a field: "" and 0 are falsy. */
  predicate Truthy(f: Field) {
    f.Some? && f.value != 0
  }

  /** Who paid the bill: the select's "user" and "friend" options. */
  datatype Payer = UserPays | FriendPays

  /** The form's own state. */
  datatype SplitDraft = SplitDraft(bill: Field, paidByUser: Field, payer: Payer)

  /** The draft of a freshly shown form. */
  const FreshDraft: SplitDraft := SplitDraft(None, None, UserPays)

  /** The user's expense does not exceed the bill. */
  predicate ClampHolds(d: SplitDraft) {
    Num(d.paidByUser) <= Num(d.bill)
  }

  /** The smaller of two amounts: the value the clamp keeps. */
  function Min(a: int, b: int): int {
    if a <= b then a else b
  }

  /** The value the user's-expense field keeps when `entered` is typed: an amount above the bill
      is replaced by the bill field itself (so against an empty bill a positive amount leaves
      the field empty). */
  function Clamp(entered: int, bill: Field): (r: Field)
    ensures Num(r) == Min(entered, Num(bill))
    ensures entered <= Num(bill) ==> r == Some(entered)
    ensures entered > Num(bill) ==> r == bill
  {
    if entered > Num(bill) then bill else Some(entered)
  }

  /** Typing into the user's-expense field. */
  function EditExpense(d: SplitDraft, entered: int): (r: SplitDraft)
    ensures r.paidByUser == Clamp(entered, d.bill)
    ensures ClampHolds(r)
    ensures r.bill == d.bill && r.payer == d.payer
  {
    d.(paidByUser := Clamp(entered, d.bill))
  }

  /** Typing into the bill field, as the form does it: the user's expense is left as it was,
      even when it now exceeds the new bill. */
  function EditBillAsWritten(d: SplitDraft, n: int): (r: SplitDraft)
    ensures r.bill == Some(n) && r.paidByUser == d.paidByUser && r.payer == d.payer
  {
    d.(bill := Some(n))
  }

  /** Typing into the bill field with the expense clamp applied again, so that the user's
      expense stays within the bill whatever order the fields are typed in. */
  function EditBill(d: SplitDraft, n: int): (r: SplitDraft)
    ensures ClampHolds(r)
    ensures r.bill == Some(n) && r.payer == d.payer
    ensures Num(d.paidByUser) <= n ==> r.paidByUser == d.paidByUser
    ensures Num(r.paidByUser) == Min(Num(d.paidByUser), n)
  {
    d.(bill := Some(n), paidByUser := if Num(d.paidByUser) > n then Some(n) else d.paidByUser)
  }

  /** Choosing who paid. */
  function ChoosePayer(d: SplitDraft, p: Payer): (r: SplitDraft)
    ensures r.payer == p && r.bill == d.bill && r.paidByUser == d.paidByUser
  {
    d.(payer := p)
  }

  /** The disabled friend's-expense field: the rest of the bill once a bill is entered, empty
      before. */
  function PaidByFriend(d: SplitDraft): (r: Field)
    ensures r.Some? <==> Truthy(d.bill)
    ensures r.Some? ==> Num(d.paidByUser) + r.value == Num(d.bill)
    ensures r.Some? && ClampHolds(d) ==> r.value >= 0
  {
    if Truthy(d.bill) then Some(Num(d.bill) - Num(d.paidByUser)) else None
  }

  /** The change to the selected friend's balance a submit issues, or None when the bill or the
      user's expense is empty or zero. When the user paid, the friend owes their share; when the
      friend paid, the user owes the user's share. */
  function Delta(d: SplitDraft): (r: Option<int>)
    ensures r.Some? <==> Truthy(d.bill) && Truthy(d.paidByUser)
    ensures r.Some? && d.payer == UserPays ==> r.value + d.paidByUser.value == d.bill.value
    ensures r.Some? && d.payer == FriendPays ==> r.value == -d.paidByUser.value && r.value != 0
  {
    if !Truthy(d.bill) || !Truthy(d.paidByUser) then None
    else Some(if d.payer == UserPays then PaidByFriend(d).value else -Num(d.paidByUser))
  }

  /** The sign of the delta: a user-paid split never lowers the friend's balance while the
      expense is within the bill, and a friend-paid split lowers it exactly when the user's
      expense is positive. */
  lemma DeltaSign(d: SplitDraft)
    requires Delta(d).Some?
    ensures d.payer == UserPays && ClampHolds(d) ==> Delta(d).value >= 0
    ensures d.payer == FriendPays ==> (Delta(d).value < 0 <==> Num(d.paidByUser) > 0)
  {
  }

  /** An edit of the form. `ApplyEdit` uses the corrected bill edit. */
  datatype Edit = BillTyped(n: int) | ExpenseTyped(n: int) | PayerChosen(p: Payer)

  function ApplyEdit(d: SplitDraft, e: Edit): SplitDraft {
    match e
    case BillTyped(n) => EditBill(d, n)
    case ExpenseTyped(n) => EditExpense(d, n)
    case PayerChosen(p) => ChoosePayer(d, p)
  }

  /** The draft after a sequence of edits. */
  function ApplyEdits(d: SplitDraft, es: seq<Edit>): SplitDraft
    decreases |es|
  {
    if es == [] then d else ApplyEdits(ApplyEdit(d, es[0]), es[1..])
  }

  /** With the corrected bill edit, every draft reachable from a fresh form keeps the user's
      expense within the bill. */
  lemma {:induction false} EditsKeepClamp(d: SplitDraft, es: seq<Edit>)
    requires ClampHolds(d)
    ensures ClampHolds(ApplyEdits(d, es))
    decreases |es|
  {
    if es != [] {
      EditsKeepClamp(ApplyEdit(d, es[0]), es[1..]);
    }
  }

  /** Hence, with the corrected bill edit, a user-paid split of any reachable draft never lowers
      the friend's balance. */
  lemma ReachableUserDeltaNonNegative(es: seq<Edit>)
    requires Delta(ApplyEdits(FreshDraft, es)).Some?
    requires ApplyEdits(FreshDraft, es).payer == UserPays
    ensures Delta(ApplyEdits(FreshDraft, es)).value >= 0
  {
    EditsKeepClamp(FreshDraft, es);
  }

  /** An edit applied as the form writes it, with the bill edit that does not re-clamp. */
  function ApplyEditAsWritten(d: SplitDraft, e: Edit): SplitDraft {
    match e
    case BillTyped(n) => EditBillAsWritten(d, n)
    case ExpenseTyped(n) => EditExpense(d, n)
    case PayerChosen(p) => ChoosePayer(d, p)
  }

  /** The draft after a sequence of edits as the form writes them. */
  function ApplyEditsAsWritten(d: SplitDraft, es: seq<Edit>): SplitDraft
    decreases |es|
  {
    if es == [] then d else ApplyEditsAsWritten(ApplyEditAsWritten(d, es[0]), es[1..])
  }

  /** As written, lowering the bill after the expense was typed leaves the expense above the
      bill, and a user-paid split then lowers the friend's balance: bill 100, expense 80, bill 50
      gives a delta of -30. So the non-negativity above needs the corrected edit. */
  lemma AsWrittenReachableNegativeDelta()
    ensures var d := ApplyEditsAsWritten(FreshDraft, [BillTyped(100), ExpenseTyped(80), BillTyped(50)]);
            d.payer == UserPays && !ClampHolds(d) && Delta(d) == Some(-30)
  {
  }

  /** The same typing with the re-clamping bill edit keeps the expense within the bill. */
  lemma CorrectedBillEditKeepsClamp()
    ensures var d := ApplyEdits(FreshDraft, [BillTyped(100), ExpenseTyped(80), BillTyped(50)]);
            ClampHolds(d) && Delta(d) == Some(0)
  {
  }

  /** handleSubmit followed by handleSplitBill: nothing happens without a delta; otherwise the
      delta is recorded against the selected friend and the selection is cleared. */
  function SubmitSplit(s: App, d: SplitDraft): (r: App)
    requires s.selected.Some?
    ensures Delta(d).None? ==> r == s
    ensures Delta(d).Some? ==> r.selected == None && |r.friends| == |s.friends|
    ensures Delta(d).Some? ==> r.isAddingFriend == s.isAddingFriend
    ensures Delta(d).Some? ==> forall i :: 0 <= i < |s.friends| ==>
              r.friends[i].id == s.friends[i].id && r.friends[i].name == s.friends[i].name
              && r.friends[i].image == s.friends[i].image
    ensures Delta(d).Some? ==> forall i :: 0 <= i < |s.friends| ==>
              r.friends[i].balance
              == if IsSelected(s.selected, s.friends[i]) then s.friends[i].balance + Delta(d).value
                 else s.friends[i].balance
  {
    match Delta(d)
    case None => s
    case Some(v) => SplitBill(s, v)
  }

  /** Under the app's invariant, a submitted split moves the net total by the delta, and a
      user-paid split of a draft within the bill raises (or keeps) the selected friend's
      balance. */
  lemma SubmitSplitEffect(s: App, d: SplitDraft) returns (k: int)
    requires Valid(s)
    requires s.selected.Some?
    requires Delta(d).Some?
    ensures 0 <= k < |s.friends| && s.friends[k].id == s.selected.value.id
    ensures Total(SubmitSplit(s, d).friends) == Total(s.friends) + Delta(d).value
    ensures d.payer == UserPays && ClampHolds(d) ==>
              SubmitSplit(s, d).friends[k].balance >= s.friends[k].balance
  {
    k := SplitBillChangesOne(s, Delta(d).value);
    DeltaSign(d);
  }
}
