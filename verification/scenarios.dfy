/** Whole interactions with the app, from its initial state. */
module Scenarios {
  import opened Wrappers
  import opened Friends
  import opened Store
  import AddFriendForm
  import SplitBillForm

  /** Selecting Sarah and splitting a bill of 100 of which the user's expense is 40, paid by the
      user: the friend's expense is 60, Sarah's balance goes from 20 to 80, Clark and Anthony
      keep theirs and the selection is cleared. */
  lemma SplitWithSarah()
    ensures var s := SelectFriend(Initial, InitialFriends[1]);
            var d := SplitBillForm.EditExpense(SplitBillForm.EditBillAsWritten(SplitBillForm.FreshDraft, 100), 40);
            var r := SplitBillForm.SubmitSplit(s, d);
            && SplitBillForm.PaidByFriend(d) == Some(60)
            && r.friends == [InitialFriends[0], InitialFriends[1].(balance := 80), InitialFriends[2]]
            && r.selected == None
  {
  }

  /** Opening the panel and adding Mia with the placeholder image: Mia is appended settled,
      with the UUID as id and as the image's suffix; the draft is reset and the panel closes. */
  lemma AddMia(guid: string)
    ensures var s := ToggleAddFriend(Initial);
            var d := AddFriendForm.EditName(AddFriendForm.FreshDraft, "Mia");
            var r := AddFriendForm.Submit(s, d, guid);
            && r.app.friends == InitialFriends
                                + [Friend(Uuid(guid), "Mia", "https://i.pravatar.cc/48?=" + guid, 0)]
            && r.draft == AddFriendForm.FreshDraft
            && !r.app.isAddingFriend
            && Valid(r.app)
  {
    var s := ToggleAddFriend(Initial);
    var d := AddFriendForm.EditName(AddFriendForm.FreshDraft, "Mia");
    assert AddFriendForm.DefaultImage + "?=" + guid == "https://i.pravatar.cc/48?=" + guid;
    InitialValid();
    AddFriendForm.InitialIdsNumeric(guid);
    AddFriendForm.SubmitValid(s, d, guid);
  }

  /** Submitting the add-friend form with an empty name changes nothing and leaves it open. */
  lemma AddWithoutName(guid: string)
    ensures var s := ToggleAddFriend(Initial);
            var r := AddFriendForm.Submit(s, AddFriendForm.FreshDraft, guid);
            r.app == s && r.app.isAddingFriend && r.draft == AddFriendForm.FreshDraft
  {
  }
}
