/** The add-friend form (src/App.js:133-151): a draft of two text fields and its submit. */
module AddFriendForm {
  import opened Wrappers
  import opened Friends
  import opened Store

  /** The placeholder the image field starts with and is reset to. */
  const DefaultImage: string := "https://i.pravatar.cc/48"

  /** The form's own state: the two text fields. */
  datatype FriendDraft = FriendDraft(name: string, image: string)

  /** The draft of a freshly shown form. */
  const FreshDraft: FriendDraft := FriendDraft("", DefaultImage)

  /** Typing into the name field. */
  function EditName(d: FriendDraft, name: string): (r: FriendDraft)
    ensures r.name == name && r.image == d.image
  {
    d.(name := name)
  }

  /** Typing into the image field. */
  function EditImage(d: FriendDraft, image: string): (r: FriendDraft)
    ensures r.image == image && r.name == d.name
  {
    d.(image := image)
  }

  /** The friend a submit builds from the draft and a freshly generated UUID `guid`: nothing
      when either field is empty, otherwise a settled friend whose id is the UUID and whose
      image URL carries the UUID as a cache-busting suffix. */
  function NewFriend(d: FriendDraft, guid: string): (r: Option<Friend>)
    ensures r.None? <==> d.name == "" || d.image == ""
    ensures r.Some? ==> r.value.id == Uuid(guid) && r.value.name == d.name && r.value.balance == 0
    ensures r.Some? ==> |r.value.image| == |d.image| + 2 + |guid|
                        && r.value.image[..|d.image|] == d.image
                        && r.value.image[|d.image|..|d.image| + 2] == "?="
                        && r.value.image[|d.image| + 2..] == guid
  {
    if d.name == "" || d.image == "" then None
    else Some(Friend(Uuid(guid), d.name, d.image + "?=" + guid, 0))
  }

  /** The app state and the form's draft after a submit. */
  datatype Submitted = Submitted(app: App, draft: FriendDraft)

  /** handleSubmitForm followed by handleAddFriend: a draft with an empty field is ignored
      (state and draft unchanged, the panel stays as it is); otherwise the new friend is
      appended, the panel closes, the selection clears and the draft is reset. */
  function Submit(s: App, d: FriendDraft, guid: string): (r: Submitted)
    ensures d.name == "" || d.image == "" ==> r == Submitted(s, d)
    ensures d.name != "" && d.image != "" ==>
              && |r.app.friends| == |s.friends| + 1
              && r.app.friends[..|s.friends|] == s.friends
              && Some(r.app.friends[|s.friends|]) == NewFriend(d, guid)
              && r.app.selected == None && !r.app.isAddingFriend
              && r.draft == FreshDraft
  {
    match NewFriend(d, guid)
    case None => Submitted(s, d)
    case Some(f) => Submitted(AddFriend(s, f), FreshDraft)
  }

  /** Submitting with a UUID that is not yet an id keeps the app's invariant. */
  lemma SubmitValid(s: App, d: FriendDraft, guid: string)
    requires Valid(s)
    requires IdFresh(s.friends, Uuid(guid))
    ensures Valid(Submit(s, d, guid).app)
  {
  }

  /** The friends the app starts with have numeric ids, so no UUID can clash with them. */
  lemma InitialIdsNumeric(guid: string)
    ensures IdFresh(InitialFriends, Uuid(guid))
  {
  }
}
