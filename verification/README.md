# Split-bill: a Dafny model of the bill-splitting state machine

The app keeps a list of friends, each with a running balance against the user. It lets the user
add a friend, select one friend, and record a bill split against that friend. All of its behaviour
lives in `src/App.js`. This project models that file without its rendering. Each event handler is
a pure transition on immutable data, and the two forms are pure functions on their drafts.

- `Wrappers` (`wrappers.dfy`): `Option`. It stands for JavaScript's `null` and for an empty
  text field.
- `Friends` (`friends.dfy`): the `Friend` record and the `FriendId` type. The initial friends have
  numeric ids and added friends have UUID strings. `===` never equates the two kinds, and neither
  does `FriendId` equality. This module also holds `Credit`, the `map` that records a split, the
  net `Total` of balances, and the balance lines a friend's row shows.
- `Store` (`store.dfy`): the top-level state `App(friends, selected, isAddingFriend)`, the four
  transitions, the state invariant `Valid`, and runs of events.
- `AddFriendForm` (`add_friend_form.dfy`): the add-friend draft, the friend built from it, and the
  submit.
- `SplitBillForm` (`split_bill_form.dfy`): the split draft and the clamp on the user's expense.
  It also holds the derived friend's expense, the signed delta, and the submit.
- `Scenarios` (`scenarios.dfy`): whole interactions starting from the initial state.

Modelling decisions:
- Amounts are `int`. A numeric field is `Option<int>`: `None` is the empty text `""` the field
  starts with, and `Some(n)` is the number an edit produced.
- `Num` reads `""` as 0, as JavaScript does in `-` and `>`. `Truthy` treats `""` and 0 as falsy.
- The UUID from `crypto.randomUUID()` is a parameter, `guid`. Id uniqueness is assumed only where
  the model needs it: the lemmas that preserve `Valid` require that `guid` is not already an id.
- `selected` holds the clicked friend itself, as the component stores it, and not only its id.
  The model compares it by id only, as the source does.
- Clicking a friend closes the add-friend panel in both branches of the toggle (`src/App.js:39`).
- The user's expense can end up above the bill (see Findings).

## Model

| member | source | states |
|---|---|---|
| Friends.Credit | src/App.js:43-48 | Recording a split keeps the list's length, order, ids, names and images. Each entry with the given id gains `value`, and every other entry is returned unchanged. |
| Friends.CreditAbsent | src/App.js:43-48 | A split for an id that no entry carries leaves the list unchanged. |
| Friends.CreditOnly | src/App.js:42-51 | With unique ids, a split for the id at position `k` is the list with only entry `k` updated by `value`. For a non-zero value, exactly one balance changes. |
| Friends.CreditTotal | src/App.js:42-51 | With unique ids, a split for a present id moves the sum of all balances by exactly `value`. |
| Friends.BalanceLines | src/App.js:114-124 | The row's three independent conditionals render exactly one line: "owe" iff the balance is negative, "owed" iff it is positive, "even" iff it is zero. A shown amount is the absolute value and is positive. |
| Friends.BalanceLineRoundTrip | src/App.js:114-124 | The balance can be read back from the line shown, so showing only the absolute amount loses nothing. |
| Store.AddFriend | src/App.js:29-33 | Adding appends exactly one entry at the end and leaves every earlier entry unchanged. It also clears the selection and closes the panel. |
| Store.SelectFriend | src/App.js:35-40 | The friend list is unchanged. The selection becomes empty iff the clicked friend's id was the selected one's, and otherwise becomes the clicked friend. The panel closes in both cases. |
| Store.SplitBill | src/App.js:42-51 | Length, order, ids, names and images are kept. Entries whose id is the selected id gain `value`, and the other entries are unchanged. The selection is cleared and the panel is left as it was. |
| Store.ToggleAddFriend | src/App.js:63-65 | The panel flag is negated. The friends and the selection are unchanged. |
| Store.SelectTwice | src/App.js:35-40 | Clicking the same friend twice gives back that friend if it was the selected one, and no selection otherwise. In particular, starting from no selection ends with no selection. |
| Store.ToggleTwice | src/App.js:63-65 | Toggling the panel twice restores the state. |
| Store.InitialValid | src/App.js:3-27 | The initial state satisfies the invariant (unique ids), has no selection and the panel closed. |
| Store.AddFriendValid | src/App.js:29-33 | Adding a friend whose id is not yet used keeps ids unique and keeps the selection a member of the list. |
| Store.SelectFriendValid | src/App.js:35-40 | Clicking a row of the list keeps the invariant. |
| Store.SplitBillValid | src/App.js:42-51 | A split keeps the invariant. |
| Store.SplitBillChangesOne | src/App.js:42-51 | Under the invariant, a split replaces exactly the selected friend's entry, adding `value` to its balance. It moves the net total by `value`. |
| Store.Step | src/App.js:29-65 | An event fails iff it is a split with nothing selected on a non-empty list, where the `map` callback would read the id of `null`. On an empty list the callback never runs, and the split only clears the selection. |
| Store.RunValid | src/App.js:24-65 | The invariant holds after any run of events with fresh added ids and clicked friends taken from the list. |
| Store.RunKeepsEntries | src/App.js:29-51 | After any run, the list has grown by one entry per added friend. Every earlier entry keeps its position, id, name and image. |
| Store.RunOfAdds | src/App.js:29-33 | A run of additions only appends the added friends in order. Earlier entries keep their balances too. |
| AddFriendForm.EditName | src/App.js:156-160 | Typing a name replaces the name and keeps the image field. |
| AddFriendForm.EditImage | src/App.js:163-167 | Typing an image URL replaces the image field and keeps the name. |
| AddFriendForm.NewFriend | src/App.js:140-147 | No friend is built iff the name or the image is empty. Otherwise the new friend has the UUID as id, the draft's name and balance 0. Its image is the draft's image, then `?=`, then the UUID. |
| AddFriendForm.Submit | src/App.js:137-151 | An empty field makes the submit a no-op on both the state and the draft. Otherwise exactly the friend built from the draft (name, image with UUID suffix, UUID id, balance 0) is appended after the unchanged list, the selection clears, the panel closes and the draft resets to its defaults. |
| AddFriendForm.SubmitValid | src/App.js:140-148 | Submitting with a UUID that is not already an id keeps ids unique. |
| AddFriendForm.InitialIdsNumeric | src/App.js:3-22 | No UUID can equal an initial friend's numeric id. |
| SplitBillForm.Clamp | src/App.js:200-206 | The stored expense reads as `min(entered, bill)`. The entered amount is kept when it fits and replaced by the bill field when it does not. |
| SplitBillForm.EditExpense | src/App.js:200-206 | Typing an expense stores the clamped value, which reads as `min(entered, bill)` and so does not exceed the bill. The bill and the payer are kept. |
| SplitBillForm.EditBillAsWritten | src/App.js:190-195 | Typing a bill as the source does it stores the bill and leaves the expense untouched. |
| SplitBillForm.EditBill | src/App.js:190-206 | This is the corrected bill edit. It stores the bill and keeps the expense within it, as `min(expense, bill)`. An expense that already fits is unchanged. |
| SplitBillForm.ChoosePayer | src/App.js:212-214 | Choosing the payer changes only the payer. |
| SplitBillForm.PaidByFriend | src/App.js:176 | The friend's expense is present iff the bill is truthy. It then adds up with the user's expense to the bill, and is non-negative while the expense is within the bill. |
| SplitBillForm.Delta | src/App.js:182-183 | A delta is issued iff both the bill and the user's expense are truthy. A user-paid delta plus the user's expense is the bill. A friend-paid delta is the negated expense and is non-zero. |
| SplitBillForm.DeltaSign | src/App.js:182-183 | A user-paid delta is non-negative while the expense is within the bill. A friend-paid delta is negative iff the user's expense is positive. |
| SplitBillForm.EditsKeepClamp | src/App.js:190-214 | With the corrected bill edit, every sequence of edits keeps the expense within the bill. |
| SplitBillForm.ReachableUserDeltaNonNegative | src/App.js:174-183 | With the corrected bill edit, for any draft reached from a fresh form, a user-paid delta is non-negative. As written this fails (see `AsWrittenReachableNegativeDelta`). |
| SplitBillForm.AsWrittenReachableNegativeDelta | src/App.js:190-206 | Replaying the edits as the source writes them, bill 100, expense 80, bill 50 reaches a user-paid draft whose expense exceeds the bill and whose delta is -30. |
| SplitBillForm.CorrectedBillEditKeepsClamp | src/App.js:190-206 | The same typing with the corrected edit keeps the expense within the bill and gives delta 0. |
| SplitBillForm.SubmitSplit | src/App.js:179-184 | Without a delta, the submit changes nothing. With one, only entries with the selected id gain the delta; length, order, ids, names, images and the panel flag are kept, and the selection is cleared. |
| SplitBillForm.SubmitSplitEffect | src/App.js:42-51 | Under the invariant, a submitted split moves the net total by the delta. A user-paid split of a draft within the bill never lowers the selected friend's balance. |
| Scenarios.SplitWithSarah | src/App.js:3-51 | Sarah is selected, and a bill of 100 with user expense 40 is paid by the user. The friend's expense is 60 and Sarah's balance goes from 20 to 80. Clark and Anthony are unchanged and the selection is cleared. |
| Scenarios.AddMia | src/App.js:137-151 | Adding "Mia" with the placeholder image appends a settled friend. Its id is the UUID and its image is the placeholder plus `?=` plus the UUID. The draft resets, the panel closes and the invariant holds. |
| Scenarios.AddWithoutName | src/App.js:137-140 | Submitting with an empty name changes nothing and leaves the panel open. |

## Findings

| source | as written | input that shows it | evidently intended | confidence | as-written member | corrected member |
|---|---|---|---|---|---|---|
| src/App.js:194 | Editing the bill stores the new number and leaves the user's expense unchanged. Only an edit of the expense is clamped (src/App.js:200-206). | Enter bill 100, then expense 80, then bill 50, and keep the payer as the user. The expense (80) now exceeds the bill, the friend's expense shows -30, and the submit records -30 against the friend. | The user's expense never exceeds the bill, so a user-paid split never lowers the friend's balance. | medium, not executed | SplitBillForm.EditBillAsWritten, SplitBillForm.AsWrittenReachableNegativeDelta | SplitBillForm.EditBill, SplitBillForm.EditsKeepClamp |

## Left out

- Rendering: the JSX markup, CSS classes, the `Button` and `FriendsList` components, and the button
  labels ("Select"/"Close", "Add Friend"/"Close"). These are presentation only.
- The `key={selectedFriend.id}` remount of the split form. It is modelled only as `FreshDraft`, the
  draft every new selection starts from.
- The add-friend form is mounted only while the panel is open (`src/App.js:61`), so closing the
  panel, selecting a friend or adding one discards its draft. `AddFriendForm.Submit` accepts any
  state, and the model does not tie the draft's lifetime to the panel.
- React's `useState` updater scheduling and `event.preventDefault()`. Each handler is taken as one
  atomic transition.
- `crypto.randomUUID()`. It is the parameter `guid`, and freshness is a precondition of the
  uniqueness lemmas only.
- `Number(...)` text coercion, `NaN` and floating-point amounts. Amounts are integers, and an
  edit supplies the number that the text was coerced to.
- ReachableUserDeltaNonNegative: holds only for drafts built with the corrected bill edit; for the
  form as written a reachable user-paid delta can be negative, which
  `AsWrittenReachableNegativeDelta` exhibits.
- Image URLs beyond string concatenation.
- Negative amounts typed into the fields are accepted, as in the source. This is why the sign
  properties are stated relative to the expense's sign and to the clamp.
