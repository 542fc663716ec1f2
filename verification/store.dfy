/** The app-level state of the bill-splitting app and its four transitions (src/App.js:24-65),
    each handler taken as one atomic step. */
module Store {
  import opened Wrappers
  import opened Friends

  /** The state the top-level component holds. `selected` is the clicked friend itself, as the
      component stores it; the transitions consult only its id. */
  datatype App = App(friends: seq<Friend>, selected: Option<Friend>, isAddingFriend: bool)

  /** The friends the app starts with. */
  const InitialFriends: seq<Friend> := [
    Friend(Numeric(118836), "Clark", "https://i.pravatar.cc/48?u=118836", -7),
    Friend(Numeric(933372), "Sarah", "https://i.pravatar.cc/48?u=933372", 20),
    Friend(Numeric(499476), "Anthony", "https://i.pravatar.cc/48?u=499476", 0)
  ]

  /** The state on first render: the initial friends, nothing selected, the add-friend panel closed. */
  const Initial: App := App(InitialFriends, None, false)

  /** Whether `f` is the selected friend, compared by id as the row and the toggle do. */
  predicate IsSelected(selected: Option<Friend>, f: Friend) {
    selected.Some? && selected.value.id == f.id
  }

  /** handleAddFriend: append the friend, close the add-friend panel, clear the selection. */
  function AddFriend(s: App, f: Friend): (r: App)
    ensures |r.friends| == |s.friends| + 1
    ensures r.friends[..|s.friends|] == s.friends
    ensures r.friends[|s.friends|] == f
    ensures r.selected == None && !r.isAddingFriend
  {
    App(s.friends + [f], None, false)
  }

  /** handleSelectFriend: clicking the selected friend deselects it, clicking any other friend
      selects that one; either way the add-friend panel closes. */
  function SelectFriend(s: App, f: Friend): (r: App)
    ensures r.friends == s.friends
    ensures r.selected == None <==> IsSelected(s.selected, f)
    ensures r.selected != None ==> r.selected == Some(f)
    ensures !r.isAddingFriend
  {
    App(s.friends, if IsSelected(s.selected, f) then None else Some(f), false)
  }

  /** handleSplitBill: record `value` against the selected friend and clear the selection.
      The handler reads the selected friend's id, so it needs a selection; the split form that
      calls it is only shown while there is one. */
  function SplitBill(s: App, value: int): (r: App)
    requires s.selected.Some?
    ensures |r.friends| == |s.friends|
    ensures forall i :: 0 <= i < |s.friends| ==>
              r.friends[i].id == s.friends[i].id && r.friends[i].name == s.friends[i].name
              && r.friends[i].image == s.friends[i].image
    ensures forall i :: 0 <= i < |s.friends| ==>
              r.friends[i].balance
              == if IsSelected(s.selected, s.friends[i]) then s.friends[i].balance + value else s.friends[i].balance
    ensures r.selected == None && r.isAddingFriend == s.isAddingFriend
  {
    App(Credit(s.friends, s.selected.value.id, value), None, s.isAddingFriend)
  }

  /** The "Add Friend" / "Close" button: flip the panel, nothing else. */
  function ToggleAddFriend(s: App): (r: App)
    ensures r.isAddingFriend != s.isAddingFriend
    ensures r.friends == s.friends && r.selected == s.selected
  {
    s.(isAddingFriend := !s.isAddingFriend)
  }

  /** Clicking the same friend twice undoes the selection change: from no selection (or another
      friend's) it comes back to none, from the friend's own selection back to that friend. */
  lemma SelectTwice(s: App, f: Friend)
    ensures SelectFriend(SelectFriend(s, f), f).selected
            == if IsSelected(s.selected, f) then Some(f) else None
    ensures s.selected == None ==> SelectFriend(SelectFriend(s, f), f).selected == None
  {
  }

  /** The panel button is an involution. */
  lemma ToggleTwice(s: App)
    ensures ToggleAddFriend(ToggleAddFriend(s)) == s
  {
  }

  /** The state's invariant: ids are unique and a selected friend is one of the list's entries. */
  ghost predicate Valid(s: App) {
    && UniqueIds(s.friends)
    && (s.selected.Some? ==> s.selected.value in s.friends)
  }

  lemma InitialValid()
    ensures Valid(Initial)
    ensures Initial.selected == None && !Initial.isAddingFriend
  {
  }

  /** Adding a friend whose id is new keeps the invariant. */
  lemma AddFriendValid(s: App, f: Friend)
    requires Valid(s)
    requires IdFresh(s.friends, f.id)
    ensures Valid(AddFriend(s, f))
  {
  }

  /** Clicking a friend of the list keeps the invariant. */
  lemma SelectFriendValid(s: App, f: Friend)
    requires Valid(s)
    requires f in s.friends
    ensures Valid(SelectFriend(s, f))
  {
  }

  /** A split keeps the invariant. */
  lemma SplitBillValid(s: App, value: int)
    requires Valid(s)
    requires s.selected.Some?
    ensures Valid(SplitBill(s, value))
  {
  }

  /** Under the invariant a split changes exactly the selected friend's entry, by `value`, and
      moves the net total by `value`. */
  lemma SplitBillChangesOne(s: App, value: int) returns (k: int)
    requires Valid(s)
    requires s.selected.Some?
    ensures 0 <= k < |s.friends| && s.friends[k].id == s.selected.value.id
    ensures SplitBill(s, value).friends
            == s.friends[k := s.friends[k].(balance := s.friends[k].balance + value)]
    ensures Total(SplitBill(s, value).friends) == Total(s.friends) + value
  {
    k :| 0 <= k < |s.friends| && s.friends[k] == s.selected.value;
    CreditOnly(s.friends, k, value);
    CreditTotal(s.friends, k, value);
  }

  /** A user action on the app. */
  datatype Event =
    | FriendAdded(friend: Friend)     // the add-friend form submitted a new friend
    | FriendClicked(friend: Friend)   // the Select / Close button of a row
    | BillSplit(value: int)           // the split form submitted a delta
    | PanelToggled                    // the Add Friend / Close button

  /** One event's transition; None when a split arrives with nothing selected while the list
      has entries, where the handler's `map` callback would read the id of a missing selection.
      On an empty list the callback never runs, so the split only clears the selection. */
  function Step(s: App, e: Event): (r: Option<App>)
    ensures r.None? <==> e.BillSplit? && s.selected.None? && s.friends != []
    ensures e.BillSplit? && s.selected.None? && s.friends == [] ==> r == Some(s.(selected := None))
  {
    match e
    case FriendAdded(f) => Some(AddFriend(s, f))
    case FriendClicked(f) => Some(SelectFriend(s, f))
    case BillSplit(v) =>
      if s.selected.Some? then Some(SplitBill(s, v))
      else if s.friends == [] then Some(s.(selected := None))
      else None
    case PanelToggled => Some(ToggleAddFriend(s))
  }

  /** The state after a sequence of events, None if one of them fails. */
  function Run(s: App, es: seq<Event>): Option<App>
    decreases |es|
  {
    if es == [] then Some(s)
    else match Step(s, es[0])
      case None => None
      case Some(t) => Run(t, es[1..])
  }

  /** What the rest of the app guarantees of an event: an added friend carries a fresh id
      and a clicked friend is a row of the list. */
  ghost predicate Admissible(s: App, e: Event) {
    match e
    case FriendAdded(f) => IdFresh(s.friends, f.id)
    case FriendClicked(f) => f in s.friends
    case _ => true
  }

  /** Every event of the run is admissible in the state it meets. */
  ghost predicate AdmissibleRun(s: App, es: seq<Event>)
    decreases |es|
  {
    es == [] ||
    (Admissible(s, es[0]) && (Step(s, es[0]).Some? ==> AdmissibleRun(Step(s, es[0]).value, es[1..])))
  }

  /** The number of friends a run adds. */
  function Adds(es: seq<Event>): nat {
    if es == [] then 0 else (if es[0].FriendAdded? then 1 else 0) + Adds(es[1..])
  }

  /** The invariant holds after any admissible run. */
  lemma {:induction false} RunValid(s: App, es: seq<Event>)
    requires Valid(s)
    requires AdmissibleRun(s, es)
    requires Run(s, es).Some?
    ensures Valid(Run(s, es).value)
    decreases |es|
  {
    if es != [] {
      var t := Step(s, es[0]).value;
      match es[0] {
        case FriendAdded(f) => AddFriendValid(s, f);
        case FriendClicked(f) => SelectFriendValid(s, f);
        case BillSplit(v) => if s.selected.Some? { SplitBillValid(s, v); }
        case PanelToggled =>
      }
      RunValid(t, es[1..]);
    }
  }

  /** Friends are never removed or reordered: after any run the list has grown by one entry per
      added friend, and every earlier entry keeps its position, id, name and image. */
  lemma {:induction false} RunKeepsEntries(s: App, es: seq<Event>)
    requires Run(s, es).Some?
    ensures |Run(s, es).value.friends| == |s.friends| + Adds(es)
    ensures forall i :: 0 <= i < |s.friends| ==>
              && Run(s, es).value.friends[i].id == s.friends[i].id
              && Run(s, es).value.friends[i].name == s.friends[i].name
              && Run(s, es).value.friends[i].image == s.friends[i].image
    decreases |es|
  {
    if es != [] {
      var t := Step(s, es[0]).value;
      RunKeepsEntries(t, es[1..]);
    }
  }

  /** The friends a sequence of events adds, in order. */
  function AddedFriends(es: seq<Event>): seq<Friend> {
    if es == [] then []
    else (if es[0].FriendAdded? then [es[0].friend] else []) + AddedFriends(es[1..])
  }

  /** A run of additions alone only appends: earlier entries keep even their balances. */
  lemma {:induction false} RunOfAdds(s: App, es: seq<Event>)
    requires forall i :: 0 <= i < |es| ==> es[i].FriendAdded?
    ensures Run(s, es).Some?
    ensures Run(s, es).value.friends == s.friends + AddedFriends(es)
    decreases |es|
  {
    if es != [] {
      var t := AddFriend(s, es[0].friend);
      RunOfAdds(t, es[1..]);
      assert s.friends + [es[0].friend] + AddedFriends(es[1..]) == s.friends + AddedFriends(es);
    }
  }
}
