/** Friends and the list of friends kept by the bill-splitting app (src/App.js). */
module Friends {

  /** A friend's identifier. The friends the app starts with carry numeric ids; a friend added
      through the form carries the UUID string it was created with. JavaScript's `===` never
      equates a number with a string, and neither does equality on this datatype. */
  datatype FriendId = Numeric(n: int) | Uuid(text: string)

  /** A friend: a negative balance means the user owes the friend, a positive one that the
      friend owes the user. */
  datatype Friend = Friend(id: FriendId, name: string, image: string, balance: int)

  /** No id occurs at two positions of the list. */
  ghost predicate UniqueIds(fs: seq<Friend>) {
    forall i, j :: 0 <= i < |fs| && 0 <= j < |fs| && fs[i].id == fs[j].id ==> i == j
  }

  /** `id` is not the id of any friend in the list. */
  ghost predicate IdFresh(fs: seq<Friend>, id: FriendId) {
    forall i :: 0 <= i < |fs| ==> fs[i].id != id
  }

  /** The sum of all balances: what the user is owed in total, net. */
  function Total(fs: seq<Friend>): int {
    if fs == [] then 0 else fs[0].balance + Total(fs[1..])
  }

  /** One friend after a split of `value`, if it is the friend the split is for. */
  function CreditOne(f: Friend, id: FriendId, value: int): Friend {
    if f.id == id then f.(balance := f.balance + value) else f
  }

  /** The `map` over the list that records a split: every friend whose id is `id` has `value`
      added to the balance, every other friend is kept as is, and the order is kept. */
  function Credit(fs: seq<Friend>, id: FriendId, value: int): (r: seq<Friend>)
    ensures |r| == |fs|
    ensures forall i :: 0 <= i < |fs| ==>
              r[i].id == fs[i].id && r[i].name == fs[i].name && r[i].image == fs[i].image
    ensures forall i :: 0 <= i < |fs| && fs[i].id == id ==> r[i].balance == fs[i].balance + value
    ensures forall i :: 0 <= i < |fs| && fs[i].id != id ==> r[i] == fs[i]
  {
    if fs == [] then [] else [CreditOne(fs[0], id, value)] + Credit(fs[1..], id, value)
  }

  /** A split for an id nobody has changes nothing. */
  lemma CreditAbsent(fs: seq<Friend>, id: FriendId, value: int)
    requires IdFresh(fs, id)
    ensures Credit(fs, id, value) == fs
  {
  }

  /** With unique ids, a split for the id at position `k` changes exactly that entry, by
      `value`, and (for a non-zero value) no other balance. */
  lemma CreditOnly(fs: seq<Friend>, k: int, value: int)
    requires UniqueIds(fs)
    requires 0 <= k < |fs|
    ensures Credit(fs, fs[k].id, value) == fs[k := fs[k].(balance := fs[k].balance + value)]
    ensures value != 0 ==>
              forall i :: 0 <= i < |fs| ==> (Credit(fs, fs[k].id, value)[i].balance != fs[i].balance <==> i == k)
  {
  }

  /** Changing one balance changes the total by the same amount. */
  lemma {:induction false} TotalUpdate(fs: seq<Friend>, k: int, f: Friend)
    requires 0 <= k < |fs|
    ensures Total(fs[k := f]) == Total(fs) - fs[k].balance + f.balance
  {
    if k > 0 {
      TotalUpdate(fs[1..], k - 1, f);
      assert fs[k := f][1..] == fs[1..][k - 1 := f];
    }
  }

  /** A split recorded for a friend of a list with unique ids moves the net total by exactly
      the split value. */
  lemma CreditTotal(fs: seq<Friend>, k: int, value: int)
    requires UniqueIds(fs)
    requires 0 <= k < |fs|
    ensures Total(Credit(fs, fs[k].id, value)) == Total(fs) + value
  {
    CreditOnly(fs, k, value);
    TotalUpdate(fs, k, fs[k].(balance := fs[k].balance + value));
  }

  /** Absolute value, the amount a balance line shows. */
  function Abs(x: int): nat {
    if x < 0 then -x else x
  }

  /** A balance line of a friend's row. */
  datatype BalanceLine =
    | YouOwe(name: string, amount: nat)     // the user owes the friend `amount`
    | OwesYou(name: string, amount: nat)    // the friend owes the user `amount`
    | Even(name: string)                    // the two are settled

  /** The balance lines a friend's row renders: three independent conditionals on the sign of
      the balance, in the order the row writes them. Exactly one of them fires. */
  function BalanceLines(f: Friend): (r: seq<BalanceLine>)
    ensures |r| == 1
    ensures r[0].name == f.name
    ensures r[0].YouOwe? <==> f.balance < 0
    ensures r[0].OwesYou? <==> f.balance > 0
    ensures r[0].Even? <==> f.balance == 0
    ensures !r[0].Even? ==> r[0].amount == Abs(f.balance) > 0
  {
    (if f.balance < 0 then [YouOwe(f.name, Abs(f.balance))] else [])
    + (if f.balance > 0 then [OwesYou(f.name, Abs(f.balance))] else [])
    + (if f.balance == 0 then [Even(f.name)] else [])
  }

  /** The balance a line stands for, read back with the sign convention of the data model. */
  function LineBalance(line: BalanceLine): int {
    match line
    case YouOwe(_, amount) => -(amount as int)
    case OwesYou(_, amount) => amount
    case Even(_) => 0
  }

  /** The line a row shows determines the balance: nothing about the amount or its sign is
      lost when only its absolute value is displayed. */
  lemma BalanceLineRoundTrip(f: Friend)
    ensures LineBalance(BalanceLines(f)[0]) == f.balance
  {
  }
}
