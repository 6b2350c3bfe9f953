/** The user store of server.js: the array of account records kept in
    data/users.json. Every helper reloads the whole array, so the model passes
    the current array in and returns the new one; reading a missing or broken
    file yields the empty array. */
module Users {
  import opened Wrappers

  /** One account record. `createdAt` is a clock reading with no behaviour
      attached and is not part of the model. */
  datatype Account = Account(phone: string, subscribed: bool)

  type Store = seq<Account>

  /** The phone numbers of the store, position by position. */
  function Phones(store: Store): (ps: seq<string>)
    ensures |ps| == |store|
    ensures forall i :: 0 <= i < |store| ==> ps[i] == store[i].phone
  {
    seq(|store|, i requires 0 <= i < |store| => store[i].phone)
  }

  /** No phone number occurs in two records. */
  ghost predicate UniquePhones(store: Store) {
    forall i, j :: 0 <= i < j < |store| ==> store[i].phone != store[j].phone
  }

  /** `Array.prototype.findIndex(u => u.phone === phone)`, with `None` for -1. */
  function FirstIndex(store: Store, phone: string): (r: Option<nat>)
    ensures r.Some? ==> r.value < |store| && store[r.value].phone == phone
    ensures r.Some? ==> forall j :: 0 <= j < r.value ==> store[j].phone != phone
    ensures r.None? <==> phone !in Phones(store)
  {
    if |store| == 0 then None
    else if store[0].phone == phone then Some(0)
    else
      match FirstIndex(store[1..], phone)
      case None =>
        assert Phones(store) == [store[0].phone] + Phones(store[1..]);
        None
      case Some(i) => Some(i + 1)
  }

  /** `findUserByPhone`: the first record with that phone, if any. */
  function FindUserByPhone(store: Store, phone: string): (r: Option<Account>)
    ensures r.Some? <==> phone in Phones(store)
    ensures r.Some? ==> r.value.phone == phone
    ensures r.Some? ==> exists i :: 0 <= i < |store| && store[i] == r.value
                                    && forall j :: 0 <= j < i ==> store[j].phone != phone
  {
    match FirstIndex(store, phone)
    case None => None
    case Some(i) => Some(store[i])
  }

  /** `createUser`: appends a fresh unsubscribed record without looking for an
      existing one, and returns the new record alongside the new store. */
  function CreateUser(store: Store, phone: string): (r: (Store, Account))
    ensures |r.0| == |store| + 1
    ensures r.0[..|store|] == store
    ensures r.0[|store|] == r.1 && r.1.phone == phone && !r.1.subscribed
    ensures Phones(r.0) == Phones(store) + [phone]
  {
    var user := Account(phone, false);
    var store' := store + [user];
    assert Phones(store') == Phones(store) + [phone];
    (store', user)
  }

  /** `updateUser`: overwrites the first record with the same phone; when no
      record has that phone the store is left as it was. */
  function UpdateUser(store: Store, user: Account): (r: Store)
    ensures |r| == |store| && Phones(r) == Phones(store)
    ensures user.phone !in Phones(store) ==> r == store
    ensures FirstIndex(store, user.phone).Some? ==>
              var i := FirstIndex(store, user.phone).value;
              r[i] == user && forall j :: 0 <= j < |store| && j != i ==> r[j] == store[j]
  {
    match FirstIndex(store, user.phone)
    case None => store
    case Some(i) =>
      var r := store[i := user];
      assert Phones(r) == Phones(store);
      r
  }

  /** Lookup after creation: a new phone is then found as the fresh record; an
      existing phone still finds the earlier record, so a duplicate created
      by `createUser` alone is never visible to lookups. */
  lemma CreateThenFind(store: Store, phone: string)
    ensures phone !in Phones(store) ==>
              FindUserByPhone(CreateUser(store, phone).0, phone) == Some(Account(phone, false))
    ensures phone in Phones(store) ==>
              FindUserByPhone(CreateUser(store, phone).0, phone) == FindUserByPhone(store, phone)
  {
  }

  /** Lookup after update: the updated record is found under its phone, and
      lookups of other phones are unaffected. */
  lemma UpdateThenFind(store: Store, user: Account, other: string)
    ensures user.phone in Phones(store) ==>
              FindUserByPhone(UpdateUser(store, user), user.phone) == Some(user)
    ensures other != user.phone ==>
              FindUserByPhone(UpdateUser(store, user), other) == FindUserByPhone(store, other)
  {
  }

  /** Appending a phone not yet present keeps phone numbers unique. */
  lemma CreateKeepsUnique(store: Store, phone: string)
    requires UniquePhones(store) && phone !in Phones(store)
    ensures UniquePhones(CreateUser(store, phone).0)
  {
  }

  /** Updating never changes which phones are present, so uniqueness survives. */
  lemma UpdateKeepsUnique(store: Store, user: Account)
    requires UniquePhones(store)
    ensures UniquePhones(UpdateUser(store, user))
  {
  }
}
