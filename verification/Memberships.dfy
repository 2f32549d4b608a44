/** The index from the accounts, keys and addresses named in authorities to the accounts that name them. */
module Memberships {

  type Id = nat
  type Key = nat
  type Address = nat

  /** Who may sign; the weights do not matter here. */
  datatype Authority = Authority(accounts: set<Id>, keys: set<Key>, addresses: set<Address>)

  datatype Account = Account(owner: Authority, active: Authority, memo: Key)

  function AccountMembers(a: Account): set<Id> {
    a.owner.accounts + a.active.accounts
  }

  function KeyMembers(a: Account): set<Key> {
    a.owner.keys + a.active.keys + {a.memo}
  }

  /** A key stands for its address, too. */
  function AddressMembers(a: Account, addressOf: Key -> Address): set<Address> {
    a.owner.addresses + a.active.addresses + {addressOf(a.memo)}
  }

  function Entry<K>(index: map<K, set<Id>>, k: K): set<Id> {
    if k in index then index[k] else {}
  }

  /** Under each key exactly the accounts that name it. */
  ghost predicate Mirrors<K(!new)>(index: map<K, set<Id>>, accounts: map<Id, Account>, members: Account -> set<K>) {
    forall k, id {:trigger id in Entry(index, k)} :: id in Entry(index, k) <==> (id in accounts && k in members(accounts[id]))
  }

  /** Account id has been taken out of the entries of some keys and put into those of others. */
  ghost predicate Rewritten<K(!new)>(index: map<K, set<Id>>, index': map<K, set<Id>>, minus: set<K>, plus: set<K>, id: Id) {
    forall k: K :: Entry(index', k) == Entry(index, k) - (if k in minus then {id} else {}) + (if k in plus then {id} else {})
  }

  method Add<K(==, !new)>(index0: map<K, set<Id>>, ks: set<K>, id: Id) returns (index: map<K, set<Id>>)
    ensures Rewritten(index0, index, {}, ks, id)
  {
    index := index0;
    var todo := ks;
    while todo != {}
      invariant todo <= ks
      invariant Rewritten(index0, index, {}, ks - todo, id)
      decreases todo
    {
      var k: K :| k in todo;
      index := index[k := Entry(index, k) + {id}];
      todo := todo - {k};
    }
  }

  method Erase<K(==, !new)>(index0: map<K, set<Id>>, ks: set<K>, id: Id) returns (index: map<K, set<Id>>)
    ensures Rewritten(index0, index, ks, {}, id)
  {
    index := index0;
    var todo := ks;
    while todo != {}
      invariant todo <= ks
      invariant Rewritten(index0, index, ks - todo, {}, id)
      decreases todo
    {
      var k: K :| k in todo;
      index := index[k := Entry(index, k) - {id}];
      todo := todo - {k};
    }
  }

  ghost function MembersOf<K>(accounts: map<Id, Account>, id: Id, members: Account -> set<K>): set<K> {
    if id in accounts then members(accounts[id]) else {}
  }

  lemma RewrittenMirrors<K(!new)>(index: map<K, set<Id>>, index': map<K, set<Id>>, accounts: map<Id, Account>, accounts': map<Id, Account>,
                                  members: Account -> set<K>, minus: set<K>, plus: set<K>, id: Id)
    requires Mirrors(index, accounts, members) && Rewritten(index, index', minus, plus, id)
    requires accounts' - {id} == accounts - {id}
    requires MembersOf(accounts', id, members) == MembersOf(accounts, id, members) - minus + plus
    ensures Mirrors(index', accounts', members)
  {
    forall k, i ensures i in Entry(index', k) <==> (i in accounts' && k in members(accounts'[i])) {
      if i == id {
        assert k in MembersOf(accounts', id, members) <==> (id in accounts' && k in members(accounts'[id]));
        assert k in MembersOf(accounts, id, members) <==> (id in accounts && k in members(accounts[id]));
      } else {
        assert (i in accounts' - {id}) == (i in accounts - {id});
        assert i in Entry(index', k) <==> i in Entry(index, k);
      }
    }
  }

  /** One of the three maps follows an account that is new, */
  method Enter<K(==, !new)>(index0: map<K, set<Id>>, id: Id, a: Account, names: set<K>,
                            ghost accounts: map<Id, Account>, ghost members: Account -> set<K>) returns (index: map<K, set<Id>>)
    requires Mirrors(index0, accounts, members) && id !in accounts && names == members(a)
    ensures Mirrors(index, accounts[id := a], members)
  {
    index := Add(index0, names, id);
    assert accounts[id := a] - {id} == accounts - {id};
    RewrittenMirrors(index0, index, accounts, accounts[id := a], members, {}, names, id);
  }

  /** is removed, */
  method Leave<K(==, !new)>(index0: map<K, set<Id>>, id: Id, names: set<K>,
                            ghost accounts: map<Id, Account>, ghost members: Account -> set<K>) returns (index: map<K, set<Id>>)
    requires Mirrors(index0, accounts, members) && id in accounts && names == members(accounts[id])
    ensures Mirrors(index, accounts - {id}, members)
  {
    index := Erase(index0, names, id);
    assert accounts - {id} - {id} == accounts - {id};
    RewrittenMirrors(index0, index, accounts, accounts - {id}, members, names, {}, id);
  }

  /** or changes; only the difference is written. */
  method Change<K(==, !new)>(index0: map<K, set<Id>>, id: Id, a: Account, before: set<K>, after: set<K>,
                             ghost accounts: map<Id, Account>, ghost members: Account -> set<K>) returns (index: map<K, set<Id>>)
    requires Mirrors(index0, accounts, members) && id in accounts && before == members(accounts[id]) && after == members(a)
    ensures Mirrors(index, accounts[id := a], members)
  {
    var erased := Erase(index0, before - after, id);
    index := Add(erased, after - before, id);
    assert accounts[id := a] - {id} == accounts - {id};
    RewrittenMirrors(index0, index, accounts, accounts[id := a], members, before - after, after - before, id);
  }

  /** What happens to the table of accounts. */
  datatype Event = Inserted(id: Id, a: Account) | Removed(id: Id, a: Account) | Modified(id: Id, before: Account, after: Account)

  predicate Possible(accounts: map<Id, Account>, e: Event) {
    match e
    case Inserted(id, a) => id !in accounts
    case Removed(id, a) => id in accounts && accounts[id] == a
    case Modified(id, before, after) => id in accounts && accounts[id] == before
  }

  function Happen(accounts: map<Id, Account>, e: Event): map<Id, Account> {
    match e
    case Inserted(id, a) => accounts[id := a]
    case Removed(id, a) => accounts - {id}
    case Modified(id, before, after) => accounts[id := after]
  }

  predicate AllPossible(accounts: map<Id, Account>, es: seq<Event>)
    decreases |es|
  {
    es != [] ==> Possible(accounts, es[0]) && AllPossible(Happen(accounts, es[0]), es[1..])
  }

  function HappenAll(accounts: map<Id, Account>, es: seq<Event>): map<Id, Account>
    decreases |es|
  {
    if es == [] then accounts else HappenAll(Happen(accounts, es[0]), es[1..])
  }

  class Index {
    const addressOf: Key -> Address
    var byAccount: map<Id, set<Id>>
    var byKey: map<Key, set<Id>>
    var byAddress: map<Address, set<Id>>
    var beforeAccounts: set<Id>
    var beforeKeys: set<Key>
    var beforeAddresses: set<Address>

    constructor (addressOf: Key -> Address)
      ensures Mirror(map[]) && this.addressOf == addressOf
    {
      this.addressOf := addressOf;
      byAccount, byKey, byAddress := map[], map[], map[];
      beforeAccounts, beforeKeys, beforeAddresses := {}, {}, {};
    }

    /** Recomputing the members of every account from scratch gives the same three maps. */
    ghost predicate Mirror(accounts: map<Id, Account>)
      reads this
    {
      && Mirrors(byAccount, accounts, AccountMembers)
      && Mirrors(byKey, accounts, KeyMembers)
      && Mirrors(byAddress, accounts, Addresses())
    }

    ghost function Addresses(): Account -> set<Address> {
      (a: Account) => AddressMembers(a, addressOf)
    }

    method ObjectInserted(id: Id, a: Account, ghost accounts: map<Id, Account>)
      requires Mirror(accounts) && id !in accounts
      modifies this`byAccount, this`byKey, this`byAddress
      ensures Mirror(accounts[id := a])
    {
      byAccount := Enter(byAccount, id, a, AccountMembers(a), accounts, AccountMembers);
      byKey := Enter(byKey, id, a, KeyMembers(a), accounts, KeyMembers);
      byAddress := Enter(byAddress, id, a, AddressMembers(a, addressOf), accounts, Addresses());
    }

    method ObjectRemoved(id: Id, a: Account, ghost accounts: map<Id, Account>)
      requires Mirror(accounts) && id in accounts && accounts[id] == a
      modifies this`byAccount, this`byKey, this`byAddress
      ensures Mirror(accounts - {id})
    {
      byKey := Leave(byKey, id, KeyMembers(a), accounts, KeyMembers);
      byAddress := Leave(byAddress, id, AddressMembers(a, addressOf), accounts, Addresses());
      byAccount := Leave(byAccount, id, AccountMembers(a), accounts, AccountMembers);
    }

    method AboutToModify(before: Account)
      modifies this`beforeAccounts, this`beforeKeys, this`beforeAddresses
      ensures Remembers(before)
    {
      beforeKeys := KeyMembers(before);
      beforeAddresses := AddressMembers(before, addressOf);
      beforeAccounts := AccountMembers(before);
    }

    predicate Remembers(before: Account)
      reads this
    {
      beforeAccounts == AccountMembers(before) && beforeKeys == KeyMembers(before) && beforeAddresses == AddressMembers(before, addressOf)
    }

    method ObjectModified(id: Id, a: Account, ghost accounts: map<Id, Account>)
      requires Mirror(accounts) && id in accounts && Remembers(accounts[id])
      modifies this`byAccount, this`byKey, this`byAddress
      ensures Mirror(accounts[id := a])
    {
      byAccount := Change(byAccount, id, a, beforeAccounts, AccountMembers(a), accounts, AccountMembers);
      byKey := Change(byKey, id, a, beforeKeys, KeyMembers(a), accounts, KeyMembers);
      byAddress := Change(byAddress, id, a, beforeAddresses, AddressMembers(a, addressOf), accounts, Addresses());
    }

    method Follow(e: Event, ghost accounts: map<Id, Account>)
      requires Mirror(accounts) && Possible(accounts, e)
      modifies this
      ensures Mirror(Happen(accounts, e))
    {
      match e
      case Inserted(id, a) => ObjectInserted(id, a, accounts);
      case Removed(id, a) => ObjectRemoved(id, a, accounts);
      case Modified(id, before, after) =>
        AboutToModify(before);
        ObjectModified(id, after, accounts);
    }

    /** After any run of inserts, removes and modifications each map has an account under a key exactly when
        recomputing that account's members gives the key. */
    method FollowAll(es: seq<Event>, ghost accounts: map<Id, Account>)
      requires Mirror(accounts) && AllPossible(accounts, es)
      modifies this
      ensures Mirror(HappenAll(accounts, es))
    {
      ghost var now := accounts;
      var i := 0;
      while i < |es|
        invariant i <= |es| && Mirror(now) && AllPossible(now, es[i..])
        invariant HappenAll(now, es[i..]) == HappenAll(accounts, es)
      {
        assert es[i..][1..] == es[i + 1..];
        Follow(es[i], now);
        now := Happen(now, es[i]);
        i := i + 1;
      }
    }
  }
}
