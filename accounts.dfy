/** The balances held by the user service, as a map from account id to a
    balance in the reference currency, and the one way the bank service
    changes them: a signed delta applied to a single account. */
module Accounts {

  /** The user service's answer to PUT user with a delta: the account's
      balance moves by `delta`, no other account changes and no account
      appears or disappears. */
  function ApplyDelta(users: map<int, real>, id: int, delta: real): (r: map<int, real>)
    requires id in users
    ensures r.Keys == users.Keys
    ensures r[id] == users[id] + delta
    ensures forall k :: k in users && k != id ==> r[k] == users[k]
  {
    users[id := users[id] + delta]
  }

  /** Every balance is non-negative. */
  predicate NonNegative(users: map<int, real>) {
    forall k :: k in users ==> users[k] >= 0.0
  }

  /** The sum of all balances: the money held in the bank. */
  ghost function Total(users: map<int, real>): real
    decreases |users|
  {
    if users == map[] then 0.0
    else
      HasAccount(users);
      var k :| k in users;
      users[k] + Total(users - {k})
  }

  /** A non-empty map has a key. */
  lemma HasAccount(users: map<int, real>)
    requires users != map[]
    ensures exists k :: k in users
  {
    if forall k :: k !in users {
      assert false;
    }
  }

  /** The sum does not depend on the account picked first. */
  lemma {:induction false} TotalWithout(users: map<int, real>, id: int)
    requires id in users
    ensures Total(users) == users[id] + Total(users - {id})
    decreases |users|
  {
    var k :| k in users && Total(users) == users[k] + Total(users - {k});
    if k != id {
      TotalWithout(users - {k}, id);
      TotalWithout(users - {id}, k);
      assert users - {k} - {id} == users - {id} - {k};
    }
  }

  /** A delta on one account moves the sum of all balances by exactly that
      delta. */
  lemma TotalApplyDelta(users: map<int, real>, id: int, delta: real)
    requires id in users
    ensures Total(ApplyDelta(users, id, delta)) == Total(users) + delta
  {
    var r := ApplyDelta(users, id, delta);
    TotalWithout(users, id);
    TotalWithout(r, id);
    assert r - {id} == users - {id};
  }

  /** A debit followed by a credit of the same amount on one account gives
      back the original balances. */
  lemma ApplyDeltaUndone(users: map<int, real>, id: int, delta: real)
    requires id in users
    ensures ApplyDelta(ApplyDelta(users, id, -delta), id, delta) == users
  {
  }
}
