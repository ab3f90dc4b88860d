/**
 * The accounts table as the pool sees it through its query layer. The query
 * layer itself (db/queries.py) is not part of this model: this module gives
 * the contract its call sites rely on, over a map from id to row, the order
 * in which queries return rows, and the next id the table hands out.
 */
module Store {
  import opened Wrappers
  import opened Models

  /** The row with the given id, if any (`get_account_by_id`). */
  function Lookup(accounts: map<int, Account>, id: int): (r: Option<Account>)
    ensures r.Some? <==> id in accounts
    ensures r.Some? ==> r.value == accounts[id]
  {
    if id in accounts then Some(accounts[id]) else None
  }

  /** The id of the first row, in query order, with the given phone (`get_account_by_phone`). */
  function FindIdByPhone(accounts: map<int, Account>, ids: seq<int>, phone: string): (r: Option<int>)
    ensures r.Some? ==> r.value in ids && r.value in accounts && accounts[r.value].phone == phone
    ensures r.None? ==> forall k :: 0 <= k < |ids| && ids[k] in accounts ==> accounts[ids[k]].phone != phone
    decreases |ids|
  {
    if ids == [] then None
    else if ids[0] in accounts && accounts[ids[0]].phone == phone then Some(ids[0])
    else FindIdByPhone(accounts, ids[1..], phone)
  }

  /** The ACTIVE rows in query order (`get_active_accounts`). */
  function ActiveAccounts(accounts: map<int, Account>, ids: seq<int>): (r: seq<Account>)
    ensures forall k :: 0 <= k < |r| ==> r[k].status == Active && r[k] in accounts.Values
    ensures forall k :: 0 <= k < |ids| && ids[k] in accounts && accounts[ids[k]].status == Active ==> accounts[ids[k]] in r
    ensures |r| <= |ids|
    decreases |ids|
  {
    if ids == [] then []
    else if ids[0] in accounts && accounts[ids[0]].status == Active then [accounts[ids[0]]] + ActiveAccounts(accounts, ids[1..])
    else ActiveAccounts(accounts, ids[1..])
  }

  /** Every row sits under its own id. */
  ghost predicate RowsKeyed(accounts: map<int, Account>)
  {
    forall id :: id in accounts ==> accounts[id].id == id
  }

  /** No id occurs twice in the sequence. */
  ghost predicate DistinctIds(accts: seq<Account>)
  {
    forall i, j :: 0 <= i < j < |accts| ==> accts[i].id != accts[j].id
  }

  /**
   * When rows sit under their own ids and query order lists each id once,
   * the active rows are current rows, each under its own id, with no id twice.
   */
  lemma {:induction false} ActiveAccountsKeyed(accounts: map<int, Account>, ids: seq<int>)
    requires RowsKeyed(accounts)
    requires forall i, j :: 0 <= i < j < |ids| ==> ids[i] != ids[j]
    ensures var r := ActiveAccounts(accounts, ids);
            && DistinctIds(r)
            && (forall k :: 0 <= k < |r| ==> r[k].id in accounts && accounts[r[k].id] == r[k])
            && (forall k :: 0 <= k < |r| ==> r[k].id in ids)
    decreases |ids|
  {
    if ids != [] {
      ActiveAccountsKeyed(accounts, ids[1..]);
      var tail := ActiveAccounts(accounts, ids[1..]);
      if ids[0] in accounts && accounts[ids[0]].status == Active {
        var r := [accounts[ids[0]]] + tail;
        assert forall k :: 0 <= k < |tail| ==> tail[k].id in ids[1..];
        assert forall k :: 0 <= k < |tail| ==> tail[k].id != ids[0];
        assert forall k :: 1 <= k < |r| ==> r[k] == tail[k - 1];
      }
    }
  }

  /** The table after `update_account_status_by_id`: only that row's status changes. */
  function WithStatus(accounts: map<int, Account>, id: int, s: AccountStatus): map<int, Account>
  {
    if id in accounts then accounts[id := accounts[id].(status := s)] else accounts
  }

  /** The table after `increment_messages`: only that row's counter goes up by one. */
  function WithMessageCounted(accounts: map<int, Account>, id: int): map<int, Account>
  {
    if id in accounts then accounts[id := accounts[id].(dailyMessages := accounts[id].dailyMessages + 1)] else accounts
  }

  /** The table after `update_session`: only that row's session string changes. */
  function WithSession(accounts: map<int, Account>, id: int, session: string): map<int, Account>
  {
    if id in accounts then accounts[id := accounts[id].(sessionString := Some(session))] else accounts
  }

  class AccountStore {
    var accounts: map<int, Account>
    var order: seq<int>
    var nextId: int

    /** Rows sit under their own id, every row appears once in query order, ids below nextId, phones unique. */
    ghost predicate Valid()
      reads this
    {
      && (forall id :: id in accounts ==> accounts[id].id == id && id < nextId && accounts[id].dailyMessages >= 0)
      && (forall k :: 0 <= k < |order| ==> order[k] in accounts)
      && (forall id :: id in accounts ==> id in order)
      && (forall i, j :: 0 <= i < j < |order| ==> order[i] != order[j])
      && PhonesUnique(accounts)
    }

    constructor ()
      ensures Valid() && accounts == map[] && order == []
    {
      accounts, order, nextId := map[], [], 0;
    }

    /** `create_account`: a new ACTIVE row with a zero counter, or None when the phone is taken. */
    method CreateAccount(phone: string) returns (r: Option<Account>)
      requires Valid()
      modifies this
      ensures Valid()
      ensures FindIdByPhone(old(accounts), old(order), phone).Some? ==>
                r == None && accounts == old(accounts) && order == old(order) && nextId == old(nextId)
      ensures FindIdByPhone(old(accounts), old(order), phone).None? ==>
                && r == Some(NewAccount(old(nextId), phone))
                && accounts == old(accounts)[old(nextId) := NewAccount(old(nextId), phone)]
                && order == old(order) + [old(nextId)]
                && nextId == old(nextId) + 1
    {
      if FindIdByPhone(accounts, order, phone).Some? {
        return None;
      }
      var a := NewAccount(nextId, phone);
      assert nextId !in accounts;
      accounts := accounts[nextId := a];
      order := order + [nextId];
      nextId := nextId + 1;
      r := Some(a);
    }

    /** `update_account_status_by_id`. */
    method UpdateStatusById(id: int, s: AccountStatus)
      requires Valid()
      modifies this
      ensures Valid() && order == old(order) && nextId == old(nextId)
      ensures accounts == WithStatus(old(accounts), id, s)
    {
      accounts := WithStatus(accounts, id, s);
    }

    /** `update_account_status` by phone: true exactly when a row with that phone exists. */
    method UpdateStatusByPhone(phone: string, s: AccountStatus) returns (ok: bool)
      requires Valid()
      modifies this
      ensures Valid() && order == old(order) && nextId == old(nextId)
      ensures var found := FindIdByPhone(old(accounts), old(order), phone);
              && ok == found.Some?
              && accounts == if ok then WithStatus(old(accounts), found.value, s) else old(accounts)
    {
      var found := FindIdByPhone(accounts, order, phone);
      ok := found.Some?;
      if ok {
        accounts := WithStatus(accounts, found.value, s);
      }
    }

    /** `update_session`: true exactly when the row exists. */
    method UpdateSession(id: int, session: string) returns (ok: bool)
      requires Valid()
      modifies this
      ensures Valid() && order == old(order) && nextId == old(nextId)
      ensures ok == (id in old(accounts)) && accounts == WithSession(old(accounts), id, session)
    {
      ok := id in accounts;
      accounts := WithSession(accounts, id, session);
    }

    /** `increment_messages`. */
    method IncrementMessages(id: int)
      requires Valid()
      modifies this
      ensures Valid() && order == old(order) && nextId == old(nextId)
      ensures accounts == WithMessageCounted(old(accounts), id)
    {
      accounts := WithMessageCounted(accounts, id);
    }
  }
}
