/**
 * The account manager (sales_bot/accounts/manager.py): enrols accounts,
 * authorises them, picks an account that may send, and sends through a cache
 * of connected clients.
 *
 * What the remote client does is an input to each operation (`connect()`,
 * the code request, `authorize()`, `send_message()`); the safety policy's
 * `can_send_message` is a decision handed in by the caller, and the calls to
 * its `record_message` are kept as a log.
 */
module Manager {
  import opened Wrappers
  import opened Models
  import opened Store

  /** What `connect()` on a fresh client did. */
  datatype ConnectResult = Connected | ConnectRefused | ConnectRaised

  /** What the client's `send_message()` did. */
  datatype SendResult = Delivered | NotDelivered | SendRaised

  /** What the client's `authorize(code)` did: the session string it produced, or an exception. */
  datatype AuthResult = SessionIssued(session: string) | AuthRaised

  /** A connected client, made for the account it was created with. */
  datatype Client = Client(account: Account)

  /**
   * The safety policy's `can_send_message`: a decision on the account, which
   * may depend on everything `record_message` has recorded so far.
   */
  type SafetyGate = (Account, seq<Account>) -> bool

  /** The test `get_available_account` applies to each candidate. */
  predicate Eligible(a: Account, maxDaily: int, gate: SafetyGate, recorded: seq<Account>)
  {
    IsAvailable(a, maxDaily) && gate(a, recorded)
  }

  /** The position of the first eligible account, or None when no account is eligible. */
  function FirstEligible(accts: seq<Account>, maxDaily: int, gate: SafetyGate, recorded: seq<Account>): (k: Option<nat>)
    ensures k.Some? ==>
              && k.value < |accts|
              && Eligible(accts[k.value], maxDaily, gate, recorded)
              && forall j :: 0 <= j < k.value ==> !Eligible(accts[j], maxDaily, gate, recorded)
    ensures k.None? <==> forall j :: 0 <= j < |accts| ==> !Eligible(accts[j], maxDaily, gate, recorded)
    decreases |accts|
  {
    if accts == [] then None
    else if Eligible(accts[0], maxDaily, gate, recorded) then Some(0)
    else match FirstEligible(accts[1..], maxDaily, gate, recorded)
      case None => None
      case Some(k) => Some(k + 1)
  }

  /** The outcome of `send_message`: the value returned and the new state. */
  datatype SendStep = SendStep(ok: bool, clients: map<int, Client>, accounts: map<int, Account>, recorded: seq<Account>)

  /** `send_message` from `account`, given what connecting and sending did. */
  function Send(clients: map<int, Client>, accounts: map<int, Account>, recorded: seq<Account>,
                account: Account, gate: SafetyGate, connect: ConnectResult, send: SendResult): (r: SendStep)
    // the cache only grows, and gains this account's client only after a successful connect
    ensures clients.Keys <= r.clients.Keys <= clients.Keys + {account.id}
    ensures forall id :: id in clients ==> r.clients[id] == clients[id]
    ensures account.id in r.clients <==> account.id in clients || connect == Connected
    // a send counts only if a client was at hand, the safety gate allowed it and the client delivered
    ensures r.ok <==> (account.id in clients || connect == Connected) && gate(account, recorded) && send == Delivered
    // a successful send increments the stored counter once and records the message once
    ensures r.ok ==> r.accounts == WithMessageCounted(accounts, account.id) && r.recorded == recorded + [account]
    // anything else counts nothing
    ensures !r.ok ==> r.accounts == accounts && r.recorded == recorded
  {
    var hit := account.id in clients;
    if !hit && connect != Connected then SendStep(false, clients, accounts, recorded)
    else
      var cached := if hit then clients else clients[account.id := Client(account)];
      if !gate(account, recorded) || send != Delivered then SendStep(false, cached, accounts, recorded)
      else SendStep(true, cached, WithMessageCounted(accounts, account.id), recorded + [account])
  }

  /** An ACTIVE account one message below the cap can send once more and then is no longer available. */
  lemma LastMessageExhaustsAccount(clients: map<int, Client>, accounts: map<int, Account>, recorded: seq<Account>,
                                   account: Account, gate: SafetyGate, connect: ConnectResult, maxDaily: int)
    requires account.id in accounts && accounts[account.id].status == Active
    requires accounts[account.id].dailyMessages == maxDaily - 1
    requires (account.id in clients || connect == Connected) && gate(account, recorded)
    ensures IsAvailable(accounts[account.id], maxDaily)
    ensures var r := Send(clients, accounts, recorded, account, gate, connect, Delivered);
            r.ok && !IsAvailable(r.accounts[account.id], maxDaily)
  {
  }

  /** The outcome of authorising: the value returned and the new table. */
  datatype AuthStep = AuthStep(ok: bool, accounts: map<int, Account>)

  /**
   * Authorisation as intended: find the account by phone, connect, exchange
   * the code for a session string and store it.
   */
  function Authorize(accounts: map<int, Account>, order: seq<int>, phone: string,
                     connect: ConnectResult, auth: AuthResult): (r: AuthStep)
    // a missing account, a failed connect, a failed exchange or an empty session string all give false and change nothing
    ensures !r.ok ==> r.accounts == accounts
    ensures r.ok <==> FindIdByPhone(accounts, order, phone).Some? && connect == Connected
                      && auth.SessionIssued? && auth.session != ""
    // on success exactly that account now holds the session string
    ensures r.ok ==> var id := FindIdByPhone(accounts, order, phone).value;
                     r.accounts == accounts[id := accounts[id].(sessionString := Some(auth.session))]
  {
    match FindIdByPhone(accounts, order, phone)
    case None => AuthStep(false, accounts)
    case Some(id) =>
      if connect != Connected then AuthStep(false, accounts)
      else match auth
        case AuthRaised => AuthStep(false, accounts)
        case SessionIssued(s) =>
          if s == "" then AuthStep(false, accounts)
          else AuthStep(id in accounts, WithSession(accounts, id, s))
  }

  /**
   * `authorize_account` as written: its first step reads `self.queries`,
   * which the constructor never sets, so it raises and the handler returns
   * false whatever the inputs.
   */
  function AuthorizeAsWritten(accounts: map<int, Account>, order: seq<int>, phone: string,
                              connect: ConnectResult, auth: AuthResult): (r: AuthStep)
    ensures !r.ok && r.accounts == accounts
  {
    AuthStep(false, accounts)
  }

  /** An enrolled account with a valid code is refused by the code as written, though the intended flow accepts it. */
  lemma AuthorizeAsWrittenRejectsValidCode(accounts: map<int, Account>, order: seq<int>, phone: string, session: string)
    requires FindIdByPhone(accounts, order, phone).Some?
    requires session != ""
    ensures Authorize(accounts, order, phone, Connected, SessionIssued(session)).ok
    ensures !AuthorizeAsWritten(accounts, order, phone, Connected, SessionIssued(session)).ok
  {
  }

  class AccountManager {
    const db: AccountStore
    var activeClients: map<int, Client>
    var recorded: seq<Account>

    /** The table is consistent and every cached client belongs to the account it is cached under. */
    ghost predicate Valid()
      reads this, db
    {
      && db.Valid()
      && forall id :: id in activeClients ==> activeClients[id].account.id == id
    }

    constructor (db: AccountStore)
      requires db.Valid()
      ensures Valid() && this.db == db
      ensures activeClients == map[] && recorded == []
    {
      this.db := db;
      activeClients := map[];
      recorded := [];
    }

    /**
     * `add_account`: creates the row, connects a fresh client and asks for a
     * login code. The client is not cached. Once created, the row stays even
     * when a later step fails and None is returned.
     */
    method AddAccount(phone: string, connect: ConnectResult, codeRequested: bool) returns (r: Option<Account>)
      requires Valid()
      modifies db
      ensures Valid() && db.order == old(db.order) + (if db.nextId == old(db.nextId) then [] else [old(db.nextId)])
      ensures FindIdByPhone(old(db.accounts), old(db.order), phone).Some? ==>
                r == None && db.accounts == old(db.accounts) && db.nextId == old(db.nextId)
      ensures FindIdByPhone(old(db.accounts), old(db.order), phone).None? ==>
                && db.accounts == old(db.accounts)[old(db.nextId) := NewAccount(old(db.nextId), phone)]
                && db.nextId == old(db.nextId) + 1
                && (r.Some? <==> connect == Connected && codeRequested)
                && (r.Some? ==> r.value == NewAccount(old(db.nextId), phone))
    {
      var created := db.CreateAccount(phone);
      if created.None? {
        return None;
      }
      if connect != Connected {
        return None;
      }
      if !codeRequested {
        return None;
      }
      r := created;
    }

    /** `authorize_account`, corrected so that it reads the table through the store like the other operations. */
    method AuthorizeAccount(phone: string, connect: ConnectResult, auth: AuthResult) returns (ok: bool)
      requires Valid()
      modifies db
      ensures Valid() && db.order == old(db.order) && db.nextId == old(db.nextId)
      ensures var step := Authorize(old(db.accounts), old(db.order), phone, connect, auth);
              ok == step.ok && db.accounts == step.accounts
    {
      var found := FindIdByPhone(db.accounts, db.order, phone);
      if found.None? {
        return false;
      }
      if connect != Connected {
        return false;
      }
      if auth.AuthRaised? || auth.session == "" {
        return false;
      }
      ok := db.UpdateSession(found.value, auth.session);
    }

    /**
     * `get_available_account`: the first ACTIVE account, in query order, that
     * is available and that the safety policy lets send; None when there is none.
     */
    method GetAvailableAccount(maxDaily: int, gate: SafetyGate) returns (r: Option<Account>)
      ensures var accts := ActiveAccounts(db.accounts, db.order);
              var k := FirstEligible(accts, maxDaily, gate, recorded);
              && (k.None? ==> r == None)
              && (k.Some? ==> r == Some(accts[k.value]))
      ensures r.Some? ==> Eligible(r.value, maxDaily, gate, recorded) && r.value in db.accounts.Values
    {
      var accounts := ActiveAccounts(db.accounts, db.order);
      var i := 0;
      while i < |accounts|
        invariant 0 <= i <= |accounts|
        invariant forall j :: 0 <= j < i ==> !Eligible(accounts[j], maxDaily, gate, recorded)
      {
        if IsAvailable(accounts[i], maxDaily) && gate(accounts[i], recorded) {
          return Some(accounts[i]);
        }
        i := i + 1;
      }
      return None;
    }

    /** Selecting twice with nothing in between gives the same account: selection has no side effect. */
    method SelectTwice(maxDaily: int, gate: SafetyGate) returns (first: Option<Account>, second: Option<Account>)
      ensures first == second
    {
      first := GetAvailableAccount(maxDaily, gate);
      second := GetAvailableAccount(maxDaily, gate);
    }

    /**
     * `send_message`: uses the cached client or connects and caches a new
     * one, asks the safety policy, sends, and on a confirmed send increments
     * the stored counter and records the message. It does not re-check
     * `is_available`.
     */
    method SendMessage(account: Account, gate: SafetyGate, connect: ConnectResult, send: SendResult) returns (ok: bool)
      requires Valid()
      modifies this, db
      ensures Valid() && db.order == old(db.order) && db.nextId == old(db.nextId)
      ensures var step := Send(old(activeClients), old(db.accounts), old(recorded), account, gate, connect, send);
              && ok == step.ok
              && activeClients == step.clients
              && db.accounts == step.accounts
              && recorded == step.recorded
    {
      if account.id !in activeClients {
        if connect != Connected {
          return false;
        }
        activeClients := activeClients[account.id := Client(account)];
      }
      if !gate(account, recorded) {
        return false;
      }
      if send != Delivered {
        return false;
      }
      db.IncrementMessages(account.id);
      recorded := recorded + [account];
      ok := true;
    }

    /** `update_account_status`: sets the status of the account with that phone; false when there is none. */
    method UpdateAccountStatus(phone: string, status: AccountStatus) returns (ok: bool)
      requires Valid()
      modifies db
      ensures Valid() && db.order == old(db.order) && db.nextId == old(db.nextId)
      ensures var found := FindIdByPhone(old(db.accounts), old(db.order), phone);
              && ok == found.Some?
              && (ok ==> db.accounts == old(db.accounts)[found.value := old(db.accounts)[found.value].(status := status)])
              && (!ok ==> db.accounts == old(db.accounts))
    {
      ok := db.UpdateStatusByPhone(phone, status);
    }
  }
}
