/**
 * The account record and its availability rule (sales_bot/db/models.py).
 * Only the columns the account pool reads or writes are kept; timestamps,
 * relationships and the dialog and message tables play no part here.
 */
module Models {
  import opened Wrappers

  /** Lifecycle status of an account: a closed type with exactly three values. */
  datatype AccountStatus = Active | Disabled | Blocked

  /** The value of each member of the string enum `AccountStatus`. */
  function StatusValue(s: AccountStatus): string
  {
    match s
    case Active => "active"
    case Disabled => "disabled"
    case Blocked => "blocked"
  }

  /** The lookup `AccountStatus(v)` by value; any other text is not a status. */
  function ParseStatus(v: string): (r: Option<AccountStatus>)
    ensures r.Some? ==> StatusValue(r.value) == v
    ensures r.None? ==> forall s: AccountStatus :: StatusValue(s) != v
  {
    if v == "active" then Some(Active)
    else if v == "disabled" then Some(Disabled)
    else if v == "blocked" then Some(Blocked)
    else None
  }

  /** Each status's value looks up to that status, so the three values are distinct. */
  lemma StatusRoundTrip(s: AccountStatus)
    ensures ParseStatus(StatusValue(s)) == Some(s)
  {
  }

  /**
   * One row of the accounts table. `phone` is non-null and unique across the
   * table; `sessionString` stays None until the account is authorised.
   */
  datatype Account = Account(
    id: int,
    phone: string,
    sessionString: Option<string>,
    status: AccountStatus,
    dailyMessages: int)

  /**
   * `is_available`: the account may be used for sending. `maxDaily` is the
   * configured MAX_DAILY_MESSAGES.
   */
  function IsAvailable(a: Account, maxDaily: int): (r: bool)
    ensures a.status != Active ==> !r
    ensures a.dailyMessages >= maxDaily ==> !r
    ensures a.status == Active && a.dailyMessages < maxDaily ==> r
  {
    a.status == Active && a.dailyMessages < maxDaily
  }

  /** The cap is strict: one message below it is still available, at it no longer. */
  lemma CapBoundary(a: Account, maxDaily: int)
    requires a.status == Active
    ensures IsAvailable(a.(dailyMessages := maxDaily - 1), maxDaily)
    ensures !IsAvailable(a.(dailyMessages := maxDaily), maxDaily)
  {
  }

  /** A freshly created row: the column defaults give status ACTIVE and a zero message count. */
  function NewAccount(id: int, phone: string): (a: Account)
    ensures a.id == id && a.phone == phone && a.sessionString == None
    ensures a.status == Active && a.dailyMessages == 0
    ensures forall maxDaily :: IsAvailable(a, maxDaily) <==> 0 < maxDaily
  {
    Account(id, phone, None, Active, 0)
  }

  /** At most one row per phone number (the unique constraint on `phone`). */
  ghost predicate PhonesUnique(accounts: map<int, Account>)
  {
    forall i, j :: i in accounts && j in accounts && accounts[i].phone == accounts[j].phone ==> i == j
  }
}
