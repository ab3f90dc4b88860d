# Account pool safety engine

A Dafny model of the part of the sales bot that manages its pool of Telegram
accounts:

- **The account record** (`sales_bot/db/models.py`). It has a closed status type
  (ACTIVE, DISABLED, BLOCKED), a daily message counter and the availability rule
  `is_available`. An account is available when it is ACTIVE and below the daily
  cap.
- **The account manager** (`sales_bot/accounts/manager.py`). It enrols and
  authorises accounts and selects the first account that may send. It sends
  through a cache of connected clients. Only a confirmed send increments the
  stored counter and records the message with the safety policy.
- **The account monitor** (`sales_bot/accounts/monitoring.py`). It probes
  accounts. A ban signal blocks the account at once. Three consecutive other
  errors disable it. A success clears the error counter. A sweep over all
  ACTIVE accounts reports `{total, active, disabled, blocked}`.

Files:

- `wrappers.dfy`: the Option type.
- `models.dfy`: the record and `IsAvailable`.
- `store.dfy`: the accounts table as seen through the query layer. It is a map
  from id to row, plus the order in which queries return rows. The query layer
  itself is not part of this model; `store.dfy` gives the contract its call
  sites rely on.
- `manager.dfy`: the `AccountManager` class and the pure functions that specify
  its operations.
- `monitoring.dfy`: the `AccountMonitor` class and the pure functions that
  specify its operations.

Both classes work on one shared `AccountStore` object. Their methods are proved
equal to pure specification functions (`Send`, `Authorize`, `Check`,
`MarkBlocked`, `MarkDisabled`, `Sweep`). The properties of the source are stated
on those functions and in lemmas.

Inputs that stand for things outside the core:

- The remote client's behaviour is an input to each operation: `ConnectResult`,
  `SendResult`, `AuthResult`, and `Probe` for the monitor. A sweep takes one
  probe outcome per account id.
- The safety policy's `can_send_message` is a `SafetyGate` handed in by the
  caller. It decides on the account and on the messages recorded so far. The
  calls to `record_message` are kept in the manager's `recorded` log.
- The notifier is a log of `Notice` values.
- `MAX_DAILY_MESSAGES` comes from configuration that is not part of this model.
  It is the parameter `maxDaily`.

Notes on the code as written:

- `send_message` does not re-check `is_available`. It asks only the safety
  policy.
- `_mark_account_disabled` clears the error counter only when the account is
  found in the table.
- The sweep counts every failed check whose account does not read BLOCKED under
  "disabled". This includes an account that failed once and is still ACTIVE
  (`BucketOf`).
- `authorize_account` as written always returns false (see Findings).

## Model

| member | source | states |
|---|---|---|
| `Models.ParseStatus` | sales_bot/db/models.py:11-16 | the lookup `AccountStatus(v)`: a value that is found gives the member with that value; text other than the three values "active", "disabled" and "blocked" is no status |
| `Models.StatusRoundTrip` | sales_bot/db/models.py:11-16 | each member's value looks up to that member, so the three values are distinct |
| `Models.IsAvailable` | sales_bot/db/models.py:64-72 | a DISABLED or BLOCKED account is never available; an account at or over the cap is never available; an ACTIVE account under the cap is available. It is a pure function, so two evaluations agree |
| `Models.CapBoundary` | sales_bot/db/models.py:69-72 | the cap is strict: an ACTIVE account with cap-1 messages is available and one with cap messages is not |
| `Models.NewAccount` | sales_bot/db/models.py:52-58 | a new row has the given id and phone, no session string, status ACTIVE and zero messages (the column defaults); as a consequence it is available exactly when the cap is positive |
| `Store.AccountStore.CreateAccount` | sales_bot/db/models.py:52-58 | a phone already in the table gives None and changes nothing; otherwise a new ACTIVE row with zero messages and no session string is added under a fresh id. The table keeps at most one row per phone |
| `Manager.FirstEligible` | sales_bot/accounts/manager.py:74-78 | returns the position of an account that is available and allowed by the safety gate, with no such account before it; returns None exactly when no account qualifies |
| `Manager.AccountManager.GetAvailableAccount` | sales_bot/accounts/manager.py:68-78 | returns the first ACTIVE row, in query order, that is available and allowed by the gate; returns None when there is none; changes nothing |
| `Manager.AccountManager.SelectTwice` | sales_bot/accounts/manager.py:68-78 | two selections with nothing in between return the same account |
| `Manager.Send` | sales_bot/accounts/manager.py:80-110 | the client cache only grows. It gains the account's client exactly on a miss with a successful connect, and keeps it when the gate or the send then fails. A send succeeds iff a client was at hand, the gate allowed it and the client delivered. Only then is the stored counter incremented once and the message recorded once; on any failure nothing is counted (the safety policy never raises, see Left out) |
| `Manager.AccountManager.SendMessage` | sales_bot/accounts/manager.py:80-110 | the returned value, the new cache, the new table and the new safety record are those `Send` gives; the table stays consistent and each cached client belongs to its key |
| `Manager.LastMessageExhaustsAccount` | sales_bot/accounts/manager.py:96-104 | an ACTIVE account one message below the cap, with a cached client or a successful connect and the gate's approval, is available, sends successfully, and is then no longer available |
| `Manager.Authorize` | sales_bot/accounts/manager.py:43-66 | authorisation succeeds iff the phone has an account, connect succeeds and the code exchange gives a non-empty session string. On success only that account's session string changes; on failure nothing changes |
| `Manager.AuthorizeAsWritten` | sales_bot/accounts/manager.py:43-66 | as written the operation returns false and changes nothing, whatever its inputs |
| `Manager.AuthorizeAsWrittenRejectsValidCode` | sales_bot/accounts/manager.py:15-18 | for an enrolled phone and a valid code the intended flow succeeds while the code as written returns false |
| `Manager.AccountManager.AuthorizeAccount` | sales_bot/accounts/manager.py:43-66 | the corrected operation returns and stores what `Authorize` gives |
| `Manager.AccountManager.AddAccount` | sales_bot/accounts/manager.py:20-41 | a taken phone gives None and changes nothing. Otherwise a new ACTIVE row with zero messages is created, and it stays even when connect or the code request then fails and None is returned. The new account is returned exactly when both succeed. The client cache is untouched |
| `Manager.AccountManager.UpdateAccountStatus` | sales_bot/accounts/manager.py:112-122 | returns true exactly when an account has that phone, and then sets only that account's status |
| `Manager.AccountManager.constructor` | sales_bot/accounts/manager.py:15-18 | a new manager starts with an empty client cache and nothing recorded |
| `Monitoring.MarkBlocked` | sales_bot/accounts/monitoring.py:96-105 | drops the error counter even when the account is missing. It sets the account BLOCKED when present, notifies in either case, and changes no other account or counter |
| `Monitoring.MarkDisabled` | sales_bot/accounts/monitoring.py:107-116 | a missing account changes nothing. A present account becomes DISABLED, is notified and loses its counter. No other account or counter changes |
| `Monitoring.Check` | sales_bot/accounts/monitoring.py:25-71 | returns true iff the probe succeeded, and a success clears the counter. A false connect or empty identity changes nothing. A ban signal blocks at once whatever the count, clears the counter and sends one blocked notice. Any other exception adds exactly one: below 3 nothing else changes, and at 3 or more a present account becomes DISABLED, loses its counter and is notified once. Nothing is ever set ACTIVE, other accounts are untouched, and counters of accounts in the table stay below 3 |
| `Monitoring.AccountMonitor.MarkAccountBlocked` | sales_bot/accounts/monitoring.py:96-105 | the new counters, table and notices are those `MarkBlocked` gives |
| `Monitoring.AccountMonitor.MarkAccountDisabled` | sales_bot/accounts/monitoring.py:107-116 | the new counters, table and notices are those `MarkDisabled` gives |
| `Monitoring.AccountMonitor.CheckAccount` | sales_bot/accounts/monitoring.py:25-71 | the returned value and the new state are those `Check` gives |
| `Monitoring.ThreeStrikesDisable` | sales_bot/accounts/monitoring.py:55-66 | three consecutive non-terminal errors, starting from no recorded errors, leave the table alone twice (count 1, then 2). The third disables the account and clears its counter |
| `Monitoring.SuccessForgivesErrors` | sales_bot/accounts/monitoring.py:40-68 | a success after two errors clears the counter and changes no status |
| `Monitoring.Tally` | sales_bot/accounts/monitoring.py:85-90 | one sweep step adds one to exactly one of active, disabled and blocked and leaves the other two as they were (so their sum rises by one), only sets statuses to BLOCKED or DISABLED, and leaves every other account alone |
| `Monitoring.Sweep` | sales_bot/accounts/monitoring.py:84-90 | after a sweep over n accounts, active + disabled + blocked == n, and every status is unchanged or set to BLOCKED or DISABLED |
| `Monitoring.SweepLeavesOthers` | sales_bot/accounts/monitoring.py:84-90 | a sweep does not change any account outside the swept ones |
| `Monitoring.TallyBucket` | sales_bot/accounts/monitoring.py:85-90 | checking one ACTIVE account counts it as active on success, as blocked on a ban signal, and as disabled otherwise |
| `Monitoring.SweepBuckets` | sales_bot/accounts/monitoring.py:78-90 | over distinct accounts that are ACTIVE when the sweep starts, each tally is the number of accounts whose probe lands in its bucket |
| `Monitoring.AccountMonitor.CheckAndCount` | sales_bot/accounts/monitoring.py:85-90 | one iteration of the sweep loop: the new state and tallies are those `Tally` gives |
| `Monitoring.AccountMonitor.CheckAllAccounts` | sales_bot/accounts/monitoring.py:73-94 | total is the number of ACTIVE accounts read, and total == active + disabled + blocked. Each tally counts the accounts whose probe lands in its bucket. The new state is the sweep's, followed by one status report carrying the returned tallies |
| `Monitoring.AccountMonitor.constructor` | sales_bot/accounts/monitoring.py:19-23 | a new monitor starts with no error counters and no notices |

## Findings

| source | as written | input that shows it | evidently intended | confidence | as-written member | corrected member |
|---|---|---|---|---|---|---|
| sales_bot/accounts/manager.py:46 | `authorize_account` reads `self.queries`, which `__init__` (lines 15-18) never sets. The attribute error is caught and false is returned on every call | any call, e.g. an enrolled phone, a successful connect and a code that yields a non-empty session string | look the account up by phone through a store session, connect, exchange the code and store the session string | high (not executed) | `Manager.AuthorizeAsWritten` (shown by `Manager.AuthorizeAsWrittenRejectsValidCode`) | `Manager.Authorize`, `Manager.AccountManager.AuthorizeAccount` |

## Left out

- The remote client (`AccountClient`), the safety policy (`AccountSafety`), the
  query layer (`AccountQueries`, `get_db`) and the notifier (`AccountNotifier`)
  are not part of this model. Their behaviour is an input, a parameter or a log,
  as described above.
- Failures of the table itself are not modelled: `store.dfy` never raises. As a
  result, `get_available_account` (which has no handler) never raises in the
  model, and neither does a failing `increment_messages` after a delivered send.
- The safety policy and the notifier never raise in the model. A raising
  notifier call escapes `check_account` and ends the sweep without its status
  report (sales_bot/accounts/monitoring.py:52, 63-65 and 93). A raising
  `can_send_message` escapes `get_available_account`
  (sales_bot/accounts/manager.py:75).
- Manager.Send: "on any failure nothing is counted" holds only because
  `record_message` never raises in the model. In the source, a raising
  `record_message` makes `send_message` return false after the counter was
  already incremented (sales_bot/accounts/manager.py:101-110).
- The database's enum mapping (sales_bot/db/models.py:36-38) stores the member names
  ("ACTIVE", ...), not their values. The model keeps only the values, which
  is what `is_available` compares against.
- The message text and target username passed to the client are not modelled;
  only the send's outcome matters here.
- `finally: await client.disconnect()` in `check_account` is not modelled; it is
  I/O. So is the case where `AccountClient(account)` itself raises, which leaves
  `client` unbound in that `finally`.
- Which status the sweep reads at line 87 depends on the ORM keeping the fetched
  object in step with the status update. The query layer is not part of this
  model. The model reads the account's status from the table after its check.
- `daily_messages` is modelled as an unbounded integer. The column's 32-bit
  width and its nullability are not modelled.
- Timestamps, logging, SQL indexes, the PostgreSQL enum mapping, ORM
  relationships and the dialog and message tables are left out. They play no
  part in these operations.
- async/await is modelled as sequential calls. The code has no locking, and
  neither does the model.
