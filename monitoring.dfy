/**
 * The health monitor (sales_bot/accounts/monitoring.py): probes accounts,
 * blocks an account at once on a terminal signal, disables it after three
 * consecutive other errors, and tallies a sweep over the active accounts.
 *
 * The remote probe is an input: what `connect()` and `get_me()` did, or which
 * exception one of them raised. The notifier is a log of the calls made to it.
 */
module Monitoring {
  import opened Wrappers
  import opened Models
  import opened Store

  /** Exceptions a probe can raise: the four ban signals, and anything else. */
  datatype Error =
    | UserDeactivated
    | SessionRevoked
    | AuthKeyUnregistered
    | UserDeactivatedBan
    | OtherError(name: string)

  /** The four ban signals the handler at lines 44-49 catches. */
  predicate IsTerminal(e: Error)
  {
    !e.OtherError?
  }

  /** What one probe of an account did. */
  datatype Probe =
    | ConnectFailed     // connect() returned a false value
    | NoIdentity        // get_me() returned a false value
    | Identity          // get_me() returned the account's own user
    | Raised(error: Error)

  /** Consecutive errors at which an account is disabled. */
  const DisableThreshold: nat := 3

  /** The report sent after a sweep. */
  datatype Stats = Stats(total: nat, active: nat, disabled: nat, blocked: nat)

  /** Calls made to the notifier. `found` says whether the blocked account was in the table. */
  datatype Notice =
    | BlockedNotice(id: int, found: bool, cause: Error)
    | DisabledNotice(id: int, cause: Error)
    | StatusReport(stats: Stats)

  /** What the monitor's operations read and write: its error counters, the table, the notifier log. */
  datatype Health = Health(counts: map<int, nat>, accounts: map<int, Account>, notices: seq<Notice>)

  /** The error count kept for an id; absent means zero. */
  function CountOf(counts: map<int, nat>, id: int): nat
  {
    if id in counts then counts[id] else 0
  }

  /**
   * The table after a step has the same rows as before, and each row is
   * unchanged or has its status set to BLOCKED or DISABLED (whatever it was).
   */
  ghost predicate OnlyDeactivated(before: map<int, Account>, after: map<int, Account>)
  {
    && before.Keys == after.Keys
    && forall id :: id in after ==>
         || after[id] == before[id]
         || after[id] == before[id].(status := Blocked)
         || after[id] == before[id].(status := Disabled)
  }

  /** No account in the table has reached the threshold without being disabled. */
  ghost predicate BelowThreshold(h: Health)
  {
    forall id :: id in h.counts && id in h.accounts ==> h.counts[id] < DisableThreshold
  }

  /**
   * `_mark_account_blocked`: sets the row to BLOCKED if it exists, notifies
   * either way, and drops the error counter either way.
   */
  function MarkBlocked(h: Health, id: int, cause: Error): (r: Health)
    ensures id !in r.counts
    ensures forall other :: other != id ==> (other in r.counts <==> other in h.counts)
    ensures forall other :: other in r.counts ==> r.counts[other] == h.counts[other]
    ensures id in h.accounts ==> id in r.accounts && r.accounts[id].status == Blocked
    ensures OnlyDeactivated(h.accounts, r.accounts)
    ensures forall other :: other in h.accounts && other != id ==> r.accounts[other] == h.accounts[other]
    ensures r.notices == h.notices + [BlockedNotice(id, id in h.accounts, cause)]
  {
    Health(h.counts - {id}, WithStatus(h.accounts, id, Blocked), h.notices + [BlockedNotice(id, id in h.accounts, cause)])
  }

  /**
   * `_mark_account_disabled`: only when the row exists does it set DISABLED,
   * notify and drop the error counter; otherwise nothing changes.
   */
  function MarkDisabled(h: Health, id: int, cause: Error): (r: Health)
    ensures OnlyDeactivated(h.accounts, r.accounts)
    ensures id !in h.accounts ==> r == h
    ensures id in h.accounts ==>
              && id !in r.counts
              && r.accounts[id].status == Disabled
              && r.notices == h.notices + [DisabledNotice(id, cause)]
    ensures forall other :: other != id ==> (other in r.counts <==> other in h.counts)
    ensures forall other :: other in r.counts ==> r.counts[other] == h.counts[other]
    ensures forall other :: other in h.accounts && other != id ==> r.accounts[other] == h.accounts[other]
  {
    if id in h.accounts then
      Health(h.counts - {id}, WithStatus(h.accounts, id, Disabled), h.notices + [DisabledNotice(id, cause)])
    else h
  }

  /** The outcome of `check_account`: the new state and the value returned. */
  datatype Checked = Checked(health: Health, ok: bool)

  /** `check_account` on one account, given what its probe did. */
  function Check(h: Health, account: Account, probe: Probe): (r: Checked)
    // nothing is ever set ACTIVE, and no row appears or disappears
    ensures OnlyDeactivated(h.accounts, r.health.accounts)
    // only the success path returns True
    ensures r.ok <==> probe == Identity
    // a success clears the counter and touches nothing else
    ensures probe == Identity ==>
              r.health == h.(counts := h.counts - {account.id})
    // a false connect() or an empty get_me() changes nothing: only exceptions count
    ensures probe == ConnectFailed || probe == NoIdentity ==> r.health == h
    // a ban signal blocks at once, whatever the count was, and clears the counter
    ensures probe.Raised? && IsTerminal(probe.error) ==>
              && account.id !in r.health.counts
              && (account.id in h.accounts ==> r.health.accounts[account.id].status == Blocked)
              && r.health.notices == h.notices + [BlockedNotice(account.id, account.id in h.accounts, probe.error)]
    // any other exception adds exactly one; below the threshold the table is untouched
    ensures probe.Raised? && !IsTerminal(probe.error) && CountOf(h.counts, account.id) + 1 < DisableThreshold ==>
              && r.health.counts == h.counts[account.id := CountOf(h.counts, account.id) + 1]
              && r.health.accounts == h.accounts
              && r.health.notices == h.notices
    // reaching the threshold disables the account and clears the counter
    ensures probe.Raised? && !IsTerminal(probe.error) && CountOf(h.counts, account.id) + 1 >= DisableThreshold ==>
              if account.id in h.accounts then
                && account.id !in r.health.counts
                && r.health.accounts[account.id].status == Disabled
                && r.health.notices == h.notices + [DisabledNotice(account.id, probe.error)]
              else
                r.health.counts == h.counts[account.id := CountOf(h.counts, account.id) + 1] && r.health == h.(counts := r.health.counts)
    // other accounts are left alone
    ensures forall id :: id in h.accounts && id != account.id ==> r.health.accounts[id] == h.accounts[id]
    ensures forall id :: id != account.id ==> (id in r.health.counts <==> id in h.counts)
    ensures forall id :: id in r.health.counts && id != account.id ==> r.health.counts[id] == h.counts[id]
    // the counters of accounts in the table stay below the threshold
    ensures BelowThreshold(h) ==> BelowThreshold(r.health)
  {
    match probe
    case ConnectFailed => Checked(h, false)
    case NoIdentity => Checked(h, false)
    case Identity => Checked(h.(counts := h.counts - {account.id}), true)
    case Raised(e) =>
      if IsTerminal(e) then Checked(MarkBlocked(h, account.id, e), false)
      else
        var n := CountOf(h.counts, account.id) + 1;
        var counted := h.(counts := h.counts[account.id := n]);
        if n >= DisableThreshold then Checked(MarkDisabled(counted, account.id, e), false)
        else Checked(counted, false)
  }

  /** The status `check_all_accounts` sees on the swept account after its check. */
  function StatusSeen(accounts: map<int, Account>, a: Account): AccountStatus
  {
    if a.id in accounts then accounts[a.id].status else a.status
  }

  /** The three buckets of the sweep report. */
  datatype Bucket = ActiveBucket | DisabledBucket | BlockedBucket

  /**
   * The bucket a probe lands an ACTIVE account in: a success is active, a ban
   * signal blocked, and everything else - including a single transient error
   * that leaves the account ACTIVE - disabled.
   */
  function BucketOf(p: Probe): Bucket
  {
    if p == Identity then ActiveBucket
    else if p.Raised? && IsTerminal(p.error) then BlockedBucket
    else DisabledBucket
  }

  /** How many of the accounts land in bucket `b`. */
  function CountBucket(accts: seq<Account>, probe: int -> Probe, b: Bucket): (n: nat)
    ensures n <= |accts|
    decreases |accts|
  {
    if accts == [] then 0
    else CountBucket(accts[..|accts| - 1], probe, b) + (if BucketOf(probe(accts[|accts| - 1].id)) == b then 1 else 0)
  }

  /** The state and tallies after checking a prefix of the swept accounts. */
  datatype Swept = Swept(health: Health, active: nat, disabled: nat, blocked: nat)

  /**
   * One iteration of the sweep: check `a`, then count it as active if the
   * check succeeded, as blocked if its status now reads BLOCKED, and as
   * disabled otherwise.
   */
  function Tally(prev: Swept, a: Account, p: Probe): (r: Swept)
    ensures r.active + r.disabled + r.blocked == prev.active + prev.disabled + prev.blocked + 1
    ensures || (r.active == prev.active + 1 && r.disabled == prev.disabled && r.blocked == prev.blocked)
            || (r.active == prev.active && r.disabled == prev.disabled + 1 && r.blocked == prev.blocked)
            || (r.active == prev.active && r.disabled == prev.disabled && r.blocked == prev.blocked + 1)
    ensures OnlyDeactivated(prev.health.accounts, r.health.accounts)
    ensures forall id :: id in prev.health.accounts && id != a.id ==> r.health.accounts[id] == prev.health.accounts[id]
  {
    var c := Check(prev.health, a, p);
    if c.ok then prev.(health := c.health, active := prev.active + 1)
    else if StatusSeen(c.health.accounts, a) == Blocked then prev.(health := c.health, blocked := prev.blocked + 1)
    else prev.(health := c.health, disabled := prev.disabled + 1)
  }

  /**
   * The loop of `check_all_accounts` over `accts`, each account probed as
   * `probe` says: every account adds one to exactly one tally, and only the
   * swept accounts can change status.
   */
  function Sweep(h: Health, accts: seq<Account>, probe: int -> Probe): (r: Swept)
    ensures r.active + r.disabled + r.blocked == |accts|
    ensures OnlyDeactivated(h.accounts, r.health.accounts)
    decreases |accts|
  {
    if accts == [] then Swept(h, 0, 0, 0)
    else
      var a := accts[|accts| - 1];
      Tally(Sweep(h, accts[..|accts| - 1], probe), a, probe(a.id))
  }

  /** The sweep changes no account outside the swept ones. */
  lemma {:induction false} SweepLeavesOthers(h: Health, accts: seq<Account>, probe: int -> Probe, id: int)
    requires id in h.accounts
    requires forall k :: 0 <= k < |accts| ==> accts[k].id != id
    ensures Sweep(h, accts, probe).health.accounts[id] == h.accounts[id]
    decreases |accts|
  {
    if accts != [] {
      var pre := accts[..|accts| - 1];
      assert forall k :: 0 <= k < |pre| ==> pre[k] == accts[k];
      SweepLeavesOthers(h, pre, probe, id);
    }
  }

  /** The sweep over one more account is one more Tally step. */
  lemma SweepStep(h: Health, accts: seq<Account>, i: nat, probe: int -> Probe)
    requires i < |accts|
    ensures Sweep(h, accts[..i + 1], probe) == Tally(Sweep(h, accts[..i], probe), accts[i], probe(accts[i].id))
  {
    assert accts[..i + 1][..i] == accts[..i];
  }

  /** Checking one ACTIVE account in the table lands it in the bucket its probe names. */
  lemma TallyBucket(prev: Swept, a: Account, p: Probe)
    requires a.id in prev.health.accounts && prev.health.accounts[a.id].status == Active
    ensures var r := Tally(prev, a, p);
            && r.active == prev.active + (if BucketOf(p) == ActiveBucket then 1 else 0)
            && r.disabled == prev.disabled + (if BucketOf(p) == DisabledBucket then 1 else 0)
            && r.blocked == prev.blocked + (if BucketOf(p) == BlockedBucket then 1 else 0)
  {
  }


  /**
   * Three consecutive non-terminal errors on an account in the table, starting
   * from no recorded errors, leave the table alone twice and then disable the
   * account and clear its counter.
   */
  lemma ThreeStrikesDisable(h: Health, a: Account, e1: Error, e2: Error, e3: Error)
    requires a.id in h.accounts && a.id !in h.counts
    requires !IsTerminal(e1) && !IsTerminal(e2) && !IsTerminal(e3)
    ensures var h1 := Check(h, a, Raised(e1)).health;
            var h2 := Check(h1, a, Raised(e2)).health;
            var h3 := Check(h2, a, Raised(e3)).health;
            && h1.accounts == h.accounts && CountOf(h1.counts, a.id) == 1
            && h2.accounts == h.accounts && CountOf(h2.counts, a.id) == 2
            && a.id !in h3.counts && h3.accounts[a.id].status == Disabled
  {
  }

  /** A success after two errors resets the counter without any status change. */
  lemma SuccessForgivesErrors(h: Health, a: Account, e1: Error, e2: Error)
    requires a.id !in h.counts
    requires !IsTerminal(e1) && !IsTerminal(e2)
    ensures var h1 := Check(h, a, Raised(e1)).health;
            var h2 := Check(h1, a, Raised(e2)).health;
            var h3 := Check(h2, a, Identity).health;
            && h3.accounts == h.accounts
            && a.id !in h3.counts
  {
  }

  /**
   * Over distinct accounts that are all ACTIVE in the table when the sweep
   * starts, each tally counts exactly the accounts whose probe lands in its
   * bucket: one check never disturbs the status of another account.
   */
  lemma {:induction false} SweepBuckets(h: Health, accts: seq<Account>, probe: int -> Probe)
    requires DistinctIds(accts)
    requires forall k :: 0 <= k < |accts| ==> accts[k].id in h.accounts && h.accounts[accts[k].id].status == Active
    ensures var r := Sweep(h, accts, probe);
            && r.active == CountBucket(accts, probe, ActiveBucket)
            && r.disabled == CountBucket(accts, probe, DisabledBucket)
            && r.blocked == CountBucket(accts, probe, BlockedBucket)
    decreases |accts|
  {
    if accts != [] {
      var pre := accts[..|accts| - 1];
      var a := accts[|accts| - 1];
      assert DistinctIds(pre) && forall k :: 0 <= k < |pre| ==> pre[k].id in h.accounts && h.accounts[pre[k].id].status == Active by {
        assert forall k :: 0 <= k < |pre| ==> pre[k] == accts[k];
      }
      SweepBuckets(h, pre, probe);
      var prev := Sweep(h, pre, probe);
      assert forall k :: 0 <= k < |pre| ==> pre[k].id != a.id;
      SweepLeavesOthers(h, pre, probe, a.id);
      TallyBucket(prev, a, probe(a.id));
    }
  }

  class AccountMonitor {
    const db: AccountStore
    var errorCounts: map<int, nat>
    var notices: seq<Notice>

    ghost predicate Valid()
      reads this, db
    {
      db.Valid()
    }

    /** The monitor's view of the world, as the specification functions take it. */
    ghost function State(): Health
      reads this, db
    {
      Health(errorCounts, db.accounts, notices)
    }

    constructor (db: AccountStore)
      requires db.Valid()
      ensures Valid() && this.db == db
      ensures errorCounts == map[] && notices == []
    {
      this.db := db;
      errorCounts := map[];
      notices := [];
    }

    method MarkAccountBlocked(id: int, cause: Error)
      requires Valid()
      modifies this, db
      ensures Valid() && db.order == old(db.order) && db.nextId == old(db.nextId)
      ensures State() == MarkBlocked(old(State()), id, cause)
    {
      var found := Lookup(db.accounts, id);
      if found.Some? {
        db.UpdateStatusById(id, Blocked);
      }
      notices := notices + [BlockedNotice(id, found.Some?, cause)];
      errorCounts := errorCounts - {id};
    }

    method MarkAccountDisabled(id: int, cause: Error)
      requires Valid()
      modifies this, db
      ensures Valid() && db.order == old(db.order) && db.nextId == old(db.nextId)
      ensures State() == MarkDisabled(old(State()), id, cause)
    {
      var found := Lookup(db.accounts, id);
      if found.Some? {
        db.UpdateStatusById(id, Disabled);
        notices := notices + [DisabledNotice(id, cause)];
        errorCounts := errorCounts - {id};
      }
    }

    method CheckAccount(account: Account, probe: Probe) returns (ok: bool)
      requires Valid()
      modifies this, db
      ensures Valid() && db.order == old(db.order) && db.nextId == old(db.nextId)
      ensures var c := Check(old(State()), account, probe);
              ok == c.ok && State() == c.health
    {
      match probe
      case ConnectFailed =>
        ok := false;
      case NoIdentity =>
        ok := false;
      case Identity =>
        errorCounts := errorCounts - {account.id};
        ok := true;
      case Raised(e) =>
        if IsTerminal(e) {
          MarkAccountBlocked(account.id, e);
        } else {
          var n := CountOf(errorCounts, account.id) + 1;
          errorCounts := errorCounts[account.id := n];
          if n >= DisableThreshold {
            MarkAccountDisabled(account.id, e);
          }
        }
        ok := false;
    }

    /**
     * One iteration of the loop in `check_all_accounts`: checks the account
     * and adds one to the tally its outcome selects.
     */
    method CheckAndCount(account: Account, probe: Probe, stats: Stats) returns (counted: Stats)
      requires Valid()
      modifies this, db
      ensures Valid() && db.order == old(db.order) && db.nextId == old(db.nextId)
      ensures var t := Tally(Swept(old(State()), stats.active, stats.disabled, stats.blocked), account, probe);
              && State() == t.health
              && counted == Stats(stats.total, t.active, t.disabled, t.blocked)
    {
      ghost var c := Check(State(), account, probe);
      var ok := CheckAccount(account, probe);
      assert ok == c.ok && State() == c.health;
      if ok {
        counted := stats.(active := stats.active + 1);
      } else if StatusSeen(db.accounts, account) == Blocked {
        counted := stats.(blocked := stats.blocked + 1);
      } else {
        counted := stats.(disabled := stats.disabled + 1);
      }
    }

    /**
     * `check_all_accounts`: checks every ACTIVE account once, in query order,
     * reports the tallies to the notifier and returns them.
     */
    method CheckAllAccounts(probe: int -> Probe) returns (stats: Stats)
      requires Valid()
      modifies this, db
      ensures Valid() && db.order == old(db.order) && db.nextId == old(db.nextId)
      ensures var accts := ActiveAccounts(old(db.accounts), old(db.order));
              var r := Sweep(old(State()), accts, probe);
              && stats == Stats(|accts|, r.active, r.disabled, r.blocked)
              && State() == r.health.(notices := r.health.notices + [StatusReport(stats)])
      ensures stats.total == stats.active + stats.disabled + stats.blocked
      ensures var accts := ActiveAccounts(old(db.accounts), old(db.order));
              && stats.active == CountBucket(accts, probe, ActiveBucket)
              && stats.disabled == CountBucket(accts, probe, DisabledBucket)
              && stats.blocked == CountBucket(accts, probe, BlockedBucket)
    {
      var accounts := ActiveAccounts(db.accounts, db.order);
      ghost var h0 := State();
      ghost var order0 := db.order;
      stats := Stats(|accounts|, 0, 0, 0);
      var i := 0;
      assert accounts[..0] == [];
      assert Sweep(h0, accounts[..0], probe) == Swept(h0, 0, 0, 0);
      while i < |accounts|
        invariant 0 <= i <= |accounts|
        invariant Valid() && db.order == old(db.order) && db.nextId == old(db.nextId)
        invariant State() == Sweep(h0, accounts[..i], probe).health
        invariant stats.total == |accounts|
        invariant stats.active == Sweep(h0, accounts[..i], probe).active
        invariant stats.disabled == Sweep(h0, accounts[..i], probe).disabled
        invariant stats.blocked == Sweep(h0, accounts[..i], probe).blocked
      {
        SweepStep(h0, accounts, i, probe);
        stats := CheckAndCount(accounts[i], probe(accounts[i].id), stats);
        i := i + 1;
      }
      assert accounts[..i] == accounts;
      ghost var r := Sweep(h0, accounts, probe);
      assert stats == Stats(|accounts|, r.active, r.disabled, r.blocked);
      assert stats.total == stats.active + stats.disabled + stats.blocked;
      ActiveAccountsKeyed(h0.accounts, order0);
      SweepBuckets(h0, accounts, probe);
      notices := notices + [StatusReport(stats)];
    }
  }
}
