/**
 The in-memory account store: a map from account id to balance, with
 insert-if-absent creation, lookup, bulk clear and batched balance updates.

 The pure functions `Lookup`, `ApplyUpdate` and `ApplyBatch` are the
 specification of the store's operations; the class below is proved to
 follow them.
 */
module Repository {
  import opened Domain

  /** The content of the store: each known account id with its balance. */
  type Ledger = map<string, Balance>

  /** The account stored under `id`, if any. */
  function Lookup(m: Ledger, id: string): (r: Option<Account>)
    ensures r.Some? <==> id in m
    ensures r.Some? ==> r.value.accountId == id && r.value.balance == m[id]
  {
    if id in m then Some(Account(id, m[id])) else None
  }

  /** One update: an existing account gets the delta added; an unknown id is skipped. */
  function ApplyUpdate(m: Ledger, u: AccountUpdate): (r: Ledger)
    ensures r.Keys == m.Keys
    ensures forall id :: id in m && id != u.accountId ==> r[id] == m[id]
    ensures u.accountId in m ==> r[u.accountId] == m[u.accountId] + u.amount
  {
    if u.accountId in m then m[u.accountId := m[u.accountId] + u.amount] else m
  }

  /** The updates of a batch, applied one after another in list order. */
  function ApplyBatch(m: Ledger, us: seq<AccountUpdate>): (r: Ledger)
    ensures r.Keys == m.Keys
  {
    if us == [] then m else ApplyBatch(ApplyUpdate(m, us[0]), us[1..])
  }

  /** The sum of the deltas that a batch lists for `id`. */
  function DeltaFor(us: seq<AccountUpdate>, id: string): Balance
  {
    if us == [] then 0.0
    else (if us[0].accountId == id then us[0].amount else 0.0) + DeltaFor(us[1..], id)
  }

  /** Applying one more update after a batch is applying the longer batch. */
  lemma {:induction false} ApplyBatchSnoc(m: Ledger, us: seq<AccountUpdate>, u: AccountUpdate)
    ensures ApplyBatch(m, us + [u]) == ApplyUpdate(ApplyBatch(m, us), u)
    decreases |us|
  {
    if us == [] {
      assert [] + [u] == [u];
      assert ApplyBatch(ApplyUpdate(m, u), []) == ApplyUpdate(m, u);
    } else {
      assert (us + [u])[0] == us[0];
      assert (us + [u])[1..] == us[1..] + [u];
      ApplyBatchSnoc(ApplyUpdate(m, us[0]), us[1..], u);
    }
  }

  /** Each account ends with its initial balance plus the sum of the deltas listed for it. */
  lemma {:induction false} ApplyBatchSums(m: Ledger, us: seq<AccountUpdate>, id: string)
    requires id in m
    ensures ApplyBatch(m, us)[id] == m[id] + DeltaFor(us, id)
    decreases |us|
  {
    if us != [] {
      ApplyBatchSums(ApplyUpdate(m, us[0]), us[1..], id);
    }
  }

  /** A batch that does not mention `id` leaves its balance alone. */
  lemma {:induction false} ApplyBatchUnmentioned(m: Ledger, us: seq<AccountUpdate>, id: string)
    requires id in m
    requires forall k :: 0 <= k < |us| ==> us[k].accountId != id
    ensures ApplyBatch(m, us)[id] == m[id]
    decreases |us|
  {
    if us != [] {
      ApplyBatchUnmentioned(ApplyUpdate(m, us[0]), us[1..], id);
    }
  }

  /** The store. Balances are values here: see README for what that leaves out. */
  class AccountsRepositoryInMemory {
    var accounts: Ledger

    constructor ()
      ensures accounts == map[]
    {
      accounts := map[];
    }

    /** Insert-if-absent; a taken id fails with `Duplicate` and keeps the first balance. */
    method CreateAccount(account: Account) returns (outcome: Outcome)
      modifies this
      ensures account.accountId in old(accounts) ==>
        outcome == Fail(Duplicate(account.accountId)) && accounts == old(accounts)
      ensures account.accountId !in old(accounts) ==>
        outcome == Pass && accounts == old(accounts)[account.accountId := account.balance]
      ensures outcome.Pass? ==> Lookup(accounts, account.accountId) == Some(account)
    {
      if account.accountId in accounts {
        outcome := Fail(Duplicate(account.accountId));
      } else {
        accounts := accounts[account.accountId := account.balance];
        outcome := Pass;
      }
    }

    /** The stored account, or `None` (Java's null) for an unknown id. */
    method GetAccount(accountId: string) returns (r: Option<Account>)
      ensures r.Some? <==> accountId in accounts
      ensures r == Lookup(accounts, accountId)
    {
      if accountId in accounts {
        r := Some(Account(accountId, accounts[accountId]));
      } else {
        r := None;
      }
    }

    /** Empties the store. */
    method ClearAccounts()
      modifies this
      ensures accounts == map[]
      ensures forall id :: Lookup(accounts, id) == None
    {
      accounts := map[];
    }

    /** Applies every update in order and reports success, which it always does. */
    method UpdateAccountsBatch(updates: seq<AccountUpdate>) returns (ok: bool)
      modifies this
      ensures ok
      ensures accounts == ApplyBatch(old(accounts), updates)
      ensures accounts.Keys == old(accounts).Keys
      ensures forall id :: id in old(accounts) ==>
        accounts[id] == old(accounts)[id] + DeltaFor(updates, id)
    {
      ghost var start := accounts;
      for i := 0 to |updates|
        invariant accounts == ApplyBatch(start, updates[..i])
      {
        ApplyBatchSnoc(start, updates[..i], updates[i]);
        assert updates[..i + 1] == updates[..i] + [updates[i]];
        UpdateAccount(updates[i]);
      }
      assert updates[..|updates|] == updates;
      forall id | id in start
        ensures accounts[id] == start[id] + DeltaFor(updates, id)
      {
        ApplyBatchSums(start, updates, id);
      }
      ok := true;
    }

    /** Adds the delta to an existing account's balance; an unknown id is a no-op. */
    method UpdateAccount(update: AccountUpdate)
      modifies this
      ensures accounts == ApplyUpdate(old(accounts), update)
    {
      if update.accountId in accounts {
        accounts := accounts[update.accountId := accounts[update.accountId] + update.amount];
      }
    }
  }
}
