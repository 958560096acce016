/**
 The accounts service: account creation and lookup delegated to the store,
 and the transfer orchestration (read both accounts, validate, submit the
 two-leg batch, notify sender then receiver).
 */
module Service {
  import opened Domain
  import opened Repository
  import opened Validator

  /** What a notification says about a transfer, without its wording. */
  datatype TransferDescription =
    | SentTo(accountToId: string, amount: Balance)          // told to the sender
    | ReceivedFrom(accountFromId: string, amount: Balance)  // told to the receiver

  /** One notification: the account whose owner is told, and what they are told. */
  datatype Notification = Notification(accountId: string, description: TransferDescription)

  /** The notification port; it records every notification it is asked to send. */
  class NotificationLog {
    var sent: seq<Notification>

    constructor ()
      ensures sent == []
    {
      sent := [];
    }

    method NotifyAboutTransfer(account: Account, description: TransferDescription)
      modifies this
      ensures sent == old(sent) + [Notification(account.accountId, description)]
    {
      sent := sent + [Notification(account.accountId, description)];
    }
  }

  /** The outcome of validating `transfer` against the accounts currently in `m`. */
  function ValidateIn(m: Ledger, transfer: Transfer): (r: Outcome)
    ensures r.Pass? <==>
      && transfer.accountFromId in m && transfer.accountToId in m
      && transfer.accountFromId != transfer.accountToId
      && m[transfer.accountFromId] >= transfer.amount
  {
    Validate(Lookup(m, transfer.accountFromId), Lookup(m, transfer.accountToId), transfer)
  }

  /** The batch a successful transfer submits: debit the source, then credit the destination. */
  function TransferUpdates(transfer: Transfer): (r: seq<AccountUpdate>)
    ensures |r| == 2
    ensures r[0].accountId == transfer.accountFromId && r[1].accountId == transfer.accountToId
    ensures r[0].amount + r[1].amount == 0.0 && r[1].amount == transfer.amount
  {
    [AccountUpdate(transfer.accountFromId, -transfer.amount),
     AccountUpdate(transfer.accountToId, transfer.amount)]
  }

  /** The notifications a successful transfer sends: the sender first, then the receiver. */
  function TransferNotifications(transfer: Transfer): (r: seq<Notification>)
    ensures |r| == 2
    ensures r[0].accountId == transfer.accountFromId && r[1].accountId == transfer.accountToId
    ensures r[0].description.SentTo? && r[0].description.accountToId == transfer.accountToId
    ensures r[1].description.ReceivedFrom? && r[1].description.accountFromId == transfer.accountFromId
    ensures r[0].description.amount == r[1].description.amount == transfer.amount
  {
    [Notification(transfer.accountFromId, SentTo(transfer.accountToId, transfer.amount)),
     Notification(transfer.accountToId, ReceivedFrom(transfer.accountFromId, transfer.amount))]
  }

  /**
   A validated transfer debits the source by exactly the amount, credits the
   destination by exactly the amount, conserves their sum, leaves the source
   non-negative and every other account as it was.
   */
  lemma {:induction false} TransferMovesAmount(m: Ledger, transfer: Transfer)
    requires ValidateIn(m, transfer).Pass?
    ensures var m' := ApplyBatch(m, TransferUpdates(transfer));
      && m'.Keys == m.Keys
      && m'[transfer.accountFromId] == m[transfer.accountFromId] - transfer.amount
      && m'[transfer.accountToId] == m[transfer.accountToId] + transfer.amount
      && m'[transfer.accountFromId] + m'[transfer.accountToId]
         == m[transfer.accountFromId] + m[transfer.accountToId]
      && m'[transfer.accountFromId] >= 0.0
      && forall id :: id in m && id != transfer.accountFromId && id != transfer.accountToId ==> m'[id] == m[id]
  {
    var us := TransferUpdates(transfer);
    var from, to := transfer.accountFromId, transfer.accountToId;
    assert us[1..][1..] == [];
    assert DeltaFor(us[1..], from) == 0.0;
    assert DeltaFor(us, from) == -transfer.amount;
    assert DeltaFor(us[1..], to) == transfer.amount;
    assert DeltaFor(us, to) == transfer.amount;
    ApplyBatchSums(m, us, from);
    ApplyBatchSums(m, us, to);
    forall id | id in m && id != from && id != to
      ensures ApplyBatch(m, us)[id] == m[id]
    {
      ApplyBatchUnmentioned(m, us, id);
    }
  }

  /** The service, holding the store and the notification port it was built with. */
  class AccountsService {
    const repository: AccountsRepositoryInMemory
    const notificationService: NotificationLog

    constructor (repository: AccountsRepositoryInMemory, notificationService: NotificationLog)
      ensures this.repository == repository && this.notificationService == notificationService
    {
      this.repository := repository;
      this.notificationService := notificationService;
    }

    /** Delegates to the store's insert-if-absent. */
    method CreateAccount(account: Account) returns (outcome: Outcome)
      modifies repository
      ensures account.accountId in old(repository.accounts) ==>
        outcome == Fail(Duplicate(account.accountId)) && repository.accounts == old(repository.accounts)
      ensures account.accountId !in old(repository.accounts) ==>
        outcome == Pass && repository.accounts == old(repository.accounts)[account.accountId := account.balance]
    {
      outcome := repository.CreateAccount(account);
    }

    /** Delegates to the store's lookup. */
    method GetAccount(accountId: string) returns (r: Option<Account>)
      ensures r.Some? <==> accountId in repository.accounts
      ensures r == Lookup(repository.accounts, accountId)
    {
      r := repository.GetAccount(accountId);
    }

    /**
     Validates against the current balances; on failure returns the
     validator's error with nothing changed; on success applies the two-leg
     batch and notifies the sender, then the receiver.
     */
    method MakeTransfer(transfer: Transfer) returns (outcome: Outcome)
      modifies repository, notificationService
      ensures outcome == ValidateIn(old(repository.accounts), transfer)
      ensures outcome.Fail? ==>
        && repository.accounts == old(repository.accounts)
        && notificationService.sent == old(notificationService.sent)
      ensures outcome.Pass? ==>
        && repository.accounts == ApplyBatch(old(repository.accounts), TransferUpdates(transfer))
        && notificationService.sent == old(notificationService.sent) + TransferNotifications(transfer)
    {
      var accountFrom := repository.GetAccount(transfer.accountFromId);
      var accountTo := repository.GetAccount(transfer.accountToId);
      var amount := transfer.amount;

      outcome := Validate(accountFrom, accountTo, transfer);
      if outcome.Fail? {
        return;
      }

      var successful := repository.UpdateAccountsBatch([
        AccountUpdate(accountFrom.value.accountId, -amount),
        AccountUpdate(accountTo.value.accountId, amount)
      ]);

      if successful {
        notificationService.NotifyAboutTransfer(
          accountFrom.value, SentTo(accountTo.value.accountId, transfer.amount));
        notificationService.NotifyAboutTransfer(
          accountTo.value, ReceivedFrom(accountFrom.value.accountId, transfer.amount));
      }
    }
  }
}
