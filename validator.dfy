/**
 The transfer validator: a stateless chain of four guards over two account
 snapshots (either may be absent) and the transfer request. The first guard
 that fails decides the error.
 */
module Validator {
  import opened Domain

  /** The request names the same id as source and destination, compared character by character. */
  function IsSameAccount(transfer: Transfer): (r: bool)
    ensures r <==>
      && |transfer.accountFromId| == |transfer.accountToId|
      && forall i :: 0 <= i < |transfer.accountFromId| ==> transfer.accountFromId[i] == transfer.accountToId[i]
  {
    transfer.accountFromId == transfer.accountToId
  }

  /** The balance minus the amount is not below zero, i.e. the balance covers the amount. */
  function EnoughFunds(account: Account, amount: Balance): (r: bool)
    ensures r <==> amount <= account.balance
  {
    account.balance - amount >= 0.0
  }

  function Validate(accountFrom: Option<Account>, accountTo: Option<Account>, transfer: Transfer): (r: Outcome)
    // Success exactly when both accounts exist, the ids differ and the source covers the amount.
    ensures r.Pass? <==>
      && accountFrom.Some? && accountTo.Some?
      && transfer.accountFromId != transfer.accountToId
      && accountFrom.value.balance >= transfer.amount
    // Every failure is one of the three validator errors, never a duplicate.
    ensures r.Fail? ==> !r.error.Duplicate?
    ensures r.Fail? && r.error.NotFound? ==>
      r.error.id in {transfer.accountFromId, transfer.accountToId}
  {
    if accountFrom.None? then Fail(NotFound(transfer.accountFromId))
    else if accountTo.None? then Fail(NotFound(transfer.accountToId))
    else if IsSameAccount(transfer) then Fail(SameAccount)
    else if !EnoughFunds(accountFrom.value, transfer.amount) then
      Fail(NotEnoughFunds(accountFrom.value.accountId, accountFrom.value.balance))
    else Pass
  }

  /** A missing source is reported first, whatever else is wrong. */
  lemma MissingSourceFirst(accountTo: Option<Account>, transfer: Transfer)
    ensures Validate(None, accountTo, transfer) == Fail(NotFound(transfer.accountFromId))
  {
  }

  /** With the source present, a missing destination is reported next. */
  lemma MissingDestinationSecond(accountFrom: Account, transfer: Transfer)
    ensures Validate(Some(accountFrom), None, transfer) == Fail(NotFound(transfer.accountToId))
  {
  }

  /** A transfer to self is refused before the funds are looked at. */
  lemma SelfTransferBeforeFunds(accountFrom: Account, accountTo: Account, transfer: Transfer)
    requires transfer.accountFromId == transfer.accountToId
    ensures Validate(Some(accountFrom), Some(accountTo), transfer) == Fail(SameAccount)
  {
  }

  /** An amount above the balance is refused with the source's id and balance. */
  lemma InsufficientFunds(accountFrom: Account, accountTo: Account, transfer: Transfer)
    requires transfer.accountFromId != transfer.accountToId
    requires accountFrom.balance < transfer.amount
    ensures Validate(Some(accountFrom), Some(accountTo), transfer)
         == Fail(NotEnoughFunds(accountFrom.accountId, accountFrom.balance))
  {
  }

  /** Moving the whole balance is allowed: the funds check is not strict. */
  lemma ExactBalancePasses(accountFrom: Account, accountTo: Account, transfer: Transfer)
    requires transfer.accountFromId != transfer.accountToId
    requires transfer.amount == accountFrom.balance
    ensures Validate(Some(accountFrom), Some(accountTo), transfer) == Pass
  {
  }
}
