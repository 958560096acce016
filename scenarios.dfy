/**
 Client scenarios: the store and the service driven through their method
 contracts alone, on the concrete account ids and balances of the
 service's own test cases.
 */
module Scenarios {
  import opened Domain
  import opened Repository
  import opened Service

  /** A fresh service over an empty store, with nothing notified yet. */
  method NewService() returns (service: AccountsService)
    ensures fresh(service.repository) && fresh(service.notificationService)
    ensures service.repository.accounts == map[] && service.notificationService.sent == []
  {
    var repository := new AccountsRepositoryInMemory();
    var log := new NotificationLog();
    service := new AccountsService(repository, log);
  }

  /** A batch with a zero delta and a debit of 50 on accounts holding 0 and 150.20. */
  method BatchUpdatesAllAccounts() returns (balance1: Balance, balance2: Balance)
    ensures balance1 == 0.0 && balance2 == 100.20
  {
    var repository := new AccountsRepositoryInMemory();
    var _ := repository.CreateAccount(Account("Id-1", 0.0));
    var _ := repository.CreateAccount(Account("Id-2", 150.20));
    var ok := repository.UpdateAccountsBatch([AccountUpdate("Id-1", 0.0), AccountUpdate("Id-2", -50.0)]);
    var a1 := repository.GetAccount("Id-1");
    var a2 := repository.GetAccount("Id-2");
    balance1, balance2 := a1.value.balance, a2.value.balance;
  }

  /** A second creation under the same id fails and the first balance stays. */
  method DuplicateAccountRejected() returns (second: Outcome, balance: Balance)
    ensures second == Fail(Duplicate("Id-123"))
    ensures balance == 1000.0
  {
    var service := NewService();
    var first := service.CreateAccount(Account("Id-123", 1000.0));
    second := service.CreateAccount(Account("Id-123", 5.0));
    var a := service.GetAccount("Id-123");
    balance := a.value.balance;
  }

  /** Transferring the whole balance of 2000.20 leaves the source at zero. */
  method ZeroBalanceAfterTransfer() returns (outcome: Outcome, balance1: Balance, balance2: Balance)
    ensures outcome == Pass
    ensures balance1 == 0.0 && balance2 == 2100.20
  {
    var service := NewService();
    var _ := service.CreateAccount(Account("Id-1", 2000.20));
    var _ := service.CreateAccount(Account("Id-2", 100.0));
    outcome := service.MakeTransfer(Transfer("Id-1", "Id-2", 2000.20));
    TransferMovesAmount(map["Id-1" := 2000.20, "Id-2" := 100.0], Transfer("Id-1", "Id-2", 2000.20));
    var a1 := service.GetAccount("Id-1");
    var a2 := service.GetAccount("Id-2");
    balance1, balance2 := a1.value.balance, a2.value.balance;
  }

  /** Transferring 21 out of 20.50 fails with the source's id and balance; nothing changes. */
  method OverdraftRejected() returns (outcome: Outcome, balance1: Balance, balance2: Balance, notified: nat)
    ensures outcome == Fail(NotEnoughFunds("Id-1", 20.50))
    ensures balance1 == 20.50 && balance2 == 1000.0
    ensures notified == 0
  {
    var service := NewService();
    var _ := service.CreateAccount(Account("Id-1", 20.50));
    var _ := service.CreateAccount(Account("Id-2", 1000.0));
    outcome := service.MakeTransfer(Transfer("Id-1", "Id-2", 21.0));
    var a1 := service.GetAccount("Id-1");
    var a2 := service.GetAccount("Id-2");
    balance1, balance2 := a1.value.balance, a2.value.balance;
    notified := |service.notificationService.sent|;
  }

  /** A transfer to self is refused even when the funds would cover it. */
  method SelfTransferRejected() returns (outcome: Outcome, balance: Balance)
    ensures outcome == Fail(SameAccount)
    ensures balance == 1000.0
  {
    var service := NewService();
    var _ := service.CreateAccount(Account("Id-1", 1000.0));
    outcome := service.MakeTransfer(Transfer("Id-1", "Id-1", 1000.0));
    var a := service.GetAccount("Id-1");
    balance := a.value.balance;
  }

  /** An unknown source is reported by its id. */
  method UnknownSourceRejected() returns (outcome: Outcome, balance: Balance)
    ensures outcome == Fail(NotFound("Id-1"))
    ensures balance == 1000.0
  {
    var service := NewService();
    var _ := service.CreateAccount(Account("Id-2", 1000.0));
    outcome := service.MakeTransfer(Transfer("Id-1", "Id-2", 1000.0));
    var a := service.GetAccount("Id-2");
    balance := a.value.balance;
  }

  /** Moving 5000 out of 5100.21 leaves 100.21 and 11000, and notifies the sender and then the receiver only. */
  method TransferNotifiesBothOwners() returns (balance1: Balance, balance2: Balance, notified: seq<string>)
    ensures balance1 == 100.21 && balance2 == 11000.0
    ensures notified == ["Id-1", "Id-2"]
  {
    var service := NewService();
    var _ := service.CreateAccount(Account("Id-1", 5100.21));
    var _ := service.CreateAccount(Account("Id-2", 6000.0));
    var outcome := service.MakeTransfer(Transfer("Id-1", "Id-2", 5000.0));
    TransferMovesAmount(map["Id-1" := 5100.21, "Id-2" := 6000.0], Transfer("Id-1", "Id-2", 5000.0));
    var a1 := service.GetAccount("Id-1");
    var a2 := service.GetAccount("Id-2");
    balance1, balance2 := a1.value.balance, a2.value.balance;
    notified := seq(|service.notificationService.sent|, i
      requires 0 <= i < |service.notificationService.sent|
      reads service.notificationService
      => service.notificationService.sent[i].accountId);
  }
}
