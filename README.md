# In-memory ledger: accounts store, transfer validator, transfer orchestration

A Dafny model of the core of a small account-transfer service. It has three parts:

- **The in-memory accounts store.** Accounts are created insert-if-absent. A duplicate id fails.
  A lookup may find nothing. Clearing empties the store. A batch of signed balance updates is applied
  in list order, and updates for unknown ids are skipped.
- **The transfer validator.** It is a chain of four guards, and the first one that fails decides the error:
  1. the source account is missing;
  2. the destination account is missing;
  3. the source and destination ids are the same;
  4. the source balance minus the amount is below zero.
- **The accounts service.** Creation and lookup are delegated to the store. A transfer reads both accounts
  and validates them. It then submits the batch `[(from, -amount), (to, +amount)]` and, when the batch
  reports success, notifies the sender and then the receiver.

Files:
- `domain.dfy`: the value types and the error datatype.
- `repository.dfy`: the store as a class over a `map<string, real>`. It also holds the pure functions
  `Lookup`, `ApplyUpdate` and `ApplyBatch` that specify the store, with their lemmas.
- `validator.dfy`: the validator as a pure function.
- `service.dfy`: the notification port, the service class and the end-to-end transfer lemma.
- `scenarios.dfy`: client methods that replay the service's test cases through the method contracts alone.

Balances are exact `real`s. The service only adds, subtracts and compares `BigDecimal`s, so no rounding arises.
Exceptions become `Outcome = Pass | Fail(Error)`. A null account reference becomes `Option.None`.

`Transfer.amount` carries `@Min(1)` (`challenge/src/main/java/com/db/awmd/challenge/domain/Transfer.java:31`),
which only the web layer enforces. The validator
(`challenge/src/main/java/com/db/awmd/challenge/service/TransferValidatorImpl.java:29-47`) never checks the
amount, so `Validator.Validate` accepts zero and negative amounts that the source balance covers.

## Model

| member | source | states |
|---|---|---|
| `Repository.Lookup` | challenge/src/main/java/com/db/awmd/challenge/repository/AccountsRepositoryInMemory.java:37-39 | an account is found exactly when its id is stored; the found account carries that id and its stored balance |
| `Repository.ApplyUpdate` | challenge/src/main/java/com/db/awmd/challenge/repository/AccountsRepositoryInMemory.java:66-72 | one update keeps the key set; an existing id gets old balance plus delta; every other id is unchanged, so an unknown id is a no-op |
| `Repository.ApplyBatch` | challenge/src/main/java/com/db/awmd/challenge/repository/AccountsRepositoryInMemory.java:53-57 | applying a batch never adds or removes an account |
| `Repository.ApplyBatchSnoc` | challenge/src/main/java/com/db/awmd/challenge/repository/AccountsRepositoryInMemory.java:54-56 | the batch is the updates applied one after another in list order |
| `Repository.ApplyBatchSums` | challenge/src/main/java/com/db/awmd/challenge/repository/AccountsRepositoryInMemory.java:53-57 | after a batch, each account's balance is its initial balance plus the sum of the deltas listed for its id |
| `Repository.ApplyBatchUnmentioned` | challenge/src/main/java/com/db/awmd/challenge/repository/AccountsRepositoryInMemory.java:53-57 | an account not mentioned in the batch keeps its balance |
| `Repository.AccountsRepositoryInMemory.constructor` | challenge/src/main/java/com/db/awmd/challenge/repository/AccountsRepositoryInMemory.java:19 | a new store is empty |
| `Repository.AccountsRepositoryInMemory.CreateAccount` | challenge/src/main/java/com/db/awmd/challenge/repository/AccountsRepositoryInMemory.java:25-31 | an absent id is added with the given balance, all other entries are unchanged, and a lookup then returns the account; a present id fails with `Duplicate(id)` and the store, including the first balance, is unchanged |
| `Repository.AccountsRepositoryInMemory.GetAccount` | challenge/src/main/java/com/db/awmd/challenge/repository/AccountsRepositoryInMemory.java:37-39 | returns the stored account, or `None` exactly when the id is absent; changes nothing |
| `Repository.AccountsRepositoryInMemory.ClearAccounts` | challenge/src/main/java/com/db/awmd/challenge/repository/AccountsRepositoryInMemory.java:45-47 | the store is empty afterwards, so every lookup finds nothing |
| `Repository.AccountsRepositoryInMemory.UpdateAccountsBatch` | challenge/src/main/java/com/db/awmd/challenge/repository/AccountsRepositoryInMemory.java:53-59 | always returns true; the new store is the batch applied in order to the old one; the key set is unchanged; each balance is the old one plus the deltas listed for its id |
| `Repository.AccountsRepositoryInMemory.UpdateAccount` | challenge/src/main/java/com/db/awmd/challenge/repository/AccountsRepositoryInMemory.java:66-72 | the store after one update is `ApplyUpdate` of the store before it |
| `Validator.IsSameAccount` | challenge/src/main/java/com/db/awmd/challenge/service/TransferValidatorImpl.java:55-57 | the request's source and destination ids are equal as strings: same length and the same character at every position |
| `Validator.EnoughFunds` | challenge/src/main/java/com/db/awmd/challenge/service/TransferValidatorImpl.java:67-69 | balance minus amount is not below zero exactly when the amount is at most the balance |
| `Validator.Validate` | challenge/src/main/java/com/db/awmd/challenge/service/TransferValidatorImpl.java:29-47 | passes exactly when both accounts are present, the ids differ and the source balance is at least the amount; every failure is a validator error, never a duplicate; a not-found error names the source or the destination id |
| `Validator.MissingSourceFirst` | challenge/src/main/java/com/db/awmd/challenge/service/TransferValidatorImpl.java:32-34 | a missing source yields `NotFound(accountFromId)`, whatever the destination and the amount are |
| `Validator.MissingDestinationSecond` | challenge/src/main/java/com/db/awmd/challenge/service/TransferValidatorImpl.java:36-38 | a present source with a missing destination yields `NotFound(accountToId)` |
| `Validator.SelfTransferBeforeFunds` | challenge/src/main/java/com/db/awmd/challenge/service/TransferValidatorImpl.java:40-42 | with both accounts present and equal ids, the result is `SameAccount` whatever the balance is |
| `Validator.InsufficientFunds` | challenge/src/main/java/com/db/awmd/challenge/service/TransferValidatorImpl.java:44-46 | with both present, distinct ids and the balance below the amount, the result is `NotEnoughFunds` carrying the source id and balance |
| `Validator.ExactBalancePasses` | challenge/src/main/java/com/db/awmd/challenge/service/TransferValidatorImpl.java:67-69 | an amount equal to the balance passes, because the check is balance minus amount `>= 0` |
| `Service.NotificationLog.NotifyAboutTransfer` | challenge/src/main/java/com/db/awmd/challenge/service/NotificationService.java:16 | one notification naming the account and the transfer description is appended to what was sent |
| `Service.ValidateIn` | challenge/src/main/java/com/db/awmd/challenge/service/AccountsService.java:86-90 | validating against the stored accounts passes exactly when both ids are stored, they differ and the stored source balance covers the amount |
| `Service.TransferUpdates` | challenge/src/main/java/com/db/awmd/challenge/service/AccountsService.java:93-96 | the batch has two legs, the source first and the destination second; the deltas cancel out and the credit is the amount |
| `Service.TransferNotifications` | challenge/src/main/java/com/db/awmd/challenge/service/AccountsService.java:98-101 | exactly two notifications: first to the sender, naming the destination; then to the receiver, naming the source; both carry the amount |
| `Service.TransferMovesAmount` | challenge/src/main/java/com/db/awmd/challenge/service/AccountsService.java:90-96 | after a validated transfer: the source drops by exactly the amount, the destination rises by exactly the amount, their sum is conserved, the source is not negative, and no other account changes or appears |
| `Service.AccountsService.constructor` | challenge/src/main/java/com/db/awmd/challenge/service/AccountsService.java:52-55 | the service holds the store and the notification port it is given |
| `Service.AccountsService.CreateAccount` | challenge/src/main/java/com/db/awmd/challenge/service/AccountsService.java:62-64 | behaves exactly as the store's `CreateAccount` |
| `Service.AccountsService.GetAccount` | challenge/src/main/java/com/db/awmd/challenge/service/AccountsService.java:72-74 | behaves exactly as the store's `GetAccount` |
| `Service.AccountsService.MakeTransfer` | challenge/src/main/java/com/db/awmd/challenge/service/AccountsService.java:84-102 | returns the validator's outcome on the accounts as they were; on failure neither the balances nor the notifications change; on success the store is the two-leg batch applied to the old store, and the sender and then the receiver are notified |
| `Scenarios.BatchUpdatesAllAccounts` | challenge/src/test/java/com/db/awmd/challenge/repository/AccountsRepositoryInMemoryTest.java:42-55 | the updates `(Id-1, 0)` and `(Id-2, -50)` on balances 0 and 150.20 give 0 and 100.20 |
| `Scenarios.DuplicateAccountRejected` | challenge/src/test/java/com/db/awmd/challenge/AccountsControllerTest.java:76-80 | a second creation of `Id-123` fails with `Duplicate("Id-123")` and the balance from the first creation stays |
| `Scenarios.ZeroBalanceAfterTransfer` | challenge/src/test/java/com/db/awmd/challenge/AccountsControllerTest.java:283-292 | moving all 2000.20 from `Id-1` to `Id-2` (holding 100) passes and leaves 0 and 2100.20 |
| `Scenarios.OverdraftRejected` | challenge/src/test/java/com/db/awmd/challenge/AccountsControllerTest.java:233-239 | moving 21 out of 20.50 fails with `NotEnoughFunds("Id-1", 20.50)`; balances stay 20.50 and 1000 and nothing is notified |
| `Scenarios.SelfTransferRejected` | challenge/src/test/java/com/db/awmd/challenge/AccountsControllerTest.java:221-225 | a transfer from `Id-1` to itself fails with `SameAccount` although the balance covers it, and the balance stays |
| `Scenarios.UnknownSourceRejected` | challenge/src/test/java/com/db/awmd/challenge/AccountsControllerTest.java:181-186 | a transfer from the unknown `Id-1` fails with `NotFound("Id-1")` and the destination's balance stays |
| `Scenarios.TransferNotifiesBothOwners` | challenge/src/test/java/com/db/awmd/challenge/AccountsControllerTest.java:300-309 | moving 5000 from `Id-1` (5100.21) to `Id-2` (6000) leaves 100.21 and 11000; the notifications sent are exactly `Id-1` and then `Id-2` |

## Left out

- Concurrency. The source uses a `ConcurrentHashMap`, with `putIfAbsent` and `computeIfPresent` as atomic steps. Between validation and update there is also a check-then-act gap. The model is sequential, one call at a time.
- Aliasing. The store keeps the caller's `Account` object and overwrites its balance in place. The model stores balances by value and builds an `Account` on lookup. So a caller that keeps an `Account` reference does not see later balance changes through it. For the same reason, a notification carries only the account id, which is all the logging port reads.
- Message wording. The texts of exceptions and notifications are not modelled. Errors and notifications carry the ids and amounts that the texts are built from.
- `BigDecimal` scale is not modelled. For example, `0.00` and `0` are the same `real`.
- Bean-validation annotations are not modelled. These are the non-empty ids, `@Min(0)` on the initial balance and `@Min(1)` on the transfer amount. They are checked by the web layer, so no core member requires them.
- The HTTP controller and the mapping from exceptions to status codes are not modelled.
- The logging implementation of the notification port, the application bootstrap and the test-time mock configuration are not modelled. The port is modelled as a log of the notifications it was asked to send.
- Service.NotificationLog.NotifyAboutTransfer: the port never fails. In the source, `makeTransfer` calls the port with no try/catch (`challenge/src/main/java/com/db/awmd/challenge/service/AccountsService.java:98-101`). A port that threw would propagate its exception out of `makeTransfer` after both balances had moved. If the sender's notification threw, the receiver would not be notified. The model does not capture that path.
