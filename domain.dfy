/**
 The value types of the ledger: accounts, transfer requests, balance
 updates, and the domain errors that the store and the validator raise.

 Balances are arbitrary-precision decimals in the service; the service only
 adds, subtracts and compares them, so they are modelled as exact `real`s.
 */
module Domain {

  /** An exact decimal amount of money. */
  type Balance = real

  /** An account as handed out by the store: its identifier and its balance. */
  datatype Account = Account(accountId: string, balance: Balance)

  /** A request to move `amount` from one account to another. */
  datatype Transfer = Transfer(accountFromId: string, accountToId: string, amount: Balance)

  /** One leg of a transfer: a signed delta for one account. */
  datatype AccountUpdate = AccountUpdate(accountId: string, amount: Balance)

  /** The four exceptions of the service, as values carrying their data. */
  datatype Error =
    | NotFound(id: string)                            // no account with this id
    | SameAccount                                     // transfer to self
    | NotEnoughFunds(id: string, balance: Balance)    // source id and its balance
    | Duplicate(id: string)                           // id already taken

  /** The result of an operation that either returns normally or throws. */
  datatype Outcome = Pass | Fail(error: Error)

  /** A possibly absent value, standing for a Java reference that may be null. */
  datatype Option<T> = None | Some(value: T)
}
