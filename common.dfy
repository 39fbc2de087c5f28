/**
 * Shared vocabulary of the banking model: identifier aliases, the options
 * record a bank is created with, and the tagged errors that stand for the
 * exceptions the TypeScript code throws.
 */
module Common {

  /** Identifiers are opaque strings (generated by crypto.randomUUID in the program). */
  type UserId = string
  type BankId = string
  type BankAccountId = string

  /** Options of Bank.create; a missing flag means negative balances are not allowed. */
  datatype BankOptions = BankOptions(isNegativeAllowed: Option<bool>)

  datatype Option<T> = None | Some(value: T)

  /**
   * Every exception the core can raise, one variant per distinct throw site
   * kind. The class hierarchy (BankError and its subclasses) becomes the tag.
   */
  datatype Error =
    // Error("Insufficient funds"), thrown by BankAccount.debit
    | InsufficientFunds
    // Error("Account not found: id") from BankAccount.getById and
    // AccountNotFoundError(id) from Bank.getAccount and Bank.send
    | AccountNotFound(accountId: BankAccountId)
    // AccountNotFoundError("No account found for user u in bank b")
    | NoAccountForUser(userId: UserId, bankId: BankId)
    // UserNotFoundError(id)
    | UserNotFound(userId: UserId)
    // BankError("Bank not found: id")
    | BankNotFound(bankId: BankId)
    // BankError raised by createAccount for a negative initial balance
    | NegativeBalanceNotAllowed
    // BankError("Transfer amount must be positive")
    | NonPositiveAmount
    // BankError("Transfer failed: <cause>"), raised after the sender was re-credited
    | TransferFailed(cause: Error)
    // Error("Service with name n is already registered.")
    | ServiceAlreadyRegistered(name: string)
    // Error("Service with name n is not registered.")
    | ServiceNotRegistered(name: string)

  /** A call that returns a value or throws. */
  datatype Result<T> = Success(value: T) | Failure(error: Error)

  /** A call that returns nothing or throws. */
  datatype Outcome = Pass | Fail(error: Error)
}
