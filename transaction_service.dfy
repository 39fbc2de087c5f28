/**
 * TransactionService.transfer: a bare debit-then-credit between an account
 * of one bank and an account of another, with no check on the amount and no
 * rollback. Its two id arguments are named for users but are resolved with
 * Bank.getAccount, that is, as account ids.
 */
module Transactions {
  import opened Common
  import opened Accounts
  import opened Banks

  /**
   * The two accounts transfer resolves, sender first, or the error of the
   * first lookup that fails.
   */
  function TransferAccounts(reg: Directory, senderBank: Bank, senderId: BankAccountId,
                            receiverBank: Bank, receiverId: BankAccountId): (r: Result<(BankAccount, BankAccount)>)
    reads senderBank, receiverBank, reg
    ensures senderBank.GetAccount(reg, senderId).Failure? ==> r == Failure(senderBank.GetAccount(reg, senderId).error)
    ensures senderBank.GetAccount(reg, senderId).Success? && receiverBank.GetAccount(reg, receiverId).Failure? ==>
              r == Failure(receiverBank.GetAccount(reg, receiverId).error)
    ensures r.Success? <==> senderBank.GetAccount(reg, senderId).Success? && receiverBank.GetAccount(reg, receiverId).Success?
    ensures r.Success? ==>
              r.value == (senderBank.GetAccount(reg, senderId).value, receiverBank.GetAccount(reg, receiverId).value)
    ensures r.Success? ==>
              r.value.0 in senderBank.accounts.Values + reg.accounts.Values
              && r.value.1 in receiverBank.accounts.Values + reg.accounts.Values
  {
    match senderBank.GetAccount(reg, senderId)
    case Failure(e) => Failure(e)
    case Success(sender) =>
      match receiverBank.GetAccount(reg, receiverId)
      case Failure(e) => Failure(e)
      case Success(receiver) => Success((sender, receiver))
  }

  /**
   * transfer: both lookups happen before any balance changes; then the
   * sender is debited and, only if that succeeded, the receiver credited.
   */
  method Transfer(reg: Directory, senderBank: Bank, senderId: BankAccountId, receiverBank: Bank,
                  receiverId: BankAccountId, amount: int) returns (r: Outcome)
    modifies senderBank.accounts.Values, receiverBank.accounts.Values, reg.accounts.Values
    ensures TransferAccounts(reg, senderBank, senderId, receiverBank, receiverId).Failure? ==>
              r == Fail(TransferAccounts(reg, senderBank, senderId, receiverBank, receiverId).error)
    ensures TransferAccounts(reg, senderBank, senderId, receiverBank, receiverId).Success? ==>
              var (sender, _) := TransferAccounts(reg, senderBank, senderId, receiverBank, receiverId).value;
              r == if DebitAllowed(old(sender.balance), sender.allowNegativeBalance, amount) then Pass
                   else Fail(InsufficientFunds)
    ensures r.Fail? ==>
              forall a :: a in old(senderBank.accounts.Values) + old(receiverBank.accounts.Values) + old(reg.accounts.Values)
                ==> a.balance == old(a.balance)
    ensures r.Pass? ==>
              var (sender, receiver) := TransferAccounts(reg, senderBank, senderId, receiverBank, receiverId).value;
              (sender != receiver ==>
                 sender.balance == old(sender.balance) - amount && receiver.balance == old(receiver.balance) + amount)
              && (sender == receiver ==> sender.balance == old(sender.balance))
              && forall a :: (a in old(senderBank.accounts.Values) + old(receiverBank.accounts.Values) + old(reg.accounts.Values)
                              && a != sender && a != receiver) ==> a.balance == old(a.balance)
  {
    var senderAccount := senderBank.GetAccount(reg, senderId);
    if senderAccount.Failure? {
      return Fail(senderAccount.error);
    }
    var receiverAccount := receiverBank.GetAccount(reg, receiverId);
    if receiverAccount.Failure? {
      return Fail(receiverAccount.error);
    }
    r := senderAccount.value.Debit(amount);
    if r.Fail? {
      return;
    }
    receiverAccount.value.Credit(amount);
  }
}
