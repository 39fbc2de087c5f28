/**
 * BankAccount: a balance that debit refuses to overdraw unless the account
 * was created with allowNegativeBalance, and that credit raises unchecked.
 */
module Accounts {
  import opened Common
  import opened Registry

  /** The negation of debit's guard: a debit of amount goes through. */
  predicate DebitAllowed(balance: int, allowNegativeBalance: bool, amount: int)
  {
    allowNegativeBalance || balance >= amount
  }

  class BankAccount {
    const id: BankAccountId
    var balance: int
    const allowNegativeBalance: bool

    constructor (id: BankAccountId, balance: int, allowNegativeBalance: bool)
      ensures this.id == id && this.balance == balance
      ensures this.allowNegativeBalance == allowNegativeBalance
    {
      this.id := id;
      this.balance := balance;
      this.allowNegativeBalance := allowNegativeBalance;
    }

    /** The ledger invariant: the balance is non-negative unless negatives are allowed. */
    predicate Solvent()
      reads this
    {
      allowNegativeBalance || balance >= 0
    }

    function GetBalance(): int
      reads this
    {
      balance
    }

    /**
     * create: stores the balance and flag as given, with no check, under a
     * new id, and registers the account. The id is the one crypto.randomUUID
     * produced.
     */
    static method Create<B, U>(reg: Registry<B, BankAccount, U>, id: BankAccountId, balance: int,
                               allowNegativeBalance: bool) returns (account: BankAccount)
      modifies reg
      ensures fresh(account)
      ensures account.id == id && account.GetBalance() == balance
      ensures account.allowNegativeBalance == allowNegativeBalance
      ensures reg.accounts == old(reg.accounts)[id := account]
      ensures GetById(reg, id) == Success(account)
      ensures reg.banks == old(reg.banks) && reg.users == old(reg.users) && reg.instance == old(reg.instance)
    {
      account := new BankAccount(id, balance, allowNegativeBalance);
      reg.RegisterAccount(id, account);
    }

    /** credit: adds amount, whatever its sign. */
    method Credit(amount: int)
      modifies this
      ensures balance == old(balance) + amount
      ensures amount >= 0 && old(Solvent()) ==> Solvent()
    {
      balance := balance + amount;
    }

    /**
     * debit: throws InsufficientFunds, changing nothing, when negatives are
     * not allowed and the balance is below amount; otherwise subtracts it.
     */
    method Debit(amount: int) returns (r: Outcome)
      modifies this
      ensures r.Fail? <==> !DebitAllowed(old(balance), allowNegativeBalance, amount)
      ensures r.Fail? ==> r.error == InsufficientFunds && balance == old(balance)
      ensures r.Pass? ==> balance == old(balance) - amount
      ensures allowNegativeBalance ==> r.Pass?
      ensures old(balance) == amount ==> r.Pass? && balance == 0
      ensures !allowNegativeBalance && r.Pass? ==> balance >= 0
      ensures old(Solvent()) ==> Solvent()
    {
      if !allowNegativeBalance && balance < amount {
        return Fail(InsufficientFunds);
      }
      balance := balance - amount;
      r := Pass;
    }

    /** getById: the account the registry holds under the id, or AccountNotFound. */
    static function GetById<B, U>(reg: Registry<B, BankAccount, U>, accountId: BankAccountId): (r: Result<BankAccount>)
      reads reg
      ensures r.Success? <==> reg.GetAccount(accountId).Some?
      ensures r.Success? ==> reg.GetAccount(accountId) == Some(r.value)
      ensures r.Failure? ==> r.error == AccountNotFound(accountId)
    {
      match reg.GetAccount(accountId)
      case Some(account) => Success(account)
      case None => Failure(AccountNotFound(accountId))
    }
  }
}
