/**
 * Client programs built on the contracts alone, each starting from a fresh
 * registry: what callers of the banking code can rely on.
 */
module Scenarios {
  import opened Common
  import opened Registry
  import opened Accounts
  import opened Users
  import opened Banks
  import opened Transactions

  /**
   * A registry with one bank that does not allow negatives, holding acc-1,
   * acc-2 and acc-3 with the given balances.
   */
  method BankWithAccounts(first: int, second: int, third: int)
      returns (reg: Directory, bank: Bank, a: BankAccount, b: BankAccount, c: BankAccount)
    requires first >= 0 && second >= 0 && third >= 0
    ensures fresh(a) && fresh(b) && fresh(c) && a != b && b != c && a != c
    ensures fresh(reg) && fresh(bank)
    ensures a.balance == first && b.balance == second && c.balance == third
    ensures !a.allowNegativeBalance && !b.allowNegativeBalance && !c.allowNegativeBalance
    ensures bank.accounts == map["acc-1" := a, "acc-2" := b, "acc-3" := c] == reg.accounts
    ensures reg.users == map[] && bank.id == "bank-1"
  {
    reg := new Registry<Bank, BankAccount, User>();
    bank := new Bank.Create(reg, "bank-1", BankOptions(None));
    var ra := bank.CreateAccount(reg, "acc-1", first);
    a := ra.value;
    var rb := bank.CreateAccount(reg, "acc-2", second);
    b := rb.value;
    var rc := bank.CreateAccount(reg, "acc-3", third);
    c := rc.value;
  }

  /** With acc-1 and acc-2 owned by user-1 and acc-3 by user-2, send pairs acc-1 with acc-3. */
  lemma SendPairsFirstAccounts(reg: Directory, bank: Bank, a: BankAccount, b: BankAccount, c: BankAccount,
                               alice: User, bob: User)
    requires bank.accounts == map["acc-1" := a, "acc-2" := b, "acc-3" := c] == reg.accounts
    requires reg.users == map["user-1" := alice, "user-2" := bob]
    requires alice.accountIds == ["acc-1", "acc-2"] && bob.accountIds == ["acc-3"]
    ensures bank.SendAccounts(reg, "user-1", "user-2", bank.id) == Success((a, c))
  {
    assert bank.accounts.Keys == {"acc-1", "acc-2", "acc-3"};
    assert FindMember(["acc-1", "acc-2"], bank.accounts.Keys) == Some("acc-1");
    assert FindMember(["acc-3"], bank.accounts.Keys) == Some("acc-3");
    assert bank.FindUserAccount(reg, "user-1") == Success("acc-1");
    assert bank.FindUserAccountInBank(reg, "user-2", bank.id) == Success("acc-3");
  }

  /** The bank of BankWithAccounts, with acc-1 and acc-2 owned by user-1 and acc-3 by user-2. */
  method OneBankWorld(first: int, second: int)
      returns (reg: Directory, bank: Bank, a: BankAccount, b: BankAccount, c: BankAccount)
    requires first >= 0 && second >= 0
    ensures fresh(a) && fresh(b) && fresh(c) && a != b && b != c && a != c
    ensures a.balance == first && b.balance == second && c.balance == 0
    ensures !a.allowNegativeBalance
    ensures bank.accounts == map["acc-1" := a, "acc-2" := b, "acc-3" := c] == reg.accounts
    ensures bank.SendAccounts(reg, "user-1", "user-2", bank.id) == Success((a, c))
  {
    reg, bank, a, b, c := BankWithAccounts(first, second, 0);
    var alice := User.Create(reg, "user-1", "Alice", ["acc-1", "acc-2"]);
    var bob := User.Create(reg, "user-2", "Bob", ["acc-3"]);
    assert reg.users == map["user-1" := alice, "user-2" := bob];
    SendPairsFirstAccounts(reg, bank, a, b, c, alice, bob);
  }

  /**
   * A sender whose first account holds 30 and second 20 cannot send 40:
   * send draws only on the first account, and nothing changes.
   */
  method NoPartialFill() returns (r: Outcome, first: int, second: int, received: int)
    ensures r == Fail(InsufficientFunds)
    ensures first == 30 && second == 20 && received == 0
  {
    var reg, bank, a, b, c := OneBankWorld(30, 20);
    r := bank.Send(reg, "user-1", "user-2", 40, bank.id);
    assert bank.SendAccounts(reg, "user-1", "user-2", bank.id) == Success((a, c));
    first, second, received := a.balance, b.balance, c.balance;
  }

  /** With enough on the first account, send moves the amount and leaves the second account alone. */
  method SendFromFirstAccount() returns (r: Outcome, first: int, second: int, received: int)
    ensures r == Pass
    ensures first == 5 && second == 20 && received == 25
  {
    var reg, bank, a, b, c := OneBankWorld(30, 20);
    r := bank.Send(reg, "user-1", "user-2", 25, bank.id);
    assert bank.SendAccounts(reg, "user-1", "user-2", bank.id) == Success((a, c));
    first, second, received := a.balance, b.balance, c.balance;
  }

  /** A non-positive amount is refused before any lookup. */
  method SendRejectsZero() returns (r: Outcome, balance: int)
    ensures r == Fail(NonPositiveAmount) && balance == 30
  {
    var reg := new Registry<Bank, BankAccount, User>();
    var bank := new Bank.Create(reg, "bank-1", BankOptions(None));
    var a := bank.CreateAccount(reg, "acc-1", 30);
    r := bank.Send(reg, "nobody", "nobody", 0, bank.id);
    balance := a.value.balance;
  }

  /**
   * createAccount refuses a negative initial balance in a bank that does not
   * allow negatives and accepts it in one that does.
   */
  method CreateAccountPolicy() returns (strict: Result<BankAccount>, lenientBalance: int, strictMembers: nat)
    ensures strict == Failure(NegativeBalanceNotAllowed)
    ensures lenientBalance == -1 && strictMembers == 0
  {
    var reg := new Registry<Bank, BankAccount, User>();
    var strictBank := new Bank.Create(reg, "bank-1", BankOptions(None));
    var lenientBank := new Bank.Create(reg, "bank-2", BankOptions(Some(true)));
    strict := strictBank.CreateAccount(reg, "acc-1", -1);
    var lenient := lenientBank.CreateAccount(reg, "acc-2", -1);
    lenientBalance := lenient.value.balance;
    strictMembers := |strictBank.GetAccounts()|;
  }

  /** An account that allows negatives and holds 5 can be debited 100, down to -95. */
  method DebitBelowZeroWhenAllowed() returns (r: Outcome, balance: int)
    ensures r == Pass && balance == -95
  {
    var reg := new Registry<Bank, BankAccount, User>();
    var account := BankAccount.Create(reg, "acc-1", 5, true);
    r := account.Debit(100);
    balance := account.balance;
  }

  /**
   * transfer checks no sign: a negative amount moves money from the receiver
   * to the sender and leaves a receiver that disallows negatives below zero.
   */
  method NegativeTransfer() returns (r: Outcome, sent: int, received: int, receiverSolvent: bool)
    ensures r == Pass && sent == 15 && received == -5 && !receiverSolvent
  {
    var reg, bank, a, b, _ := BankWithAccounts(10, 0, 0);
    r := Transfer(reg, bank, "acc-1", bank, "acc-2", -5);
    sent, received, receiverSolvent := a.balance, b.balance, b.Solvent();
  }

  /**
   * getInstance hands back one object; a second registration of a name is
   * refused; clear forgets entities but not services.
   */
  method RegistryLifecycle() returns (sameInstance: bool, second: Outcome, serviceKept: bool, bankForgotten: bool)
    ensures sameInstance && second == Fail(ServiceAlreadyRegistered("logger"))
    ensures serviceKept && bankForgotten
  {
    var reg := new Registry<Bank, BankAccount, User>();
    var first := reg.GetInstance();
    var again := reg.GetInstance();
    sameInstance := first == again;
    var logger := new Service();
    var ok := first.RegisterService("logger", logger);
    var another := new Service();
    second := first.RegisterService("logger", another);
    var bank := new Bank.Create(reg, "bank-1", BankOptions(None));
    reg.Clear();
    serviceKept := first.GetService("logger") == Some(logger);
    bankForgotten := reg.GetBank("bank-1") == None;
  }
}
