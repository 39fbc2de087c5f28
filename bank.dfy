/**
 * Bank: a namespace of member accounts with a negative-balance policy, and
 * the send operation that moves money between two users' accounts.
 *
 * send takes the sender's first member account in the user's list order and
 * debits the whole amount from it; there is no drawing from several accounts.
 */
module Banks {
  import opened Common
  import opened Registry
  import opened Accounts
  import opened Users

  /** The registry as the program instantiates it. */
  type Directory = Registry<Bank, BankAccount, User>

  /** id is the first element of ids that lies in keys. */
  ghost predicate IsFirstMember(ids: seq<string>, keys: set<string>, id: string)
  {
    exists i :: 0 <= i < |ids| && ids[i] == id && id in keys && forall j :: 0 <= j < i ==> ids[j] !in keys
  }

  /** The position Array.prototype.find stops at, or |ids| when nothing matches. */
  function FirstMemberIndex(ids: seq<string>, keys: set<string>): (i: nat)
    ensures i <= |ids|
    ensures forall j :: 0 <= j < i ==> ids[j] !in keys
    ensures i < |ids| ==> ids[i] in keys
  {
    if ids == [] then 0
    else if ids[0] in keys then 0
    else 1 + FirstMemberIndex(ids[1..], keys)
  }

  /** ids.find(id => keys.has(id)): the first member in list order, or undefined. */
  function FindMember(ids: seq<string>, keys: set<string>): (r: Option<string>)
    ensures r.None? <==> forall j :: 0 <= j < |ids| ==> ids[j] !in keys
    ensures r.Some? ==> IsFirstMember(ids, keys, r.value)
  {
    var i := FirstMemberIndex(ids, keys);
    if i < |ids| then Some(ids[i]) else None
  }

  /** The values of m under keys, in the order of keys (Array.from(map.values())). */
  function ValuesInOrder<K, V>(keys: seq<K>, m: map<K, V>): (r: seq<V>)
    ensures (forall i :: 0 <= i < |keys| ==> keys[i] in m) ==>
              |r| == |keys| && forall i :: 0 <= i < |keys| ==> r[i] == m[keys[i]]
  {
    if keys == [] then []
    else (if keys[0] in m then [m[keys[0]]] else []) + ValuesInOrder(keys[1..], m)
  }

  class Bank {
    const id: BankId
    /** The member accounts (a JS Map) ... */
    var accounts: map<BankAccountId, BankAccount>
    /** ... and the insertion order of its keys, which the Map iterates in. */
    var order: seq<BankAccountId>
    const isNegativeAllowed: bool

    /**
     * order lists each member id once; every member is stored under its own
     * id and carries the bank's negative-balance policy.
     */
    ghost predicate Valid()
      reads this
    {
      (forall i :: 0 <= i < |order| ==> order[i] in accounts) &&
      (forall k :: k in accounts ==> k in order) &&
      (forall i, j :: 0 <= i < j < |order| ==> order[i] != order[j]) &&
      (forall k :: k in accounts ==> accounts[k].id == k && accounts[k].allowNegativeBalance == isNegativeAllowed)
    }

    /**
     * create: a bank with no members whose policy is the option's flag,
     * false when absent; it registers itself. The id is the one
     * crypto.randomUUID produced.
     */
    constructor Create(reg: Directory, id: BankId, options: BankOptions)
      modifies reg
      ensures Valid()
      ensures this.id == id && accounts == map[] && order == []
      ensures isNegativeAllowed == (options.isNegativeAllowed == Some(true))
      ensures reg.banks == old(reg.banks)[id := this] && reg.GetBank(id) == Some(this)
      ensures reg.accounts == old(reg.accounts) && reg.users == old(reg.users) && reg.instance == old(reg.instance)
    {
      this.id := id;
      accounts := map[];
      order := [];
      isNegativeAllowed := match options.isNegativeAllowed
        case Some(allowed) => allowed
        case None => false;
      new;
      reg.RegisterBank(id, this);
    }

    /** getAccounts: the member accounts in insertion order, each once. */
    function GetAccounts(): (r: seq<BankAccount>)
      reads this
      ensures Valid() ==> |r| == |order| && forall i :: 0 <= i < |order| ==> r[i] == accounts[order[i]]
      ensures Valid() ==> forall i :: 0 <= i < |r| ==> r[i] in accounts.Values
      ensures Valid() ==> forall k :: k in accounts ==> accounts[k] in r
    {
      var r := ValuesInOrder(order, accounts);
      assert Valid() ==> forall k :: k in accounts ==> accounts[k] in r by {
        if Valid() {
          forall k | k in accounts ensures accounts[k] in r {
            var i :| 0 <= i < |order| && order[i] == k;
            assert r[i] == accounts[k];
          }
        }
      }
      r
    }

    /** hasAccount: membership, which is what getAccounts lists. */
    function HasAccount(accountId: BankAccountId): (r: bool)
      reads this
      ensures Valid() ==> (r <==> exists i :: 0 <= i < |GetAccounts()| && GetAccounts()[i].id == accountId)
    {
      var r := accountId in accounts;
      assert Valid() && r ==> exists i :: 0 <= i < |GetAccounts()| && GetAccounts()[i].id == accountId by {
        if Valid() && r {
          var i :| 0 <= i < |order| && order[i] == accountId;
          assert GetAccounts()[i] == accounts[accountId];
        }
      }
      r
    }

    /** getAccount: the local member first, then the registry, else AccountNotFound. */
    function GetAccount(reg: Directory, accountId: BankAccountId): (r: Result<BankAccount>)
      reads this, reg
      ensures accountId in accounts ==> r == Success(accounts[accountId])
      ensures accountId !in accounts ==> r == BankAccount.GetById(reg, accountId)
    {
      if accountId in accounts then Success(accounts[accountId])
      else
        match reg.GetAccount(accountId)
        case Some(account) => Success(account)
        case None => Failure(AccountNotFound(accountId))
    }

    /**
     * createAccount: refuses a negative initial balance when the bank does
     * not allow negatives; otherwise creates and registers an account with
     * the bank's policy and makes it a member.
     */
    method CreateAccount(reg: Directory, accountId: BankAccountId, initialBalance: int) returns (r: Result<BankAccount>)
      requires Valid()
      modifies this, reg
      ensures Valid()
      ensures initialBalance < 0 && !isNegativeAllowed ==>
                r == Failure(NegativeBalanceNotAllowed) && accounts == old(accounts) && order == old(order)
                && reg.accounts == old(reg.accounts)
      ensures !(initialBalance < 0 && !isNegativeAllowed) ==>
                r.Success? && fresh(r.value) && r.value.id == accountId && r.value.balance == initialBalance
                && r.value.allowNegativeBalance == isNegativeAllowed
                && accounts == old(accounts)[accountId := r.value]
                && reg.accounts == old(reg.accounts)[accountId := r.value]
                && order == (if accountId in old(accounts) then old(order) else old(order) + [accountId])
      ensures r.Success? ==> HasAccount(accountId) && GetAccount(reg, accountId) == Success(r.value) && r.value.Solvent()
      ensures reg.banks == old(reg.banks) && reg.users == old(reg.users) && reg.instance == old(reg.instance)
    {
      if initialBalance < 0 && !isNegativeAllowed {
        return Failure(NegativeBalanceNotAllowed);
      }
      var account := BankAccount.Create(reg, accountId, initialBalance, isNegativeAllowed);
      if account.id !in accounts {
        order := order + [account.id];
      }
      accounts := accounts[account.id := account];
      r := Success(account);
    }

    /**
     * findUserAccount: the first of the user's account ids, in list order,
     * that is a member of this bank. An id found but empty counts as not
     * found, as the code tests the result for falsiness.
     */
    function FindUserAccount(reg: Directory, userId: UserId): (r: Result<BankAccountId>)
      reads this, reg
      ensures userId !in reg.users ==> r == Failure(UserNotFound(userId))
      ensures r.Success? ==> userId in reg.users && IsFirstMember(reg.users[userId].accountIds, accounts.Keys, r.value)
      ensures userId in reg.users && r.Failure? ==> r.error == NoAccountForUser(userId, id)
      ensures userId in reg.users && "" !in accounts ==>
                (r.Success? <==> exists j :: 0 <= j < |reg.users[userId].accountIds| && reg.users[userId].accountIds[j] in accounts)
    {
      match reg.GetUser(userId)
      case None => Failure(UserNotFound(userId))
      case Some(user) =>
        var found := FindMember(user.GetAccountIds(), accounts.Keys);
        if found.None? || found.value == "" then Failure(NoAccountForUser(userId, id))
        else Success(found.value)
    }

    /** The bank findUserAccountInBank searches: this one for its own id, else the registry's. */
    function TargetBank(reg: Directory, bankId: BankId): (r: Option<Bank>)
      reads this, reg
      ensures bankId == id ==> r == Some(this)
      ensures bankId != id ==> r == reg.GetBank(bankId)
    {
      if bankId == id then Some(this) else reg.GetBank(bankId)
    }

    /**
     * findUserAccountInBank: as findUserAccount, but in the target bank; the
     * user is looked up before the bank.
     */
    function FindUserAccountInBank(reg: Directory, userId: UserId, bankId: BankId): (r: Result<BankAccountId>)
      reads this, reg, reg.banks.Values
      ensures userId !in reg.users ==> r == Failure(UserNotFound(userId))
      ensures userId in reg.users && TargetBank(reg, bankId).None? ==> r == Failure(BankNotFound(bankId))
      ensures r.Success? ==>
                (userId in reg.users && TargetBank(reg, bankId).Some?
                 && IsFirstMember(reg.users[userId].accountIds, TargetBank(reg, bankId).value.accounts.Keys, r.value))
      ensures userId in reg.users && TargetBank(reg, bankId).Some? && r.Failure? ==> r.error == NoAccountForUser(userId, bankId)
      ensures userId in reg.users && TargetBank(reg, bankId).Some? && "" !in TargetBank(reg, bankId).value.accounts ==>
                (r.Success? <==> exists j :: 0 <= j < |reg.users[userId].accountIds|
                                   && reg.users[userId].accountIds[j] in TargetBank(reg, bankId).value.accounts)
    {
      match reg.GetUser(userId)
      case None => Failure(UserNotFound(userId))
      case Some(user) =>
        match TargetBank(reg, bankId)
        case None => Failure(BankNotFound(bankId))
        case Some(targetBank) =>
          var found := FindMember(user.GetAccountIds(), targetBank.accounts.Keys);
          if found.None? || found.value == "" then Failure(NoAccountForUser(userId, bankId))
          else Success(found.value)
    }

    /** Naming this bank's own id as the target searches this bank, exactly as findUserAccount does. */
    lemma OwnIdTargetsThisBank(reg: Directory, userId: UserId)
      ensures FindUserAccountInBank(reg, userId, id) == FindUserAccount(reg, userId)
    {
    }

    /**
     * The sender and receiver accounts send resolves before moving money
     * (the findUserAccount, findUserAccountInBank, getAccount and registry
     * lookups, in that order), or the first error among them.
     */
    function SendAccounts(reg: Directory, fromUserId: UserId, toUserId: UserId, toBankId: BankId)
      : (r: Result<(BankAccount, BankAccount)>)
      reads this, reg, reg.banks.Values
      ensures r.Success? ==> r.value.0 in accounts.Values && r.value.1 in reg.accounts.Values
      ensures r.Success? ==>
                (FindUserAccount(reg, fromUserId).Success?
                 && r.value.0 == accounts[FindUserAccount(reg, fromUserId).value]
                 && FindUserAccountInBank(reg, toUserId, toBankId).Success?
                 && FindUserAccountInBank(reg, toUserId, toBankId).value in reg.accounts
                 && r.value.1 == reg.accounts[FindUserAccountInBank(reg, toUserId, toBankId).value])
      ensures FindUserAccount(reg, fromUserId).Failure? ==> r == Failure(FindUserAccount(reg, fromUserId).error)
      ensures FindUserAccount(reg, fromUserId).Success? && FindUserAccountInBank(reg, toUserId, toBankId).Failure? ==>
                r == Failure(FindUserAccountInBank(reg, toUserId, toBankId).error)
      ensures FindUserAccount(reg, fromUserId).Success? && FindUserAccountInBank(reg, toUserId, toBankId).Success?
              && FindUserAccountInBank(reg, toUserId, toBankId).value !in reg.accounts ==>
                r == Failure(AccountNotFound(FindUserAccountInBank(reg, toUserId, toBankId).value))
      ensures r.Success? <==>
                (FindUserAccount(reg, fromUserId).Success? && FindUserAccountInBank(reg, toUserId, toBankId).Success?
                 && FindUserAccountInBank(reg, toUserId, toBankId).value in reg.accounts)
    {
      match FindUserAccount(reg, fromUserId)
      case Failure(e) => Failure(e)
      case Success(fromId) =>
        match FindUserAccountInBank(reg, toUserId, toBankId)
        case Failure(e) => Failure(e)
        case Success(toId) =>
          match reg.GetAccount(toId)
          case None => Failure(AccountNotFound(toId))
          case Some(toAccount) => Success((GetAccount(reg, fromId).value, toAccount))
    }

    /**
     * The catch block of send: an error other than InsufficientFunds
     * re-credits the sender and becomes TransferFailed; InsufficientFunds is
     * re-thrown as it is.
     */
    static method RecoverFromTransferError(fromAccount: BankAccount, amount: int, e: Error) returns (r: Error)
      modifies fromAccount
      ensures e == InsufficientFunds ==> r == e && fromAccount.balance == old(fromAccount.balance)
      ensures e != InsufficientFunds ==> r == TransferFailed(e) && fromAccount.balance == old(fromAccount.balance) + amount
    {
      if e != InsufficientFunds {
        fromAccount.Credit(amount);
        return TransferFailed(e);
      }
      r := e;
    }

    /**
     * send: validates the amount, resolves one sender and one receiver
     * account, debits the whole amount from the sender and credits the
     * receiver. Every failure leaves every balance as it was; a success
     * moves exactly amount and keeps every account solvent that was.
     */
    method Send(reg: Directory, fromUserId: UserId, toUserId: UserId, amount: int, toBankId: BankId) returns (r: Outcome)
      modifies accounts.Values, reg.accounts.Values
      ensures amount <= 0 ==> r == Fail(NonPositiveAmount)
      ensures amount > 0 && SendAccounts(reg, fromUserId, toUserId, toBankId).Failure? ==>
                r == Fail(SendAccounts(reg, fromUserId, toUserId, toBankId).error)
      ensures amount > 0 && SendAccounts(reg, fromUserId, toUserId, toBankId).Success? ==>
                var (sender, _) := SendAccounts(reg, fromUserId, toUserId, toBankId).value;
                r == if DebitAllowed(old(sender.balance), sender.allowNegativeBalance, amount) then Pass
                     else Fail(InsufficientFunds)
      ensures r.Fail? ==> forall a :: a in old(accounts.Values) + old(reg.accounts.Values) ==> a.balance == old(a.balance)
      ensures r.Pass? ==>
                var (sender, receiver) := SendAccounts(reg, fromUserId, toUserId, toBankId).value;
                (sender != receiver ==>
                   sender.balance == old(sender.balance) - amount && receiver.balance == old(receiver.balance) + amount
                   && sender.balance + receiver.balance == old(sender.balance) + old(receiver.balance))
                && (sender == receiver ==> sender.balance == old(sender.balance))
                && forall a :: a in old(accounts.Values) + old(reg.accounts.Values) && a != sender && a != receiver ==>
                     a.balance == old(a.balance)
      ensures forall a :: a in old(accounts.Values) + old(reg.accounts.Values) ==> (old(a.Solvent()) ==> a.Solvent())
    {
      if amount <= 0 {
        return Fail(NonPositiveAmount);
      }
      var fromAccountId := FindUserAccount(reg, fromUserId);
      if fromAccountId.Failure? {
        return Fail(fromAccountId.error);
      }
      var toAccountId := FindUserAccountInBank(reg, toUserId, toBankId);
      if toAccountId.Failure? {
        return Fail(toAccountId.error);
      }
      var fromAccount := GetAccount(reg, fromAccountId.value).value;
      var toAccount := reg.GetAccount(toAccountId.value);
      if toAccount.None? {
        return Fail(AccountNotFound(toAccountId.value));
      }
      var debited := fromAccount.Debit(amount);
      if debited.Fail? {
        var e := RecoverFromTransferError(fromAccount, amount, debited.error);
        return Fail(e);
      }
      toAccount.value.Credit(amount);
      r := Pass;
    }
  }
}
