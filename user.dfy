/**
 * User: an id, a name and an ordered list of account ids, none of which a
 * method of User changes. The list order is the priority order in which a
 * bank looks for the user's account.
 */
module Users {
  import opened Common
  import opened Registry

  class User {
    const id: UserId
    const name: string
    const accountIds: seq<BankAccountId>

    constructor (id: UserId, name: string, accountIds: seq<BankAccountId>)
      ensures this.id == id && this.name == name && this.accountIds == accountIds
    {
      this.id := id;
      this.name := name;
      this.accountIds := accountIds;
    }

    function GetId(): UserId
    {
      id
    }

    function GetName(): string
    {
      name
    }

    /** A copy of the list: a sequence is a value, so the caller cannot change the user's list through it. */
    function GetAccountIds(): seq<BankAccountId>
    {
      accountIds
    }

    /**
     * create: builds the user under a new id (the one crypto.randomUUID
     * produced) with no validation of the name or the ids, and registers it.
     */
    static method Create<B, A>(reg: Registry<B, A, User>, id: UserId, name: string,
                               accountIds: seq<BankAccountId>) returns (user: User)
      modifies reg
      ensures fresh(user)
      ensures user.GetId() == id && user.GetName() == name && user.GetAccountIds() == accountIds
      ensures reg.users == old(reg.users)[id := user]
      ensures reg.GetUser(id) == Some(user)
      ensures reg.banks == old(reg.banks) && reg.accounts == old(reg.accounts) && reg.instance == old(reg.instance)
    {
      user := new User(id, name, accountIds);
      reg.RegisterUser(id, user);
    }
  }
}
