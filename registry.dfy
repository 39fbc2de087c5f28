/**
 * GlobalRegistry: a process-wide directory from ids to banks, accounts and
 * users (static maps), plus a lazily created singleton instance holding a
 * name-to-service map.
 *
 * The static side is the class Registry, passed explicitly to every
 * operation that uses it. It is generic in the entity types so that this
 * module does not depend on the modules that define them; the entity
 * modules instantiate it.
 */
module Registry {
  import opened Common

  /** A registered service. Its start and stop have no behaviour; only the reference matters. */
  class Service {
    constructor ()
    {
    }
  }

  /** An object of class GlobalRegistry: what the singleton instance owns. */
  class Instance {
    var services: map<string, Service>

    constructor ()
      ensures services == map[]
    {
      services := map[];
    }

    /** getService: the service registered under a name, or undefined. */
    function GetService(name: string): (r: Option<Service>)
      reads this
      ensures r.Some? <==> name in services
      ensures r.Some? ==> r.value == services[name]
    {
      if name in services then Some(services[name]) else None
    }

    /** registerService: refuses a name already in use, otherwise adds it. */
    method RegisterService(name: string, service: Service) returns (r: Outcome)
      modifies this
      ensures old(name in services) ==> r == Fail(ServiceAlreadyRegistered(name)) && services == old(services)
      ensures old(name !in services) ==> r == Pass && services == old(services)[name := service]
      ensures r.Pass? ==> GetService(name) == Some(service)
      ensures forall n :: n != name ==> GetService(n) == old(GetService(n))
    {
      if name in services {
        return Fail(ServiceAlreadyRegistered(name));
      }
      services := services[name := service];
      r := Pass;
    }

    /** unregisterService: refuses an unknown name, otherwise removes it. */
    method UnregisterService(name: string) returns (r: Outcome)
      modifies this
      ensures old(name !in services) ==> r == Fail(ServiceNotRegistered(name)) && services == old(services)
      ensures old(name in services) ==> r == Pass && services == old(services) - {name}
      ensures GetService(name) == None
      ensures forall n :: n != name ==> GetService(n) == old(GetService(n))
    {
      if name !in services {
        return Fail(ServiceNotRegistered(name));
      }
      services := services - {name};
      r := Pass;
    }
  }

  /**
   * The static members of GlobalRegistry: the singleton slot and the three
   * entity maps. B, A and U are the bank, account and user types.
   */
  class Registry<B, A, U> {
    var instance: Instance?
    var banks: map<string, B>
    var accounts: map<string, A>
    var users: map<string, U>

    /** The state when the program starts: no instance yet, empty maps. */
    constructor ()
      ensures instance == null
      ensures banks == map[] && accounts == map[] && users == map[]
    {
      instance := null;
      banks, accounts, users := map[], map[], map[];
    }

    /** getInstance: creates the instance on the first call and returns that same object ever after. */
    method GetInstance() returns (r: Instance)
      modifies this
      ensures old(instance) != null ==> r == old(instance)
      ensures old(instance) == null ==> fresh(r) && r.services == map[]
      ensures instance == r
      ensures banks == old(banks) && accounts == old(accounts) && users == old(users)
    {
      if instance == null {
        instance := new Instance();
      }
      r := instance;
    }

    /** getBank: undefined for an id never registered (or cleared), otherwise the bank stored under it. */
    function GetBank(id: string): (r: Option<B>)
      reads this
      ensures r.Some? <==> id in banks
      ensures r.Some? ==> r.value == banks[id]
    {
      if id in banks then Some(banks[id]) else None
    }

    /** getAccount: as getBank, for accounts. */
    function GetAccount(id: string): (r: Option<A>)
      reads this
      ensures r.Some? <==> id in accounts
      ensures r.Some? ==> r.value == accounts[id]
    {
      if id in accounts then Some(accounts[id]) else None
    }

    /** getUser: as getBank, for users. */
    function GetUser(id: string): (r: Option<U>)
      reads this
      ensures r.Some? <==> id in users
      ensures r.Some? ==> r.value == users[id]
    {
      if id in users then Some(users[id]) else None
    }

    /** registerBank: a map insert under the bank's id; a later registration under the same id wins. */
    method RegisterBank(id: string, bank: B)
      modifies this
      ensures banks == old(banks)[id := bank]
      ensures GetBank(id) == Some(bank)
      ensures forall k :: k != id ==> GetBank(k) == old(GetBank(k))
      ensures accounts == old(accounts) && users == old(users) && instance == old(instance)
    {
      banks := banks[id := bank];
    }

    /** registerAccount: a map insert under the account's id. */
    method RegisterAccount(id: string, account: A)
      modifies this
      ensures accounts == old(accounts)[id := account]
      ensures GetAccount(id) == Some(account)
      ensures forall k :: k != id ==> GetAccount(k) == old(GetAccount(k))
      ensures banks == old(banks) && users == old(users) && instance == old(instance)
    {
      accounts := accounts[id := account];
    }

    /** registerUser: a map insert under the user's id. */
    method RegisterUser(id: string, user: U)
      modifies this
      ensures users == old(users)[id := user]
      ensures GetUser(id) == Some(user)
      ensures forall k :: k != id ==> GetUser(k) == old(GetUser(k))
      ensures banks == old(banks) && accounts == old(accounts) && instance == old(instance)
    {
      users := users[id := user];
    }

    /** clear: empties the three entity maps; the instance and its services stay. */
    method Clear()
      modifies this
      ensures banks == map[] && accounts == map[] && users == map[]
      ensures forall k :: GetBank(k) == None && GetAccount(k) == None && GetUser(k) == None
      ensures instance == old(instance)
      ensures instance != null ==> instance.services == old(instance.services)
    {
      banks, accounts, users := map[], map[], map[];
    }
  }
}
