# banking-test in Dafny

A model of the in-memory banking library JS-TS-Guild/banking-test, with
proofs about it. It covers five parts:

- **Accounts** (`bank_account.dfy`). A `BankAccount` has an integer balance
  and a fixed "negative allowed" flag. `Debit` refuses to overdraw unless
  the flag is set. `Credit` adds any amount.
- **Banks** (`bank.dfy`). A `Bank` holds member accounts in insertion
  order and has a negative-balance policy. `CreateAccount` enforces that
  policy. `GetAccount` looks in the bank first, then in the registry.
  `Send` works in four steps:
  1. It refuses an amount that is not positive.
  2. It picks the sender's first member account, in the order of the
     user's account list.
  3. It picks the receiver's first account in the target bank.
  4. It debits the whole amount from that one sender account and credits
     the receiver.
- **Registry** (`registry.dfy`). This is GlobalRegistry: id-to-entity maps
  for banks, accounts and users, plus a lazily created singleton that holds
  a name-to-service map. The process-wide static state is an explicit
  `Registry` object, passed to every operation that uses it.
- **Users** (`user.dfy`) and **transfer** (`transaction_service.dfy`). A
  `User` has a fixed id, a name and an ordered list of account ids.
  `TransactionService.transfer` is a bare debit followed by a credit.
- **isEqual** (`is_equal.dfy`). Deep equality over JavaScript values. The
  model follows the source's case analysis.

`scenarios.dfy` holds client programs that use only the contracts. One of
them shows that a sender with 30 and 20 on two accounts cannot send 40.

Thrown errors become a tagged `Error` datatype, returned in a `Result` or
`Outcome`. Ids that `crypto.randomUUID` would generate are parameters. No
uniqueness is assumed; a repeated id overwrites, as `Map.set` does. Money
is `int`.

The registry's `register` operations key each entity by its own `getId()`.
The generic `Registry` class cannot call `getId()`, so it takes the key as
an explicit argument. Every call site passes the entity's own id:
`BankAccount.Create`, `Bank.Create` and `User.Create` each register under
the id they store.

`send` (src/models/bank.ts:122-157) debits the full amount from one sender
account. It never draws on several accounts to cover the amount, and the
model does not either.

## Model

| member | source | states |
|---|---|---|
| Accounts.BankAccount.Create | src/models/bank-account.ts:18-23 | the new account stores the given balance and flag unchecked, is registered under its id, and getById then returns it; the bank and user maps are unchanged |
| Accounts.BankAccount.Credit | src/models/bank-account.ts:33-35 | the balance rises by exactly amount, whatever its sign; a non-negative credit keeps a solvent account solvent |
| Accounts.BankAccount.Debit | src/models/bank-account.ts:37-42 | fails exactly when negatives are disallowed and the balance is below amount; the failure is InsufficientFunds and leaves the balance unchanged; otherwise the balance drops by exactly amount; never fails when negatives are allowed; debiting the whole balance succeeds and leaves 0; a non-negative balance stays non-negative when negatives are disallowed |
| Accounts.BankAccount.GetById | src/models/bank-account.ts:44-50 | succeeds exactly when the registry holds the id, with that account; otherwise fails with AccountNotFound for that id |
| Banks.Bank.Create | src/models/bank.ts:46-55 | a bank with no members whose policy is the option's flag, false when the flag is absent; the bank is registered under its id |
| Banks.Bank.CreateAccount | src/models/bank.ts:61-71 | a negative balance in a bank that disallows negatives fails with NegativeBalanceNotAllowed and adds nothing; otherwise a fresh account with the given balance and the bank's policy becomes a member and is registered; no other member changes; the id is appended to the iteration order if it is new; hasAccount then holds |
| Banks.Bank.GetAccount | src/models/bank.ts:73-80 | a local member wins; otherwise the result is exactly the registry lookup, with AccountNotFound when that finds nothing |
| Banks.FindMember | src/models/bank.ts:88 | Array.find over the account ids: nothing when no id is a member, otherwise the first member in list order |
| Banks.FirstMemberIndex | src/models/bank.ts:88 | the stopping index of the find: every earlier id is not a member, and the id at the index is a member |
| Banks.Bank.FindUserAccount | src/models/bank.ts:82-96 | UserNotFound for an unknown user; a success is the first of the user's ids that is a member of this bank; any other failure is NoAccountForUser for this bank; with no empty member id, success holds exactly when some id of the user is a member |
| Banks.Bank.TargetBank | src/models/bank.ts:104-105 | this bank when the id is its own, otherwise the registry's bank under the id |
| Banks.Bank.FindUserAccountInBank | src/models/bank.ts:98-120 | UserNotFound first, then BankNotFound for an unknown target bank; a success is the user's first id that is a member of the target bank; any other failure is NoAccountForUser for that bank; with no empty member id, success holds exactly when some id of the user is a member |
| Banks.Bank.OwnIdTargetsThisBank | src/models/bank.ts:104-105 | naming the bank's own id as target gives the same answer as findUserAccount |
| Banks.Bank.SendAccounts | src/models/bank.ts:133-142 | the sender is this bank's member under the id findUserAccount found; the receiver is the registry's account under the id findUserAccountInBank found; a failing findUserAccount or findUserAccountInBank passes its error on, in that order; a receiver id the registry lacks gives AccountNotFound for that id; success holds exactly when all three lookups succeed |
| Banks.Bank.RecoverFromTransferError | src/models/bank.ts:148-156 | InsufficientFunds is passed on with the balance untouched; any other error re-credits the sender by amount and becomes TransferFailed |
| Banks.Bank.Send | src/models/bank.ts:122-157 | a non-positive amount fails with NonPositiveAmount; lookup errors are passed on; otherwise the result is Pass exactly when the sender's debit is allowed, else InsufficientFunds; a failure changes no balance of any member or registered account; a success moves exactly amount from sender to receiver, conserving their sum, and changes nothing else; every solvent account stays solvent |
| Banks.Bank.HasAccount | src/models/bank.ts:160-162 | membership holds exactly when some account that getAccounts lists has that id |
| Banks.Bank.GetAccounts | src/models/bank.ts:165-167 | the members in insertion order, one per id, each a member, and every member listed |
| Banks.ValuesInOrder | src/models/bank.ts:166 | when every key is in the map, the i-th result is the value under the i-th key |
| Registry.Instance.RegisterService | src/services/GlobalRegistry.ts:30-35 | a name in use fails with ServiceAlreadyRegistered and leaves the map unchanged; otherwise getService of the name returns the service; other names are unaffected |
| Registry.Instance.UnregisterService | src/services/GlobalRegistry.ts:41-46 | an unknown name fails with ServiceNotRegistered and leaves the map unchanged; otherwise the name is removed; afterwards getService of the name is undefined and other names are unaffected |
| Registry.Instance.GetService | src/services/GlobalRegistry.ts:37-39 | undefined exactly when the name is not registered, otherwise the service stored under it |
| Registry.Registry.GetBank | src/services/GlobalRegistry.ts:60-62 | undefined exactly when the id was never registered (or was cleared), otherwise the bank stored under it |
| Registry.Registry.GetAccount | src/services/GlobalRegistry.ts:64-66 | undefined exactly when the id was never registered (or was cleared), otherwise the account stored under it |
| Registry.Registry.GetUser | src/services/GlobalRegistry.ts:68-70 | undefined exactly when the id was never registered (or was cleared), otherwise the user stored under it |
| Registry.Registry.GetInstance | src/services/GlobalRegistry.ts:23-28 | the first call creates an instance with no services; every later call returns that same object |
| Registry.Registry.RegisterBank | src/services/GlobalRegistry.ts:48-50 | a map insert: getBank of the id returns this bank; other ids and the other maps are unaffected |
| Registry.Registry.RegisterAccount | src/services/GlobalRegistry.ts:52-54 | a map insert: getAccount of the id returns this account; other ids and the other maps are unaffected |
| Registry.Registry.RegisterUser | src/services/GlobalRegistry.ts:56-58 | a map insert: getUser of the id returns this user; other ids and the other maps are unaffected |
| Registry.Registry.Clear | src/services/GlobalRegistry.ts:72-76 | all three entity maps are empty, so every get returns undefined; the instance and its services are unchanged |
| Users.User.Create | src/models/user.ts:10-20 | a user whose getId, getName and getAccountIds return the given values unchecked, in the given order; it is registered, so getUser of its id returns it |
| Transactions.TransferAccounts | src/services/TransactionService.ts:12-13 | success holds exactly when both getAccount calls succeed, and the pair is their two results, sender first; otherwise the first lookup error is passed on |
| Transactions.Transfer | src/services/TransactionService.ts:5-21 | a failed lookup changes nothing and passes its error on; a debit the sender cannot make fails with InsufficientFunds and changes nothing; otherwise the sender drops by amount and the receiver rises by amount, with no check of the amount's sign |
| JsEquality.IsEqual | src/is-equal.ts:1-27 | identical values are equal; equal values have the same typeof; a null, undefined or primitive value is equal only to itself |
| JsEquality.IsEqualReflexive | src/is-equal.ts:1-27 | every value is isEqual to itself, although no array or object is === to anything |
| JsEquality.NullishEqualsOnlyItself | src/is-equal.ts:2-4 | when either side is null or undefined, the two are equal exactly when they are identical |
| JsEquality.TypeMismatchUnequal | src/is-equal.ts:6 | values whose typeof differs are unequal |
| JsEquality.PrimitivesEqualByValue | src/is-equal.ts:26 | two booleans, numbers or strings are equal exactly when they are the same value |
| JsEquality.ArraysEqual | src/is-equal.ts:8-11 | two arrays are equal exactly when they have the same length and are pairwise isEqual |
| JsEquality.ObjectsEqual | src/is-equal.ts:13-24 | two objects are equal exactly when they have the same key count and every key of the first is a key of the second with isEqual values; key order is irrelevant |
| JsEquality.IndexKeyRoundTrip | src/is-equal.ts:14-22 | the decimal key of index i is a canonical digit string that parses back to i, so Object.keys of an array names its elements |
| JsEquality.ArrayKeyNamesElement | src/is-equal.ts:14-22 | the key of index i is an own key of the array, and looking it up gives element i |
| JsEquality.ArrayEqualsIndexKeyedObject | src/is-equal.ts:8-24 | [1] and {"0": 1} are equal, in both orders |
| JsEquality.LengthKeyAsymmetry | src/is-equal.ts:13-24 | {length: 1} equals [5], but [5] does not equal {length: 1} |
| JsEquality.IsEqualFixedIsStructural | src/is-equal.ts:1-27 | with an array against a non-array object ruled unequal, isEqual is exactly structural equality, so it is symmetric and transitive |
| Scenarios.NoPartialFill | src/models/bank.ts:133-155 | a sender with 30 and 20 on two accounts cannot send 40; every balance stays as it was |
| Scenarios.SendFromFirstAccount | src/models/bank.ts:133-147 | sending 25 takes it all from the first listed account; the second account keeps its 20 |
| Scenarios.SendRejectsZero | src/models/bank.ts:128-130 | an amount of 0 is refused before any lookup, even for unknown users |
| Scenarios.CreateAccountPolicy | src/models/bank.ts:61-70 | a negative initial balance is refused by a default bank, which gains no member, and accepted by a bank that allows negatives |
| Scenarios.DebitBelowZeroWhenAllowed | src/models/bank-account.ts:37-42 | an account that allows negatives and holds 5 can be debited 100, down to -95 |
| Scenarios.NegativeTransfer | src/services/TransactionService.ts:19-20 | a transfer of -5 moves 5 from the receiver to the sender and leaves a receiver that disallows negatives at -5 |
| Scenarios.RegistryLifecycle | src/services/GlobalRegistry.ts:23-35 | getInstance returns one object; a second registration of a name is refused; clear forgets the bank but keeps the service |

## Left out

- Id generation with `crypto.randomUUID` is not modelled. Ids are parameters, and their uniqueness is not assumed.
- JavaScript numbers are floating point. Amounts and balances are unbounded integers, so rounding, NaN and Infinity are not modelled, including NaN in isEqual.
- Error message strings are not modelled; errors are datatype variants. The class InsufficientFundsError (src/models/bank.ts:18-25) is never thrown, so it has no counterpart.
- The `start` and `stop` of the Service interface have no behaviour; a service is an opaque reference.
- In `send`, a credit cannot fail, so only a debit can reach the catch block. The rollback branch is modelled as `RecoverFromTransferError` and proved on its own, but `Send` can only reach its InsufficientFunds branch.
- The `!senderAccount || !receiverAccount` test in `transfer` cannot fire, because getAccount throws instead of returning undefined. It has no counterpart.
- isEqual works on finite value trees. Shared references and cyclic objects are not modelled, and `===` on two arrays or objects is taken to be false.
- isEqual does not model non-index keys on arrays or the 2^32 bound on array length. Strings are compared as primitives only.
- The getters `getId`, `getBalance`, `getName` and `getAccountIds` are field reads without contracts of their own. `getAccountIds` copies the list; the model returns a sequence value, so the caller cannot change the user's list through it.
- Users.User.Create: the constructor keeps the caller's array itself (src/models/user.ts:13), so a caller that later reorders or extends that array changes the user's list, and with it the account findUserAccount and send pick. The model stores a sequence value, so this aliasing is not captured.
- Banks.Bank.Create: the default `options = {}` (src/models/bank.ts:46, 53) is not modelled; callers pass `BankOptions(None)` for it.
- Accounts.BankAccount.Create: the default `allowNegativeBalance = false` (src/models/bank-account.ts:18) is not modelled; callers pass the flag explicitly.
- Banks.Bank.Send: the default `toBankId = this.id` (src/models/bank.ts:126) is not modelled; callers pass the bank id explicitly, and OwnIdTargetsThisBank shows that passing the bank's own id searches this bank.
- Concurrency is not modelled; the code has none.

## Findings

| source | as written | input that shows it | evidently intended | confidence | as-written member | corrected member |
|---|---|---|---|---|---|---|
| src/is-equal.ts:8-24 | an array meets a non-array object in the key branch. hasOwnProperty sees the array's "length", but Object.keys does not | isEqual({length: 1}, [5]) is true, while isEqual([5], {length: 1}) is false | an array is never equal to a non-array object, which makes isEqual symmetric; JsEquality.IsEqualFixed is that definition | not executed | JsEquality.LengthKeyAsymmetry | JsEquality.IsEqualFixedIsStructural |
