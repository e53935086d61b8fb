# Verified model of the todo store and the banking demos

This project models three small pieces of state-changing logic from a .NET
teaching repository:

- **The in-memory todo store** behind the SimpleCRUDTodoList web pages
  (module `TodoStore`, file `todo_store.dfy`). The store holds one list of
  todos and supports five operations:
  - return the whole list;
  - look a todo up by its id;
  - add a todo, giving it the id `max(existing ids) + 1`, or `1` when the store is empty;
  - update the title and completion flag of the todo with a given id;
  - delete the todo with a given id.

  The store is a class with one `seq<Todo>` field. Each method's new state is
  tied to a specification function of the old list (`WithAdded`, `WithUpdated`,
  `WithDeleted`). The lookup is the function `Lookup`, built on `FindIndex`.
  Lemmas prove the properties the pages rely on:
  - a new id is larger than every id already present;
  - ids stay unique, and in fact strictly ascending;
  - a lookup after an add, update or delete sees exactly that change;
  - a delete removes exactly the entry with that id;
  - over any sequential series of add, update and delete calls (`StoreCall`, applied by
    `ApplyAll`), ids stay strictly ascending and so never repeat.
- **Bank accounts with polymorphic withdrawal rules** (module
  `InheritanceAndPolymorphism`, file `inheritance_accounts.dfy`). An abstract
  account has a shared deposit rule. A savings account refuses a withdrawal that
  would take the balance below its minimum balance. A current account allows an
  overdraft, but no further than its overdraft limit. Dafny classes cannot
  inherit from one another here. The two subclasses therefore become one class
  with a constant `kind` (`Savings(minimumBalance)` or `Current(overdraftLimit)`),
  and `Withdraw` dispatches on it with each subclass's own guard.
  `WithdrawAccepted` proves that both guards come to one rule: the amount is
  positive and the balance left is not below the account's floor.
- **The simple bank account** (module `ObjectOrientedConcept`, file
  `simple_account.dfy`). It has the same deposit rule. A withdrawal is accepted
  only when `0 < amount <= balance`, so an account that is not overdrawn never
  becomes overdrawn.

Each account method returns whether the operation was accepted. The source
reports the outcome only as a console message. A refused operation leaves the
balance unchanged. The account number, holder, minimum balance and overdraft
limit are `const` fields: only the constructors set them, and nothing can change
them afterwards. Each demonstration program is a method whose postcondition
gives the balances it ends with.

## Model

| member | source | states |
|---|---|---|
| TodoStore.MaxId | src/ExamplesSolutions/part2/SimpleCRUDTodoList/DataStores/TodoDataStore.cs:15 | the result is an upper bound of every id in the non-empty list and is the id of some entry (LINQ `Max`) |
| TodoStore.NextId | src/ExamplesSolutions/part2/SimpleCRUDTodoList/DataStores/TodoDataStore.cs:15 | the id given to a new todo is 1 on an empty list; otherwise it is strictly greater than every id and exactly one more than some id present |
| TodoStore.FindIndex | src/ExamplesSolutions/part2/SimpleCRUDTodoList/DataStores/TodoDataStore.cs:11 | returns no index exactly when no entry has the id; otherwise returns the position of the first entry with that id |
| TodoStore.Lookup | src/ExamplesSolutions/part2/SimpleCRUDTodoList/DataStores/TodoDataStore.cs:11 | `FirstOrDefault`: nothing exactly when the id is absent; otherwise the first entry with that id |
| TodoStore.WithAdded | src/ExamplesSolutions/part2/SimpleCRUDTodoList/DataStores/TodoDataStore.cs:13-17 | adding appends exactly one entry at the end with the caller's title and flag; earlier entries are unchanged and in order; the new entry is the caller's todo re-keyed with exactly `NextId` (1 on an empty store, otherwise the largest id plus one), so it exceeds every earlier id |
| TodoStore.WithUpdated | src/ExamplesSolutions/part2/SimpleCRUDTodoList/DataStores/TodoDataStore.cs:19-27 | the first entry with the todo's id becomes that todo (new title and flag, same id); length, all ids and all other entries are unchanged; no-op when the id is absent |
| TodoStore.WithDeleted | src/ExamplesSolutions/part2/SimpleCRUDTodoList/DataStores/TodoDataStore.cs:29-36 | the first entry with the id is removed, so the length drops by one; entries before and after it keep their order; no-op when the id is absent |
| TodoStore.AscendingIdsAreUnique | src/ExamplesSolutions/part2/SimpleCRUDTodoList/DataStores/TodoDataStore.cs:15-16 | the store invariant (ids strictly ascending) implies that ids are pairwise distinct |
| TodoStore.AddKeepsIdsUnique | src/ExamplesSolutions/part2/SimpleCRUDTodoList/DataStores/TodoDataStore.cs:15-16 | if ids are pairwise distinct before an add, they are still distinct after it |
| TodoStore.AddKeepsIdsAscending | src/ExamplesSolutions/part2/SimpleCRUDTodoList/DataStores/TodoDataStore.cs:15-16 | an add keeps ids strictly ascending |
| TodoStore.LookupAfterAdd | src/ExamplesSolutions/part2/SimpleCRUDTodoList/DataStores/TodoDataStore.cs:11-16 | after an add, a lookup by the newly assigned id returns exactly the added todo with that id |
| TodoStore.LookupAfterUpdate | src/ExamplesSolutions/part2/SimpleCRUDTodoList/DataStores/TodoDataStore.cs:11-27 | after updating a present id, a lookup by that id returns the todo with the new title and flag |
| TodoStore.DeleteKeepsIdsAscending | src/ExamplesSolutions/part2/SimpleCRUDTodoList/DataStores/TodoDataStore.cs:29-36 | a delete keeps ids strictly ascending |
| TodoStore.DeleteRemovesOnlyId | src/ExamplesSolutions/part2/SimpleCRUDTodoList/DataStores/TodoDataStore.cs:29-36 | with unique ids, a todo stays in the store after deleting `id` exactly when it was there and its id is not `id`; a later lookup by `id` finds nothing |
| TodoStore.CallsKeepIdsUnique | src/ExamplesSolutions/part2/SimpleCRUDTodoList/DataStores/TodoDataStore.cs:13-36 | over any sequential series of adds, updates and deletes, a store whose ids start strictly ascending (the empty store, for one) keeps them strictly ascending and pairwise distinct |
| TodoStore.TodoDataStore.constructor | src/ExamplesSolutions/part2/SimpleCRUDTodoList/DataStores/TodoDataStore.cs:7 | the store starts empty, which satisfies the invariant |
| TodoStore.TodoDataStore.GetAllTodos | src/ExamplesSolutions/part2/SimpleCRUDTodoList/DataStores/TodoDataStore.cs:9 | returns the current list |
| TodoStore.TodoDataStore.GetTodoById | src/ExamplesSolutions/part2/SimpleCRUDTodoList/DataStores/TodoDataStore.cs:11 | returns `Lookup` of the current list, which is nothing exactly when the id is absent and is otherwise a stored todo with that id; the store does not change |
| TodoStore.TodoDataStore.AddTodo | src/ExamplesSolutions/part2/SimpleCRUDTodoList/DataStores/TodoDataStore.cs:13-17 | the new list is `WithAdded` of the old one; the stored todo carries `NextId` in place of the caller's id; the invariant is kept |
| TodoStore.TodoDataStore.UpdateTodo | src/ExamplesSolutions/part2/SimpleCRUDTodoList/DataStores/TodoDataStore.cs:19-27 | the new list is `WithUpdated` of the old one; the invariant is kept |
| TodoStore.TodoDataStore.DeleteTodoById | src/ExamplesSolutions/part2/SimpleCRUDTodoList/DataStores/TodoDataStore.cs:29-36 | the new list is `WithDeleted` of the old one; the invariant is kept; on a valid store no todo with that id remains, so a later `GetTodoById(id)` finds nothing |
| InheritanceAndPolymorphism.WithdrawAccepted | src/ExamplesSolutions/part1/4-InheritanceAndPolymorphism/Program.cs:66-111 | the savings guard (`balance - amount >= minimumBalance`) and the current-account guard (`balance + overdraftLimit >= amount`) both accept exactly when the amount is positive and the balance left is at least the account's floor |
| InheritanceAndPolymorphism.BankAccount.SavingsAccount | src/ExamplesSolutions/part1/4-InheritanceAndPolymorphism/Program.cs:59-63 | sets number, holder, initial balance and minimum balance |
| InheritanceAndPolymorphism.BankAccount.CurrentAccount | src/ExamplesSolutions/part1/4-InheritanceAndPolymorphism/Program.cs:93-97 | sets number, holder, initial balance and overdraft limit |
| InheritanceAndPolymorphism.BankAccount.Deposit | src/ExamplesSolutions/part1/4-InheritanceAndPolymorphism/Program.cs:28-39 | accepted exactly when `amount > 0`; the balance then grows by exactly `amount`, and otherwise is unchanged; a balance at or above the floor stays there |
| InheritanceAndPolymorphism.BankAccount.Withdraw | src/ExamplesSolutions/part1/4-InheritanceAndPolymorphism/Program.cs:66-111 | accepted exactly when `amount > 0` and the balance left is at least the floor; the balance then drops by exactly `amount`, and otherwise is unchanged; afterwards the balance is unchanged or at least the minimum balance (savings) or at least minus the overdraft limit (current) |
| InheritanceAndPolymorphism.PolymorphismScenario | src/ExamplesSolutions/part1/4-InheritanceAndPolymorphism/Program.cs:123-141 | deposit 500 then withdraw 2000 on both accounts: both operations are accepted, and the savings account ends at 3500 and the current account at 1500 |
| ObjectOrientedConcept.BankAccount.constructor | src/ExamplesSolutions/part1/3-ObjectOrientedConcept/Program.cs:13-18 | sets number, holder and initial balance |
| ObjectOrientedConcept.BankAccount.Deposit | src/ExamplesSolutions/part1/3-ObjectOrientedConcept/Program.cs:39-50 | accepted exactly when `amount > 0`; the balance then grows by exactly `amount`, and otherwise is unchanged |
| ObjectOrientedConcept.BankAccount.Withdraw | src/ExamplesSolutions/part1/3-ObjectOrientedConcept/Program.cs:53-64 | accepted exactly when `0 < amount <= balance`; the balance then drops by exactly `amount`, and otherwise is unchanged; a non-negative balance stays non-negative |
| ObjectOrientedConcept.EncapsulationScenario | src/ExamplesSolutions/part1/3-ObjectOrientedConcept/Program.cs:77-92 | starting at 1000: a deposit of 500 gives 1500; a withdrawal of 200 gives 1300; a withdrawal of 1500 is refused, leaving 1300 |

## Left out

- Reference aliasing: `GetAllTodos` hands out the live list, and `AddTodo` stores (and re-keys) the caller's own object. Todos are values here. A caller that edits a todo through a reference it kept is not modelled, and `AddTodo` returns the re-keyed todo instead of changing the caller's object.
- TodoStore.NextId: ids are unbounded integers. The 32-bit `int` overflow of `Max(t => t.Id) + 1` at `int.MaxValue` is not modelled.
- The `Todo` class of this application is not part of this model. Its fields (`Id`, `Title`, `IsCompleted`) are the ones the store reads and writes. Its data-annotation checks belong to the web framework's model binding.
- Money is `real`. The rounding of the source's `double` balance is abstracted away, and so are `double`'s NaN and infinities: in the source `Withdraw(double.NaN)` and `Deposit(double.NaN)` are refused because `amount > 0` is false, while `Deposit(double.PositiveInfinity)` makes the balance infinite; no `real` amount behaves like these.
- Concurrency: the source's store is one static `List<Todo>` shared by all concurrent page requests, with no lock. Two `AddTodo` calls that both read `Max` before either appends give two todos the same id, and `List<T>` itself is not safe for concurrent use. The model treats calls as sequential, so `CallsKeepIdsUnique` holds for sequential series of calls only.
- Null arguments: `AddTodo(null)` and `UpdateTodo(null)` throw `NullReferenceException` in the source (the Edit page passes a nullable `Todo?`). A `Todo` value here cannot be null, so that failure path is not modelled.
- Console output and currency formatting: `DisplayAccountInfo` in both banking demos, and the messages printed by `Deposit` and `Withdraw`. The model keeps only the accepted/refused outcome.
- The read-only properties `AccountNumber`, `AccountHolder` and `Balance` are plain reads of the fields `accountNumber`, `accountHolder` and `balance`. They have no separate members.
- The Razor Pages handlers, database contexts, authentication pages, calculator and the async/parallel HTTP demos of the repository are not part of this model.
