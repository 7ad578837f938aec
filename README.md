# Strategy, repository and factory snippets, modelled in Dafny

This project models the three files of the Go teaching repository
`grade_proofs` that hold checkable logic:

- `patterns/strategy.go` (module `Strategy`, file `strategy.dfy`): three
  authentication strategies (JWT, Basic, OAuth2), each accepting exactly one
  literal credential and answering with the pair (identity, error), and an
  `AuthContext` whose single strategy slot is replaced by `SetStrategy` and
  used by `Authenticate`. The strategies are a datatype; the context is a
  class with an `Option` field, `None` being Go's nil interface.
- `solid/solid.go` (module `Solid`, file `solid.dfy`): `InMemoryUserRepo`, a
  class over a `map<int, User>` that `Save` updates in place and `FindByID`
  reads; the `PostgresUserRepo` stub; the `EmailNotifier`; and `UserService`,
  whose `RegisterUser` saves through its repository and then notifies,
  ignoring the notifier's error. The `UserRepository` interface is a datatype
  with one variant per implementation; the `UserNotifier` interface is a
  function value that may return an error.
- `patterns/factory_pattern.go` (module `Factory`, file
  `factory_pattern.dfy`): `RepositoryFactory.Create`, a switch from a type name
  to one of two stateless stub repositories or an error, and the stubs'
  `FindByID` and `Save`.

Go's `(T, error)` results are pairs of `Option` values (`wrappers.dfy`), with
`None` for `nil`; the strategies return the empty string rather than `nil` as
identity on failure, as the Go code does. `solid.go` and `factory_pattern.go`
each declare their own `User` and `UserRepository`, so they live in separate
modules.

Beyond the per-call contracts, the model states properties of call
sequences. `RunSession` performs a sequence of `SetStrategy` and
`Authenticate` calls on an `AuthContext` and is proved to leave the slot that
`SlotAfter` gives and to return the replies `Replies` gives; over such
sequences only the most recent `SetStrategy` decides how the context answers
(`LastSetStrategyWins`, `RepliesUnderOneStrategy`). `SaveEach` performs a run
of `Save` calls on an `InMemoryUserRepo` and is proved to leave the table
`SaveAll` gives; after it a lookup finds the last user saved under that id, or
the earlier entry for an id none of them used (`LookupAfterSaves`).

With no strategy set, the code calls a method on a nil interface and panics
(the zero-value context at patterns/strategy.go:58). The model makes a set
strategy a precondition of `AuthContext.Authenticate`, and of every call
sequence through `Configured`.

## Model

| member | source | states |
|---|---|---|
| `Strategy.JWTAuthenticate` | patterns/strategy.go:16-21 | no error exactly when the token is "valid-jwt-token"; then identity "user123", otherwise identity "" and the invalid-JWT error |
| `Strategy.BasicAuthenticate` | patterns/strategy.go:26-31 | no error exactly when the credentials are "user:password"; then identity "user123", otherwise identity "" and the invalid-basic error |
| `Strategy.OAuth2Authenticate` | patterns/strategy.go:36-41 | no error exactly when the token is "valid-oauth-token"; then identity "user123", otherwise identity "" and the invalid-OAuth2 error |
| `Strategy.StrategyAuthenticate` | patterns/strategy.go:9-41 | a call through the interface succeeds exactly on the strategy's accepted credential; for every strategy the error is absent iff the identity is non-empty, and the identity is "user123" or "" |
| `Strategy.AcceptingStrategyIsUnique` | patterns/strategy.go:16-41 | no credential is accepted by two different strategies |
| `Strategy.AuthContext.constructor` | patterns/strategy.go:43-45 | the zero-value context has no strategy |
| `Strategy.AuthContext.SetStrategy` | patterns/strategy.go:48-50 | the slot holds exactly the new strategy afterwards, and only the slot may change |
| `Strategy.AuthContext.Authenticate` | patterns/strategy.go:53-55 | requires a strategy to be set (nil would panic); returns exactly what the stored strategy returns for the credential; changes nothing (no modifies clause) |
| `Strategy.AuthenticateCallsKeepSlot` | patterns/strategy.go:53-55 | any number of `Authenticate` calls leave the strategy slot as it was |
| `Strategy.LastSetStrategyWins` | patterns/strategy.go:48-55 | after any call sequence, the slot holds the strategy of the last `SetStrategy`; earlier strategies and the initial slot have no influence |
| `Strategy.SessionAnswersWithLastStrategy` | patterns/strategy.go:48-55 | after `SetStrategy(s)` and any `Authenticate` calls, the context answers every credential exactly as `s` does |
| `Strategy.SetSlotStaysConfigured` | patterns/strategy.go:48-55 | once a strategy is set, no later call sequence meets an empty slot |
| `Strategy.RepliesUnderOneStrategy` | patterns/strategy.go:53-55 | with strategy `s` in the slot, every reply of a run of `Authenticate` calls is what `s` answers for that credential |
| `Strategy.RunSession` | patterns/strategy.go:48-55 | performing a sequence of calls on a context leaves the slot `SlotAfter` gives and returns the replies `Replies` gives, provided no `Authenticate` meets an empty slot |
| `Strategy.AuthenticationDemo` | patterns/strategy.go:60-82 | the three `SetStrategy`/`Authenticate` pairs of `main` each authenticate "user123"; an added fourth call shows the JWT token rejected with the OAuth2 error once OAuth2 is set |
| `Solid.InMemoryUserRepo.constructor` | solid/solid.go:27-29 | a new repository has an empty store |
| `Solid.InMemoryUserRepo.FindByID` | solid/solid.go:31-36 | a stored id gives its user and no error; any other id gives nil and the not-found error; the store is not modified |
| `Solid.InMemoryUserRepo.Save` | solid/solid.go:38-41 | maps the user's id to the user, overwriting any earlier entry, leaves every other entry as it was, and returns nil |
| `Solid.SaveEach` | solid/solid.go:38-41 | a run of `Save` calls on the in-memory repository leaves the table `SaveAll` gives |
| `Solid.LookupAfterSave` | solid/solid.go:31-41 | after `Save(u)`, a lookup of `u.ID` finds `u` and every other id answers as before |
| `Solid.LookupAfterSaves` | solid/solid.go:31-41 | after a run of saves, a lookup finds the last user saved under that id, or the earlier entry if none of them used it |
| `Solid.LastWithIDFindsSaved` | solid/solid.go:38-41 | a run of saves holds an entry for an id exactly when one of the saved users has it, and that entry is one of the saved users with that id |
| `Solid.PostgresFindByID` | solid/solid.go:48-50 | always user ID 1 named "From Postgres", with no error |
| `Solid.PostgresFindByIDIgnoresID` | solid/solid.go:48-50 | the answer does not depend on the id, so for any id other than 1 it is not a user with that id |
| `Solid.PostgresSave` | solid/solid.go:52-55 | always returns nil |
| `Solid.EmailNotify` | solid/solid.go:65-68 | always returns nil |
| `Solid.UserService.constructor` | solid/solid.go:77-79 | the service holds exactly the given repository and notifier |
| `Solid.UserService.RegisterUser` | solid/solid.go:81-88 | returns a user with exactly the given id and name and no error, whatever the notifier returns; with the in-memory repository the store afterwards maps that id to that user and is otherwise unchanged |
| `Solid.RegistrationDemo` | solid/solid.go:92-102 | the two registrations of `main` succeed; added checks: the in-memory user is then found by id, the Postgres stub's lookup of id 2 answers its fixed user, and a fresh in-memory repository finds nothing |
| `Factory.Create` | patterns/factory_pattern.go:54-63 | "postgres" gives a PostgresRepo and "mysql" a MySQLRepo, with no error; any other name gives no repository and an unknown-type error; exactly one of repository and error is present |
| `Factory.CreateRoundTrip` | patterns/factory_pattern.go:46-63 | each repository is created from its type name, and a name that creates a repository is that repository's type name |
| `Factory.FindByID` | patterns/factory_pattern.go:28-41 | a user whose ID equals the requested id, named "From Postgres" or "From MySQL" by repository, with no error |
| `Factory.FindByIDIdentifiesRepository` | patterns/factory_pattern.go:28-41 | the name in a `FindByID` answer tells which repository gave it |
| `Factory.Save` | patterns/factory_pattern.go:24-38 | both stubs always return nil and keep no state |

## Left out

- Console output: the `fmt.Println` calls in `PostgresUserRepo.Save`,
  `EmailNotifier.Notify`, `PostgresRepo.Save` and `MySQLRepo.Save` are not
  modelled; these calls are modelled only through their return values.
- The `main` functions are console demonstrations. `AuthenticationDemo` and
  `RegistrationDemo` replay their calls and add checks `main` does not make:
  a rejected credential after the strategy switch, lookups of the registered
  users, and a lookup in a fresh repository. The `main` of
  `factory_pattern.go` only creates two repositories and saves into them, which
  `Create` and `Save` cover.
- Error message text: errors are distinct datatype values, not strings.
- Pointers: `*User` values are modelled as immutable values, so a user changed
  through its pointer after `Save` (and seen through the store) is not modelled.
- Go interfaces are open to further implementations; the model closes each
  interface to the implementations the file declares.
- Solid.UserService.RegisterUser: the code's early return of `Save`'s error is
  modelled, but neither repository of the file ever fails to save, so the
  contract states success for every call and the error path is never taken.
- The notifier is any function returning an optional error; what a real
  notifier sends is not modelled.
- `packages/reflect.go`, `packages/flag.go` and `patterns/factory.go` are not
  part of this model: reflection, command-line parsing and a logger factory are
  thin wrappers over library behaviour.
- `di /di.go` is not part of this model: it is a separate dependency-injection
  demonstration that repeats the in-memory repository, Postgres stub and
  `RegisterUser` of `solid/solid.go` (without a notifier, with a stub lookup
  that echoes the id, and with a `GetUser` that forwards to `FindByID`), so it
  adds no behaviour beyond what the `Solid` module covers.
- Nil arguments: `SetStrategy(nil)` empties the slot again, so a later
  `Authenticate` panics, and `InMemoryUserRepo.Save(nil)` panics at `user.ID`
  (solid/solid.go:39). The model's strategies and users are values that cannot
  be nil, so neither case is expressible.
- There is no concurrency in the code, so none is modelled.
