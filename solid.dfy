/**
 * The user repository and registration service of solid/solid.go (package `main`).
 *
 * `InMemoryUserRepo` keeps a table from id to user that `Save` updates in
 * place; `PostgresUserRepo` is a stub with fixed answers; `UserService`
 * registers a user through whichever repository it was built with and then
 * notifies, ignoring the notifier's error.
 */
module Solid {
  import opened Wrappers

  datatype User = User(id: int, name: string)

  /** The Go `error` values this file produces or passes on. `NotifyFailed` is
      only a sample failure of some other notifier: `EmailNotifier` never fails. */
  datatype Error = NotFound | NotifyFailed(message: string)

  /** The message `RegisterUser` sends through the notifier. */
  const WelcomeMessage := "Welcome to our system!"

  /** The answer of a lookup in a table of users. */
  function Lookup(store: map<int, User>, id: int): Option<User> {
    if id in store then Some(store[id]) else None
  }

  /** The table after saving `users` one after another, left to right. */
  function SaveAll(store: map<int, User>, users: seq<User>): map<int, User>
    decreases |users|
  {
    if users == [] then store
    else
      var last := users[|users| - 1];
      SaveAll(store, users[..|users| - 1])[last.id := last]
  }

  /** The last of `users` whose id is `id`, if any. */
  function LastWithID(users: seq<User>, id: int): Option<User>
    decreases |users|
  {
    if users == [] then None
    else if users[|users| - 1].id == id then Some(users[|users| - 1])
    else LastWithID(users[..|users| - 1], id)
  }

  /** After a run of saves, a lookup finds the last user saved under that id,
      and for an id none of them used, what the table held before. */
  lemma {:induction false} LookupAfterSaves(store: map<int, User>, users: seq<User>, id: int)
    ensures LastWithID(users, id).Some? ==> Lookup(SaveAll(store, users), id) == LastWithID(users, id)
    ensures LastWithID(users, id).None? ==> Lookup(SaveAll(store, users), id) == Lookup(store, id)
    decreases |users|
  {
    if users != [] {
      LookupAfterSaves(store, users[..|users| - 1], id);
    }
  }

  /** `LastWithID` finds a user exactly when one of `users` has that id. */
  lemma {:induction false} LastWithIDFindsSaved(users: seq<User>, id: int)
    ensures LastWithID(users, id).Some? <==> exists j :: 0 <= j < |users| && users[j].id == id
    ensures LastWithID(users, id).Some? ==> LastWithID(users, id).value in users
    ensures LastWithID(users, id).Some? ==> LastWithID(users, id).value.id == id
    decreases |users|
  {
    if users != [] {
      var prefix := users[..|users| - 1];
      LastWithIDFindsSaved(prefix, id);
      if LastWithID(prefix, id).Some? {
        assert LastWithID(prefix, id).value in users by {
          var j :| 0 <= j < |prefix| && prefix[j] == LastWithID(prefix, id).value;
          assert users[j] == prefix[j];
        }
      }
      if exists j :: 0 <= j < |users| && users[j].id == id {
        var j :| 0 <= j < |users| && users[j].id == id;
        if j < |users| - 1 {
          assert prefix[j].id == id;
        }
      }
      if exists j :: 0 <= j < |prefix| && prefix[j].id == id {
        var j :| 0 <= j < |prefix| && prefix[j].id == id;
        assert users[j].id == id;
      }
    }
  }

  /** A `Save` followed by a lookup of the same id finds the saved user; every
      other id answers as before. */
  lemma LookupAfterSave(store: map<int, User>, user: User, id: int)
    ensures Lookup(store[user.id := user], user.id) == Some(user)
    ensures id != user.id ==> Lookup(store[user.id := user], id) == Lookup(store, id)
  {
  }

  /** `InMemoryUserRepo`: a table from id to user, updated in place. */
  class InMemoryUserRepo {
    var store: map<int, User>

    /** `NewInMemoryUserRepo`: an empty table. */
    constructor ()
      ensures store == map[]
    {
      store := map[];
    }

    /** Looks `id` up; an absent id gives nil and a "not found" error. Reads only. */
    method FindByID(id: int) returns (user: Option<User>, err: Option<Error>)
      ensures id in store ==> user == Some(store[id]) && err == None
      ensures id !in store ==> user == None && err == Some(NotFound)
      ensures user == Lookup(store, id)
    {
      if id in store {
        return Some(store[id]), None;
      }
      return None, Some(NotFound);
    }

    /** Maps `user.id` to `user`, overwriting any earlier entry; never fails. */
    method Save(user: User) returns (err: Option<Error>)
      modifies this
      ensures store == old(store)[user.id := user]
      ensures err == None
    {
      store := store[user.id := user];
      return None;
    }
  }

  /** Saves `users` one after another into `repo`; the table ends as `SaveAll`
      gives. */
  method SaveEach(repo: InMemoryUserRepo, users: seq<User>)
    modifies repo
    ensures repo.store == SaveAll(old(repo.store), users)
  {
    var i := 0;
    while i < |users|
      invariant 0 <= i <= |users|
      invariant repo.store == SaveAll(old(repo.store), users[..i])
    {
      var _ := repo.Save(users[i]);
      assert users[..i + 1][..i] == users[..i];
      i := i + 1;
    }
    assert users[..|users|] == users;
  }

  /** `(*PostgresUserRepo).FindByID`: ignores the id and always answers user 1. */
  function PostgresFindByID(id: int): (r: (Option<User>, Option<Error>))
    ensures r.0 == Some(User(1, "From Postgres")) && r.1 == None
  {
    (Some(User(1, "From Postgres")), None)
  }

  /** The stub answers the same for every id, so it cannot return what was saved
      under any id other than 1. */
  lemma PostgresFindByIDIgnoresID(a: int, b: int)
    ensures PostgresFindByID(a) == PostgresFindByID(b)
    ensures a != 1 ==> PostgresFindByID(a).0.value.id != a
  {
  }

  /** `(*PostgresUserRepo).Save`: reports success and keeps nothing. */
  function PostgresSave(user: User): (err: Option<Error>)
    ensures err == None
  {
    None
  }

  /** `(*EmailNotifier).Notify`: sends the message (console output) and reports success. */
  function EmailNotify(user: User, msg: string): (err: Option<Error>)
    ensures err == None
  {
    None
  }

  /** The implementations of the `UserRepository` interface this file provides. */
  datatype UserRepository = InMemory(repo: InMemoryUserRepo) | PostgresUserRepo

  /** `UserService`: depends only on a repository and a notifier. The notifier is
      any function that may return an error. */
  class UserService {
    const repo: UserRepository
    const notifier: (User, string) -> Option<Error>

    /** `NewUserService` */
    constructor (repo: UserRepository, notifier: (User, string) -> Option<Error>)
      ensures this.repo == repo && this.notifier == notifier
    {
      this.repo := repo;
      this.notifier := notifier;
    }

    /** Saves a new user with the given id and name, then notifies. A failed
        save is returned with no user; the notifier's error is ignored. */
    method RegisterUser(id: int, name: string) returns (user: Option<User>, err: Option<Error>)
      modifies if repo.InMemory? then {repo.repo} else {}
      ensures user == Some(User(id, name)) && err == None
      ensures repo.InMemory? ==> repo.repo.store == old(repo.repo.store)[id := User(id, name)]
    {
      var u := User(id, name);
      var saveErr: Option<Error>;
      match repo {
        case InMemory(r) => saveErr := r.Save(u);
        case PostgresUserRepo => saveErr := PostgresSave(u);
      }
      if saveErr.Some? {
        return None, saveErr;
      }
      var _ := notifier(u, WelcomeMessage);
      return Some(u), None;
    }
  }

  /** The registrations of `main`, (1, "Egor") with the in-memory repository and
      (2, "Ivan") with the Postgres stub, with checks `main` does not make: the
      first user is then found by id, the stub's lookup of id 2 answers its fixed
      user instead, and a fresh in-memory repository finds nothing. */
  method RegistrationDemo(anyID: int)
    returns (created: Option<User>, found: Option<User>, freshErr: Option<Error>, postgresFound: Option<User>)
    ensures created == Some(User(1, "Egor")) && found == created
    ensures freshErr == Some(NotFound)
    ensures postgresFound == Some(User(1, "From Postgres"))
  {
    var empty := new InMemoryUserRepo();
    var _, e := empty.FindByID(anyID);
    freshErr := e;

    var repo := new InMemoryUserRepo();
    var service := new UserService(InMemory(repo), EmailNotify);
    var createErr, findErr;
    created, createErr := service.RegisterUser(1, "Egor");
    found, findErr := repo.FindByID(1);

    var service2 := new UserService(PostgresUserRepo, EmailNotify);
    var _, _ := service2.RegisterUser(2, "Ivan");
    postgresFound := PostgresFindByID(2).0;
  }
}
