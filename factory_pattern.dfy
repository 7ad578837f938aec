/**
 * The repository factory of patterns/factory_pattern.go (package `patterns`).
 *
 * `Create` maps a repository type name to a fresh stateless repository, or to
 * an error for an unknown name. Both repositories are stubs: `FindByID` echoes
 * the id with a fixed name and `Save` only reports success.
 */
module Factory {
  import opened Wrappers

  datatype User = User(id: int, name: string)

  /** The Go `error` values this file produces. */
  datatype Error = UnknownRepositoryType(repoType: string)

  /** The repository type names. */
  const Postgres := "postgres"
  const MySQL := "mysql"

  /** The implementations of this file's `UserRepository` interface; neither has fields. */
  datatype UserRepository = PostgresRepo | MySQLRepo

  /** The type name under which the factory builds a repository. */
  function TypeName(repo: UserRepository): string {
    match repo
    case PostgresRepo => Postgres
    case MySQLRepo => MySQL
  }

  /** `(*RepositoryFactory).Create`: a switch on the type name. Exactly one of
      the repository and the error is present. */
  function Create(repoType: string): (r: (Option<UserRepository>, Option<Error>))
    ensures r.0.Some? <==> r.1.None?
    ensures r.0 == Some(PostgresRepo) <==> repoType == Postgres
    ensures r.0 == Some(MySQLRepo) <==> repoType == MySQL
    ensures r.1.Some? ==> r.1.value == UnknownRepositoryType(repoType)
  {
    if repoType == Postgres then (Some(PostgresRepo), None)
    else if repoType == MySQL then (Some(MySQLRepo), None)
    else (None, Some(UnknownRepositoryType(repoType)))
  }

  /** Every repository is built from its own type name, and a name that builds
      a repository is that repository's type name. */
  lemma CreateRoundTrip(repo: UserRepository, repoType: string)
    ensures Create(TypeName(repo)) == (Some(repo), None)
    ensures Create(repoType).0.Some? ==> TypeName(Create(repoType).0.value) == repoType
  {
  }

  /** The name the stub `FindByID` of each repository puts in its answer. */
  function StubName(repo: UserRepository): string {
    match repo
    case PostgresRepo => "From Postgres"
    case MySQLRepo => "From MySQL"
  }

  /** `(*PostgresRepo).FindByID` and `(*MySQLRepo).FindByID`: a user with the
      requested id, named after the repository, and no error. */
  function FindByID(repo: UserRepository, id: int): (r: (Option<User>, Option<Error>))
    ensures r.1 == None && r.0.Some?
    ensures r.0.value.id == id
    ensures r.0.value.name == StubName(repo)
  {
    (Some(User(id, StubName(repo))), None)
  }

  /** The answer of `FindByID` tells which repository gave it. */
  lemma FindByIDIdentifiesRepository(a: UserRepository, b: UserRepository, id: int, id': int)
    requires FindByID(a, id).0.value.name == FindByID(b, id').0.value.name
    ensures a == b
  {
  }

  /** `(*PostgresRepo).Save` and `(*MySQLRepo).Save`: report success (console
      output only); there is no state to change. */
  function Save(repo: UserRepository, user: User): (err: Option<Error>)
    ensures err == None
  {
    None
  }
}
