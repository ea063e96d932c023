/** Registration and login (application/user_service.go). */
module UserApp {
  import opened Wrappers
  import opened Domain
  import opened UserStore

  /**
   * The error `Register` returns: the username is checked before the
   * password, then uniqueness, then the outcome of hashing the password.
   */
  function RegisterError(users: map<string, User>, username: string, password: string,
                         hashOutcome: Result<string, Error>): Option<Error>
  {
    if username == "" then Some(UsernameRequired)
    else if password == "" then Some(PasswordRequired)
    else if username in users then Some(UsernameTaken)
    else if hashOutcome.Failure? then Some(hashOutcome.error)
    else None
  }

  /**
   * What `Login` returns: an unknown username and a wrong password both give
   * `InvalidCredentials`; otherwise whatever the token generator gives for the
   * stored username and the textual user ID.
   */
  function LoginResult(users: map<string, User>, username: string, password: string,
                       matches: (string, string) -> bool,
                       generate: (string, string) -> Result<string, Error>,
                       uuidText: Uuid -> string): Result<string, Error>
  {
    if username !in users then Failure(InvalidCredentials)
    else
      var user := users[username];
      if !matches(user.passwordHash, password) then Failure(InvalidCredentials)
      else generate(user.username, uuidText(user.id))
  }

  /**
   * In a store that files every user under its own name, a successful
   * password check hands the generator the very username the caller logged
   * in with, and the stored ID.
   */
  lemma LoginNamesTheCaller(users: map<string, User>, username: string, password: string,
                            matches: (string, string) -> bool,
                            generate: (string, string) -> Result<string, Error>,
                            uuidText: Uuid -> string)
    requires FiledByName(users)
    requires username in users && matches(users[username].passwordHash, password)
    ensures LoginResult(users, username, password, matches, generate, uuidText) ==
            generate(username, uuidText(users[username].id))
  {
  }

  /** The validation order: an empty username wins over an empty password, and neither looks at the store. */
  lemma RegisterValidationOrder(users: map<string, User>, others: map<string, User>, password: string,
                                hashOutcome: Result<string, Error>)
    ensures RegisterError(users, "", password, hashOutcome) == Some(UsernameRequired)
    ensures RegisterError(users, "", "", hashOutcome) == Some(UsernameRequired)
    ensures forall username :: username != "" ==>
              RegisterError(users, username, "", hashOutcome) == Some(PasswordRequired) &&
              RegisterError(others, username, "", hashOutcome) == Some(PasswordRequired)
  {
  }

  /** Failed logins cannot tell an unknown user from a wrong password. */
  lemma LoginFailuresCollapse(users: map<string, User>, username: string, password: string,
                              matches: (string, string) -> bool,
                              generate: (string, string) -> Result<string, Error>,
                              uuidText: Uuid -> string)
    requires username !in users || !matches(users[username].passwordHash, password)
    ensures LoginResult(users, username, password, matches, generate, uuidText) == Failure(InvalidCredentials)
    ensures LoginResult(users - {username}, username, password, matches, generate, uuidText) == Failure(InvalidCredentials)
  {
  }

  class UserService {
    const repo: UserRepository
    /** `bcrypt.CompareHashAndPassword` succeeding, a foreign predicate. */
    const matches: (string, string) -> bool
    /** `TokenGenerator.Generate(username, userID)`, a foreign call. */
    const generate: (string, string) -> Result<string, Error>
    /** `uuid.UUID.String`, foreign formatting. */
    const uuidText: Uuid -> string

    constructor (repo: UserRepository, matches: (string, string) -> bool,
                 generate: (string, string) -> Result<string, Error>, uuidText: Uuid -> string)
      ensures this.repo == repo && this.matches == matches
      ensures this.generate == generate && this.uuidText == uuidText
    {
      this.repo := repo;
      this.matches := matches;
      this.generate := generate;
      this.uuidText := uuidText;
    }

    /**
     * Registers `username` with the hash `hashOutcome` produced (the outcome
     * of bcrypt on `password`) and the fresh ID `freshId`.
     */
    method Register(username: string, password: string, hashOutcome: Result<string, Error>, freshId: Uuid)
      returns (err: Option<Error>)
      requires freshId != NilUuid
      requires repo.Valid()
      modifies repo
      ensures repo.Valid()
      ensures err == RegisterError(old(repo.users), username, password, hashOutcome)
      ensures err == None ==>
                repo.users == old(repo.users)[username := User(freshId, username, hashOutcome.value)]
      ensures err != None ==> repo.users == old(repo.users)
    {
      if username == "" {
        return Some(UsernameRequired);
      }
      if password == "" {
        return Some(PasswordRequired);
      }
      var existing := repo.FindByUsername(username);
      if existing.Success? {
        return Some(UsernameTaken);
      }
      if hashOutcome.Failure? {
        return Some(hashOutcome.error);
      }
      var user := User(freshId, username, hashOutcome.value);
      err := repo.Create(user);
    }

    /** Checks the credentials against the store, then asks the token generator for a token. */
    method Login(username: string, password: string) returns (r: Result<string, Error>)
      ensures r == LoginResult(repo.users, username, password, matches, generate, uuidText)
    {
      var found := repo.FindByUsername(username);
      if found.Failure? {
        return Failure(InvalidCredentials);
      }
      var user := found.value;
      if !matches(user.passwordHash, password) {
        return Failure(InvalidCredentials);
      }
      r := generate(user.username, uuidText(user.id));
    }
  }
}
