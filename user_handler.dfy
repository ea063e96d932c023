/** The registration and login endpoints (adapters/http/user_handler.go). */
module UserHttp {
  import opened Wrappers
  import opened Domain
  import opened Http
  import UserApp

  /** The body of `POST /register` and `POST /login`. */
  datatype Credentials = Credentials(username: string, password: string)

  /** The service calls the user handlers can make. */
  datatype UserCall = RegisterCall(username: string, password: string) | LoginCall(username: string, password: string)

  /** `POST /register`. */
  function RegisterUser(body: Decoded<Credentials>, outcome: Option<Error>): (r: Reply<UserCall, string>)
    ensures r.body == None
    ensures body.Malformed? ==> r == Reply(StatusBadRequest, None, None)
    ensures r.call.Some? <==> body.Decoded? && body.value.username != "" && body.value.password != ""
    ensures r.status == StatusCreated <==> r.call.Some? && outcome.None?
    ensures r.status == StatusInternalServerError <==> r.call.Some? && outcome.Some? && outcome.value != UsernameTaken
  {
    if body.Malformed? then Reply(StatusBadRequest, None, None)
    else if body.value.username == "" || body.value.password == "" then Reply(StatusBadRequest, None, None)
    else
      var call := RegisterCall(body.value.username, body.value.password);
      match outcome
      case None => Reply(StatusCreated, Some(call), None)
      case Some(err) =>
        if err == UsernameTaken then Reply(StatusBadRequest, Some(call), None)
        else Reply(StatusInternalServerError, Some(call), None)
  }

  /** `POST /login`; the body of a successful reply is the token. */
  function LoginUser(body: Decoded<Credentials>, outcome: Result<string, Error>): (r: Reply<UserCall, string>)
    ensures body.Malformed? ==> r == Reply(StatusBadRequest, None, None)
    ensures r.call.Some? <==> body.Decoded?
    ensures r.status == StatusOK <==> body.Decoded? && outcome.Success?
    ensures r.body.Some? <==> r.status == StatusOK
    ensures r.body.Some? ==> outcome.Success? && r.body.value == outcome.value
  {
    if body.Malformed? then Reply(StatusBadRequest, None, None)
    else
      var call := LoginCall(body.value.username, body.value.password);
      match outcome
      case Failure(_) => Reply(StatusUnauthorized, Some(call), None)
      case Success(token) => Reply(StatusOK, Some(call), Some(token))
  }

  /** An empty username or password is refused with 400 before the service is called. */
  lemma RegisterUserChecksInputFirst(creds: Credentials, outcome: Option<Error>, other: Option<Error>)
    requires creds.username == "" || creds.password == ""
    ensures RegisterUser(Decoded(creds), outcome) == RegisterUser(Decoded(creds), other)
    ensures RegisterUser(Decoded(creds), outcome) == Reply(StatusBadRequest, None, None)
  {
  }

  /**
   * For filled-in credentials the service is called with them: success gives
   * 201, exactly `UsernameTaken` gives 400, any other error 500, a wrapped
   * `UsernameTaken` included.
   */
  lemma RegisterUserMapsOutcome(creds: Credentials, outcome: Option<Error>)
    requires creds.username != "" && creds.password != ""
    ensures RegisterUser(Decoded(creds), outcome).call == Some(RegisterCall(creds.username, creds.password))
    ensures RegisterUser(Decoded(creds), outcome).status ==
            if outcome == None then StatusCreated
            else if outcome == Some(UsernameTaken) then StatusBadRequest
            else StatusInternalServerError
    ensures RegisterUser(Decoded(creds), Some(Wrapped("register", UsernameTaken))).status == StatusInternalServerError
  {
  }

  /**
   * Register through the service: with filled-in credentials a name already
   * in the store gives 400, a failed hash 500, and otherwise 201.
   */
  lemma RegisterUserThroughService(users: map<string, User>, creds: Credentials, hashOutcome: Result<string, Error>)
    requires creds.username != "" && creds.password != ""
    requires hashOutcome.Failure? ==> hashOutcome.error != UsernameTaken
    ensures var status := RegisterUser(Decoded(creds), UserApp.RegisterError(users, creds.username, creds.password, hashOutcome)).status;
            status == if creds.username in users then StatusBadRequest
                      else if hashOutcome.Failure? then StatusInternalServerError
                      else StatusCreated
  {
  }

  /**
   * `POST /login` calls the service whatever the credentials; a failure gives
   * 401 with no token, a success 200 with the service's token.
   */
  lemma LoginUserMapsOutcome(creds: Credentials, outcome: Result<string, Error>)
    ensures LoginUser(Decoded(creds), outcome).call == Some(LoginCall(creds.username, creds.password))
    ensures outcome.Failure? ==> LoginUser(Decoded(creds), outcome).status == StatusUnauthorized &&
                                 LoginUser(Decoded(creds), outcome).body == None
    ensures outcome.Success? ==> LoginUser(Decoded(creds), outcome).status == StatusOK &&
                                 LoginUser(Decoded(creds), outcome).body == Some(outcome.value)
  {
  }

  /** Through the service, an unknown user and a wrong password get the very same reply. */
  lemma LoginUserHidesCause(users: map<string, User>, creds: Credentials,
                            matches: (string, string) -> bool,
                            generate: (string, string) -> Result<string, Error>,
                            uuidText: Uuid -> string)
    requires creds.username in users
    requires !matches(users[creds.username].passwordHash, creds.password)
    ensures LoginUser(Decoded(creds), UserApp.LoginResult(users, creds.username, creds.password, matches, generate, uuidText)) ==
            LoginUser(Decoded(creds), UserApp.LoginResult(users - {creds.username}, creds.username, creds.password, matches, generate, uuidText))
    ensures LoginUser(Decoded(creds), UserApp.LoginResult(users, creds.username, creds.password, matches, generate, uuidText)) ==
            Reply(StatusUnauthorized, Some(LoginCall(creds.username, creds.password)), None)
  {
  }
}
