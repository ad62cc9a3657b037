/**
 * The login handler: looks the user up, checks the password and issues an
 * access token. It only reads the user store, so it is a function of what
 * the store answers; the token generator is a parameter that may fail.
 */
module AuthServer {
  import opened Prelude
  import opened Rpc
  import opened Users
  import UserStore

  datatype LoginRequest = LoginRequest(username: string, password: string)

  datatype LoginResponse = LoginResponse(accessToken: string)

  /** A failure of the user store's `Find`, with its message. */
  datatype FindError = FindError(message: string)

  /** The user store as `Login` sees it: what `Find` answers for each username. */
  type UserLookup = string -> Result<Option<User>, FindError>

  /** `Login`: a store error is `Internal`; an unknown user and a wrong password get the same `NotFound`. */
  function Login(find: UserLookup, hasher: PasswordHasher, generate: User -> Option<string>, req: LoginRequest)
    : (r: Result<LoginResponse, Status>)
    ensures find(req.username).Failure? ==> r == Failure(Status(Internal, "cannot find user"))
    ensures r.Success? <==>
      && find(req.username).Success? && find(req.username).value.Some?
      && IsCorrectPassword(hasher, find(req.username).value.value, req.password)
      && generate(find(req.username).value.value).Some?
    ensures r.Success? ==> r.value.accessToken == generate(find(req.username).value.value).value
    ensures r.Failure? && r.error.code == NotFound ==> r.error.message == "incorrect username/password"
    ensures find(req.username).Success?
      && (find(req.username).value.None? || !IsCorrectPassword(hasher, find(req.username).value.value, req.password))
      ==> r == Failure(Status(NotFound, "incorrect username/password"))
    ensures find(req.username).Success? && find(req.username).value.Some?
      && IsCorrectPassword(hasher, find(req.username).value.value, req.password)
      && generate(find(req.username).value.value).None?
      ==> r == Failure(Status(Internal, "cannot generate access token"))
  {
    match find(req.username)
    case Failure(_) => Failure(Status(Internal, "cannot find user"))
    case Success(found) =>
      if found.None? || !IsCorrectPassword(hasher, found.value, req.password) then
        Failure(Status(NotFound, "incorrect username/password"))
      else
        match generate(found.value)
        case None => Failure(Status(Internal, "cannot generate access token"))
        case Some(token) => Success(LoginResponse(token))
  }

  /**
   * Login does not reveal whether a username exists: an unknown username and
   * a known one with a wrong password get the same answer.
   */
  lemma LoginHidesExistence(find: UserLookup, find': UserLookup, hasher: PasswordHasher, generate: User -> Option<string>,
                            req: LoginRequest)
    requires find(req.username) == Success(None)
    requires find'(req.username).Success? && find'(req.username).value.Some?
    requires !IsCorrectPassword(hasher, find'(req.username).value.value, req.password)
    ensures Login(find, hasher, generate, req) == Login(find', hasher, generate, req)
    ensures Login(find, hasher, generate, req) == Failure(Status(NotFound, "incorrect username/password"))
  {
  }

  /** The in-memory user store as a lookup: it never fails. */
  function InMemoryLookup(users: map<string, User>): (find: UserLookup)
    ensures forall name :: find(name) == Success(UserStore.FindIn(users, name))
  {
    name => Success(UserStore.FindIn(users, name))
  }

  /**
   * Sign up, then log in: a user made by `NewUser` with a consistent hasher
   * and saved in the in-memory store logs in with the same password and
   * receives the token generated for it.
   */
  lemma LoginAfterSignUp(users: map<string, User>, hasher: PasswordHasher, generate: User -> Option<string>,
                         username: string, password: string, role: string)
    requires Consistent(hasher)
    requires NewUser(hasher, username, password, role).Success?
    requires generate(NewUser(hasher, username, password, role).value).Some?
    ensures var user := NewUser(hasher, username, password, role).value;
      Login(InMemoryLookup(users[username := user]), hasher, generate, LoginRequest(username, password))
        == Success(LoginResponse(generate(user).value))
  {
    var user := NewUser(hasher, username, password, role).value;
    NewUserAcceptsItsPassword(hasher, username, password, role);
    assert InMemoryLookup(users[username := user])(username) == Success(Some(user));
  }
}
