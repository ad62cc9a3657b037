/**
 * A user account: a name, a password hash and a role. The password hash
 * function (bcrypt) is abstract: a generator that may fail and a comparison.
 */
module Users {
  import opened Prelude

  datatype User = User(username: string, hashedPassword: string, role: string)

  /**
   * The password hashing library: `generate` hashes a password (none when
   * hashing fails) and `compare` tells whether a hash was made from a password.
   */
  datatype PasswordHasher = PasswordHasher(generate: string -> Option<string>, compare: (string, string) -> bool)

  /** A hasher whose comparison accepts every hash it generated from the same password. */
  ghost predicate Consistent(hasher: PasswordHasher)
  {
    forall password | hasher.generate(password).Some? :: hasher.compare(hasher.generate(password).value, password)
  }

  datatype UserError = CannotHashPassword

  /** `NewUser`: the account with the password replaced by its hash; fails when hashing fails. */
  function NewUser(hasher: PasswordHasher, username: string, password: string, role: string): (r: Result<User, UserError>)
    ensures r.Failure? <==> hasher.generate(password).None?
    ensures r.Failure? ==> r.error == CannotHashPassword
    ensures r.Success? ==> r.value.username == username && r.value.role == role
    ensures r.Success? ==> Some(r.value.hashedPassword) == hasher.generate(password)
  {
    match hasher.generate(password)
    case None => Failure(CannotHashPassword)
    case Some(hashed) => Success(User(username, hashed, role))
  }

  /** `IsCorrectPassword`: whether the stored hash matches `password`. */
  predicate IsCorrectPassword(hasher: PasswordHasher, user: User, password: string)
  {
    hasher.compare(user.hashedPassword, password)
  }

  /** A user made by `NewUser` accepts the password it was made with, under a consistent hasher. */
  lemma NewUserAcceptsItsPassword(hasher: PasswordHasher, username: string, password: string, role: string)
    requires Consistent(hasher)
    ensures NewUser(hasher, username, password, role).Success? ==>
      IsCorrectPassword(hasher, NewUser(hasher, username, password, role).value, password)
  {
  }

  /**
   * `Clone`: a field-for-field copy. Users are values here, so the copy is
   * independent of the original: nothing done to one is seen through the other.
   */
  function Clone(user: User): (r: User)
    ensures r.username == user.username && r.hashedPassword == user.hashedPassword && r.role == user.role
  {
    User(user.username, user.hashedPassword, user.role)
  }

  /** A copy answers every password check as the original does. */
  lemma CloneKeepsPasswordCheck(hasher: PasswordHasher, user: User, password: string)
    ensures IsCorrectPassword(hasher, Clone(user), password) <==> IsCorrectPassword(hasher, user, password)
  {
  }
}
