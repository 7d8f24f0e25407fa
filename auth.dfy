/** Registration and password login. */
module Auth {

  import opened Wrappers
  import opened Http
  import opened Models
  import opened Security
  import opened Numerals
  import opened Crud

  /** What signup returns: the new user's id and name, never the digest. */
  datatype UserOut = UserOut(id: int, username: string)

  /** What login returns. */
  datatype TokenOut = TokenOut(accessToken: string, tokenType: string)

  /** The lifetime login asks for, in minutes. */
  const LoginTokenMinutes := 60

  /** The claims login signs: the user id as decimal text under `sub`. */
  function SubjectClaims(id: int): Claims
  {
    map["sub" := Text(IntToString(id))]
  }

  /**
   * `signup`: a username that is already present is refused with "Username
   * already taken" and nothing is written; otherwise exactly one user with that
   * name and the digest of the password is added.
   */
  method Signup(db: Database, username: string, password: string, crypto: Crypto) returns (r: Result<UserOut>)
    requires db.Valid()
    modifies db
    ensures db.Valid()
    ensures db.tasks == old(db.tasks)
    ensures (exists k :: k in old(db.users) && old(db.users)[k].username == username) ==>
      r == Failure(UsernameTaken) && db.users == old(db.users)
    ensures (forall k :: k in old(db.users) ==> old(db.users)[k].username != username) ==>
      && r.Success?
      && r.value.username == username
      && r.value.id == NextRowId(old(db.users).Keys)
      && r.value.id !in old(db.users)
      && db.users == old(db.users)[r.value.id := User(r.value.id, username, crypto.hash(password))]
  {
    var existing := FindByUsername(db.users, username);
    if existing.Some? {
      return Failure(UsernameTaken);
    }
    var created := CreateUser(db, username, password, crypto);
    return Success(UserOut(created.value.id, created.value.username));
  }

  /**
   * `login`: an unknown username and a wrong password give the same "Invalid
   * credentials"; on success the token names the user's id and lives for
   * sixty minutes. Login reads the users table and writes nothing.
   */
  function Login(users: map<int, User>, username: string, password: string, now: int, crypto: Crypto): (r: Result<TokenOut>)
    ensures r.Failure? ==> r == Failure(InvalidCredentials)
    ensures (forall k :: k in users ==> users[k].username != username) ==> r == Failure(InvalidCredentials)
    ensures r.Success? ==>
      && r.value.tokenType == "bearer"
      && (exists k :: k in users
            && users[k].username == username
            && crypto.verify(password, users[k].hashedPassword)
            && r.value.accessToken == CreateAccessToken(SubjectClaims(users[k].id), Some(LoginTokenMinutes * 60), now, crypto))
  {
    match FindByUsername(users, username)
    case None => Failure(InvalidCredentials)
    case Some(user) =>
      if !crypto.verify(password, user.hashedPassword) then Failure(InvalidCredentials)
      else Success(TokenOut(CreateAccessToken(SubjectClaims(user.id), Some(LoginTokenMinutes * 60), now, crypto), "bearer"))
  }

  /**
   * For a stored user, login succeeds exactly when the hasher accepts the
   * password against that user's digest, and fails with the same error
   * whatever the reason.
   */
  lemma LoginSucceedsIff(users: map<int, User>, k: int, password: string, now: int, crypto: Crypto)
    requires UniqueUsernames(users)
    requires k in users
    ensures Login(users, users[k].username, password, now, crypto).Success? <==>
      crypto.verify(password, users[k].hashedPassword)
    ensures !crypto.verify(password, users[k].hashedPassword) ==>
      Login(users, users[k].username, password, now, crypto) == Failure(InvalidCredentials)
  {
    FindByUsernameUnique(users, k);
  }
}
