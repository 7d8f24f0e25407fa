/** The two user-table helpers: lookup by username and insertion. */
module Crud {

  import opened Wrappers
  import opened Http
  import opened Models
  import opened Security

  /**
   * The first user row with the given username, if any. Rows are taken in id
   * order; the unique constraint leaves at most one candidate anyway.
   */
  function FindByUsername(users: map<int, User>, username: string): (r: Option<User>)
    ensures r.Some? <==> exists k :: k in users && users[k].username == username
    ensures r.Some? ==> r.value.username == username && r.value in users.Values
  {
    var matching := set k | k in users && users[k].username == username;
    if matching == {} then
      assert forall k :: k in users && users[k].username == username ==> k in matching;
      None
    else
      Some(users[SmallestKey(matching)])
  }

  /** With usernames unique, the lookup finds exactly the row holding the name. */
  lemma FindByUsernameUnique(users: map<int, User>, k: int)
    requires UniqueUsernames(users)
    requires k in users
    ensures FindByUsername(users, users[k].username) == Some(users[k])
  {
    var matching := set j | j in users && users[j].username == users[k].username;
    forall j | j in matching
      ensures j == k
    {
    }
    assert matching == {k};
  }

  /**
   * Inserts a user with the digest of `password`, under the next row id. The
   * function itself checks nothing; a username that is already present makes
   * the commit fail on the unique constraint, which surfaces as a server error
   * and leaves the table as it was.
   */
  method CreateUser(db: Database, username: string, password: string, crypto: Crypto) returns (r: Result<User>)
    requires db.Valid()
    modifies db
    ensures db.Valid()
    ensures db.tasks == old(db.tasks)
    ensures FindByUsername(old(db.users), username).Some? ==>
      r == Failure(ServerError) && db.users == old(db.users)
    ensures FindByUsername(old(db.users), username).None? ==>
      && r == Success(User(NextRowId(old(db.users).Keys), username, crypto.hash(password)))
      && r.value.id !in old(db.users)
      && db.users == old(db.users)[r.value.id := r.value]
  {
    var user := User(NextRowId(db.users.Keys), username, crypto.hash(password));
    if FindByUsername(db.users, username).Some? {
      return Failure(ServerError);
    }
    db.users := db.users[user.id := user];
    return Success(user);
  }
}
