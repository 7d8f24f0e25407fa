/**
 * Properties that span several modules: a login token opens the gate for the
 * user who logged in, and request sequences as a client would send them.
 */
module Scenarios {

  import opened Wrappers
  import opened Http
  import opened Models
  import opened Security
  import opened Deps
  import opened Auth
  import opened Tasks

  /**
   * The token login issues resolves, through the access gate's user lookup,
   * to the user who logged in while it is younger than sixty minutes, and is
   * an invalid token from then on.
   */
  lemma LoginTokenIdentifiesUser(users: map<int, User>, username: string, password: string, issued: int, now: int, crypto: Crypto)
    requires UserKeysAreIds(users)
    requires JwtContract(crypto)
    requires Login(users, username, password, issued, crypto).Success?
    ensures var current := CurrentUser(Some(Login(users, username, password, issued, crypto).value.accessToken), users, crypto, now);
      && (now < issued + LoginTokenMinutes * 60 ==>
            current.Success? && current.value.username == username && crypto.verify(password, current.value.hashedPassword))
      && (now >= issued + LoginTokenMinutes * 60 ==> current == Failure(InvalidToken))
  {
    var token := Login(users, username, password, issued, crypto).value.accessToken;
    var k :| k in users
      && users[k].username == username
      && crypto.verify(password, users[k].hashedPassword)
      && token == CreateAccessToken(SubjectClaims(users[k].id), Some(LoginTokenMinutes * 60), issued, crypto);
    TokenSubjectOfIssued(k, Some(LoginTokenMinutes * 60), issued, now, crypto);
  }

  /**
   * A fresh store with one signed-up user (id 1), and the credentials of a
   * request that user sends right after logging in.
   */
  method LoggedIn(settings: Settings, now: int, username: string, password: string)
    returns (db: Database, cred: Credentials)
    requires VerifiesOwnHashes(settings.crypto)
    requires JwtContract(settings.crypto)
    requires settings.apiKey != ""
    ensures fresh(db) && db.Valid()
    ensures db.users == map[1 := User(1, username, settings.crypto.hash(password))]
    ensures db.tasks == map[]
    ensures cred.apiKey == Some(settings.apiKey)
    ensures Authorize(cred, db.users, settings, now) == Success(db.users[1])
  {
    db := new Database();
    var signedUp := Signup(db, username, password, settings.crypto);
    assert db.users == map[1 := User(1, username, settings.crypto.hash(password))];
    LoginSucceedsIff(db.users, 1, password, now, settings.crypto);
    var login := Login(db.users, username, password, now, settings.crypto);
    LoginTokenIdentifiesUser(db.users, username, password, now, now, settings.crypto);
    cred := Credentials(Some(settings.apiKey), Some(login.value.accessToken));
  }

  /**
   * The CRUD flow for tasks in the test suite, with the default API key: bob signs
   * up and logs in, creates "t1" with description "d" (pending), finds it in
   * the list, reads it by id, completes it and deletes it. One step is added
   * at the end: a read after the delete, which finds nothing.
   */
  method TaskCrudFlow(settings: Settings, now: int)
    returns (created: Result<Task>, listed: Result<seq<Task>>, fetched: Result<Task>,
             updated: Result<Task>, deleted: Result<()>, afterDelete: Result<Task>)
    requires VerifiesOwnHashes(settings.crypto)
    requires JwtContract(settings.crypto)
    requires settings.apiKey == DefaultApiKey
    ensures created.Success? && created.value.status == Pending
    ensures created.value.title == "t1" && created.value.description == "d"
    ensures listed == Success([created.value])
    ensures fetched.Success? && fetched.value.id == created.value.id
    ensures updated.Success? && updated.value.status == Completed
    ensures deleted == Success(())
    ensures afterDelete == Failure(TaskNotFound)
  {
    var db, cred := LoggedIn(settings, now, "bob", "pw");

    created := CreateTask(db, cred, settings, now, "t1", Some("d"));
    listed := ListTasks(db, cred, settings, now);
    var mine := listed.value;
    assert db.tasks == map[1 := created.value];
    assert forall i :: 0 <= i < |mine| ==> mine[i].id == 1;
    assert created.value in mine;
    assert |mine| == 1;
    assert mine == [created.value];
    fetched := GetTask(db, cred, settings, now, created.value.id);
    updated := UpdateTaskStatus(db, cred, settings, now, created.value.id, Completed);
    deleted := DeleteTask(db, cred, settings, now, created.value.id);
    afterDelete := GetTask(db, cred, settings, now, created.value.id);
  }

  /**
   * The gate test of the suite: with a valid token but no API key the request
   * is rejected with 401, and with the default key but no token it is
   * rejected with 401 too.
   */
  method RequiresApiKeyAndToken(settings: Settings, now: int)
    returns (noKey: Result<seq<Task>>, noToken: Result<seq<Task>>)
    requires VerifiesOwnHashes(settings.crypto)
    requires JwtContract(settings.crypto)
    requires settings.apiKey == DefaultApiKey
    ensures noKey == Failure(InvalidApiKey) && noKey.error.status == 401
    ensures noToken == Failure(NotAuthenticated) && noToken.error.status == 401
  {
    var db, cred := LoggedIn(settings, now, "eve", "pw");
    noKey := ListTasks(db, cred.(apiKey := None), settings, now);
    noToken := ListTasks(db, Credentials(Some(DefaultApiKey), None), settings, now);
  }

  /**
   * Two users, one task: the owner reads it, the other user gets "Task not
   * found", the same answer as for an id no task has.
   */
  method OtherUsersTaskIsHidden(settings: Settings, now: int)
    returns (byOwner: Result<Task>, byOther: Result<Task>, missing: Result<Task>)
    requires VerifiesOwnHashes(settings.crypto)
    requires JwtContract(settings.crypto)
    requires settings.apiKey != ""
    ensures byOwner.Success? && byOwner.value.title == "secret"
    ensures byOther == Failure(TaskNotFound)
    ensures missing == byOther
  {
    var db := new Database();
    var alice := Signup(db, "alice", "pw1", settings.crypto);
    var bob := Signup(db, "bob", "pw2", settings.crypto);
    assert db.users == map[1 := User(1, "alice", settings.crypto.hash("pw1")), 2 := User(2, "bob", settings.crypto.hash("pw2"))];
    LoginSucceedsIff(db.users, 1, "pw1", now, settings.crypto);
    LoginSucceedsIff(db.users, 2, "pw2", now, settings.crypto);
    var aliceLogin := Login(db.users, "alice", "pw1", now, settings.crypto);
    var bobLogin := Login(db.users, "bob", "pw2", now, settings.crypto);
    LoginTokenIdentifiesUser(db.users, "alice", "pw1", now, now, settings.crypto);
    LoginTokenIdentifiesUser(db.users, "bob", "pw2", now, now, settings.crypto);
    var aliceCred := Credentials(Some(settings.apiKey), Some(aliceLogin.value.accessToken));
    var bobCred := Credentials(Some(settings.apiKey), Some(bobLogin.value.accessToken));
    assert Authorize(aliceCred, db.users, settings, now) == Success(db.users[1]);
    assert Authorize(bobCred, db.users, settings, now) == Success(db.users[2]);

    var created := CreateTask(db, aliceCred, settings, now, "secret", Some("d"));
    byOwner := GetTask(db, aliceCred, settings, now, created.value.id);
    byOther := GetTask(db, bobCred, settings, now, created.value.id);
    missing := GetTask(db, bobCred, settings, now, created.value.id + 1);
  }

  /**
   * A second signup under a taken name is refused and the table keeps one
   * row for that name.
   */
  method SignupTwice(crypto: Crypto) returns (first: Result<UserOut>, second: Result<UserOut>, rows: set<int>)
    ensures first.Success? && first.value.username == "alice"
    ensures second == Failure(UsernameTaken)
    ensures |rows| == 1
  {
    var db := new Database();
    first := Signup(db, "alice", "pw1", crypto);
    second := Signup(db, "alice", "pw2", crypto);
    rows := set k | k in db.users && db.users[k].username == "alice";
    assert rows == {1};
  }

  /**
   * Deleting a user takes the user's tasks along: the old token no longer
   * finds its user, and no task the user owned is left for anyone.
   */
  method DeletedUserLosesTasks(settings: Settings, now: int) returns (afterDelete: Result<seq<Task>>, leftover: int)
    requires VerifiesOwnHashes(settings.crypto)
    requires JwtContract(settings.crypto)
    requires settings.apiKey != ""
    ensures afterDelete == Failure(UserNotFound)
    ensures leftover == 0
  {
    var db, cred := LoggedIn(settings, now, "alice", "pw1");
    var t1 := CreateTask(db, cred, settings, now, "a", None);
    var t2 := CreateTask(db, cred, settings, now, "b", None);

    db.DeleteUser(1);
    afterDelete := ListTasks(db, cred, settings, now);
    leftover := |db.tasks|;
    assert db.tasks == map[];
  }
}
