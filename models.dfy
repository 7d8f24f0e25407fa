/**
 * The two tables and their constraints: users (unique username) and tasks
 * (owned by an existing user, status from a two-value enum, defaults for
 * description, status and creation time), with the ORM's delete cascade from
 * a user to the user's tasks. The declared foreign key and its `ON DELETE
 * CASCADE` are not enforced by SQLite, since no connection turns on
 * `PRAGMA foreign_keys`; the operations keep every owner present instead.
 */
module Models {

  import opened Wrappers

  /** The task status enum; the column stores the member's name. */
  datatype TaskStatus = Pending | Completed

  /** The text the status column holds for each member. */
  function StatusName(s: TaskStatus): (name: string)
    ensures StatusFromName(name) == Some(s)
  {
    match s
    case Pending => "pending"
    case Completed => "completed"
  }

  /** Reading the status column back: only the two member names are statuses. */
  function StatusFromName(name: string): (r: Option<TaskStatus>)
    ensures r.Some? ==> name == (if r.value == Pending then "pending" else "completed")
    ensures name != "pending" && name != "completed" ==> r.None?
  {
    if name == "pending" then Some(Pending)
    else if name == "completed" then Some(Completed)
    else None
  }

  /** A row of `users`. The digest is whatever the password hasher produced. */
  datatype User = User(id: int, username: string, hashedPassword: string)

  /** A row of `tasks`; `createdAt` is an instant in seconds. */
  datatype Task = Task(
    id: int,
    userId: int,
    title: string,
    description: string,
    status: TaskStatus,
    createdAt: int)

  /**
   * A new `tasks` row with the column defaults filled in: status pending,
   * creation time `now`, and an empty description where none is given.
   */
  function NewTask(id: int, userId: int, title: string, description: Option<string>, now: int): (t: Task)
    ensures t.id == id && t.userId == userId && t.title == title
    ensures t.status == Pending && t.createdAt == now
    ensures description.None? ==> t.description == ""
    ensures description.Some? ==> t.description == description.value
  {
    var text := match description case Some(d) => d case None => "";
    Task(id, userId, title, text, Pending, now)
  }

  /** Every user row is stored under its own primary key. */
  ghost predicate UserKeysAreIds(users: map<int, User>) {
    forall k :: k in users ==> users[k].id == k
  }

  /** Every task row is stored under its own primary key. */
  ghost predicate TaskKeysAreIds(tasks: map<int, Task>) {
    forall k :: k in tasks ==> tasks[k].id == k
  }

  /** The unique constraint on `users.username`. */
  ghost predicate UniqueUsernames(users: map<int, User>) {
    forall a, b :: a in users && b in users && users[a].username == users[b].username ==> a == b
  }

  /**
   * Every task's owner is a stored user. The foreign key `tasks.user_id ->
   * users.id` declares this but SQLite does not enforce it here; task creation
   * (which inserts only under the user the gate has just resolved) and the
   * ORM cascade on user deletion keep it.
   */
  ghost predicate OwnersExist(users: map<int, User>, tasks: map<int, Task>) {
    forall k :: k in tasks ==> tasks[k].userId in users
  }

  /**
   * The invariant of a stored state: the primary keys and the unique username
   * index, which the database enforces, and the owners-exist property, which
   * the operations keep.
   */
  ghost predicate WellFormed(users: map<int, User>, tasks: map<int, Task>) {
    && UserKeysAreIds(users)
    && TaskKeysAreIds(tasks)
    && UniqueUsernames(users)
    && OwnersExist(users, tasks)
  }

  /** What no operation may change in a task that survives it: all but the status. */
  ghost predicate FixedFieldsKept(before: map<int, Task>, after: map<int, Task>) {
    forall k :: k in before && k in after ==>
      && after[k].id == before[k].id
      && after[k].userId == before[k].userId
      && after[k].title == before[k].title
      && after[k].description == before[k].description
      && after[k].createdAt == before[k].createdAt
  }

  lemma {:induction false} HasLargest(s: set<int>)
    requires s != {}
    ensures exists m :: m in s && forall k :: k in s ==> k <= m
  {
    assert (forall y :: y !in s) ==> s == {};
    var x :| x in s;
    if s != {x} {
      var rest := s - {x};
      HasLargest(rest);
      var m :| m in rest && forall k :: k in rest ==> k <= m;
      var top := if x > m then x else m;
      forall k | k in s ensures k <= top {
        if k != x { assert k in rest; }
      }
    } else {
      assert forall k :: k in s ==> k <= x;
    }
  }

  lemma {:induction false} HasSmallest(s: set<int>)
    requires s != {}
    ensures exists m :: m in s && forall k :: k in s ==> m <= k
  {
    assert (forall y :: y !in s) ==> s == {};
    var x :| x in s;
    if s != {x} {
      var rest := s - {x};
      HasSmallest(rest);
      var m :| m in rest && forall k :: k in rest ==> m <= k;
      var bottom := if x < m then x else m;
      forall k | k in s ensures bottom <= k {
        if k != x { assert k in rest; }
      }
    } else {
      assert forall k :: k in s ==> x <= k;
    }
  }

  function LargestKey(s: set<int>): (m: int)
    requires s != {}
    ensures m in s && forall k :: k in s ==> k <= m
  {
    HasLargest(s);
    var m :| m in s && forall k :: k in s ==> k <= m;
    m
  }

  function SmallestKey(s: set<int>): (m: int)
    requires s != {}
    ensures m in s && forall k :: k in s ==> m <= k
  {
    HasSmallest(s);
    var m :| m in s && forall k :: k in s ==> m <= k;
    m
  }

  /**
   * The id the database gives a row inserted without one: one more than the
   * largest id in the table, 1 in an empty table.
   */
  function NextRowId(keys: set<int>): (id: int)
    ensures id !in keys
    ensures forall k :: k in keys ==> k < id
    ensures keys == {} ==> id == 1
  {
    if keys == {} then 1 else LargestKey(keys) + 1
  }

  /** The tasks left once every task of user `uid` is gone. */
  function WithoutOwner(tasks: map<int, Task>, uid: int): (r: map<int, Task>)
    ensures forall k :: k in r <==> k in tasks && tasks[k].userId != uid
    ensures forall k :: k in r ==> r[k] == tasks[k]
  {
    map k | k in tasks && tasks[k].userId != uid :: tasks[k]
  }

  /** Removing a user together with the user's tasks keeps the store's invariant. */
  lemma CascadeKeepsWellFormed(users: map<int, User>, tasks: map<int, Task>, uid: int)
    requires WellFormed(users, tasks)
    ensures WellFormed(users - {uid}, WithoutOwner(tasks, uid))
  {
  }

  /**
   * The two tables as the session sees them. Row ids are the map keys; the
   * routes read and write these maps directly, as the handlers do through the
   * session.
   */
  class Database {
    var users: map<int, User>
    var tasks: map<int, Task>

    ghost predicate Valid()
      reads this
    {
      WellFormed(users, tasks)
    }

    constructor ()
      ensures Valid()
      ensures users == map[] && tasks == map[]
    {
      users := map[];
      tasks := map[];
    }

    /**
     * Deleting a user through the session: the relationship's delete cascade
     * removes the user's tasks in the same commit.
     */
    method DeleteUser(uid: int)
      requires Valid()
      modifies this
      ensures Valid()
      ensures users == old(users) - {uid}
      ensures tasks == WithoutOwner(old(tasks), uid)
      ensures forall k :: k in tasks ==> tasks[k].userId != uid
      ensures FixedFieldsKept(old(tasks), tasks)
    {
      CascadeKeepsWellFormed(users, tasks, uid);
      tasks := WithoutOwner(tasks, uid);
      users := users - {uid};
    }
  }
}
