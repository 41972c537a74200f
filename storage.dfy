/**
 * The storage layer: the four tables held in memory, the queries the
 * server issues against them, and the inserts and updates that change them.
 * Each table is a sequence in insertion order (see module Tables); the
 * serial counters and the clock stand for the database's sequences and
 * for `new Date()` / `defaultNow()`.
 */
module Storage {
  import opened Wrappers
  import opened Schema
  import opened Tables

  /** `Partial<Task>`: the fields an update may overwrite (`None` leaves a field alone). */
  datatype TaskUpdate = TaskUpdate(
    title: Option<string>,
    description: Option<Option<string>>,
    status: Option<string>,
    priority: Option<string>,
    assignedToId: Option<Option<int>>,
    createdById: Option<int>,
    dueDate: Option<Option<nat>>)

  /** `Partial<RoleRequest>` as the review handlers write it. */
  datatype RequestUpdate = RequestUpdate(
    status: Option<RequestStatus>,
    reviewedById: Option<Option<int>>,
    reviewedAt: Option<Option<nat>>)

  /**
   * What an UPDATE ... RETURNING gives back: the new row, nothing when no
   * row has that id, or a raised constraint violation.
   */
  datatype Outcome<T> = Row(value: T) | NoRow | Violation

  /** The three figures of the admin dashboard. */
  datatype Stats = Stats(totalUsers: nat, pendingRequests: nat, activeTasks: nat)

  // Columns the invariant speaks about.
  function UserKey(u: User): int { u.id }
  function UserTime(u: User): int { u.createdAt }
  function UserName(u: User): string { u.username }
  function UserEmail(u: User): string { u.email }
  function TaskKey(t: Task): int { t.id }
  function TaskTime(t: Task): int { t.createdAt }
  function RequestKey(q: RoleRequest): int { q.id }
  function RequestTime(q: RoleRequest): int { q.createdAt }
  function NoteKey(n: Notification): int { n.id }
  function NoteTime(n: Notification): int { n.createdAt }

  /** The ids a foreign key into `users` may hold. */
  function UserIds(users: seq<User>): (ids: set<int>)
    ensures forall u :: u in users ==> u.id in ids
    ensures forall id :: id in ids ==> exists u :: u in users && u.id == id
  {
    set u | u in users :: u.id
  }

  /** The foreign keys of a task (`createdById`, and `assignedToId` when set) name users. */
  predicate TaskRefsOk(ids: set<int>, t: Task)
  {
    t.createdById in ids && (t.assignedToId.Some? ==> t.assignedToId.value in ids)
  }

  /** The foreign keys of a role request (`userId`, and `reviewedById` when set) name users. */
  predicate RequestRefsOk(ids: set<int>, q: RoleRequest)
  {
    q.userId in ids && (q.reviewedById.Some? ==> q.reviewedById.value in ids)
  }

  /** The UNIQUE constraints on `username` and `email` would reject this insert. */
  predicate Taken(users: seq<User>, ins: InsertUser)
  {
    exists u :: u in users && (u.username == ins.username || u.email == ins.email)
  }

  /** `{ ...task, ...updates, updatedAt: now }`: supplied fields win, the rest stay, `updatedAt` is refreshed. */
  function Patched(t: Task, u: TaskUpdate, now: nat): (r: Task)
    ensures r.id == t.id && r.createdAt == t.createdAt && r.updatedAt == now
    ensures r.title == u.title.GetOr(t.title) && r.description == u.description.GetOr(t.description)
    ensures r.status == u.status.GetOr(t.status) && r.priority == u.priority.GetOr(t.priority)
    ensures r.assignedToId == u.assignedToId.GetOr(t.assignedToId)
    ensures r.createdById == u.createdById.GetOr(t.createdById)
    ensures r.dueDate == u.dueDate.GetOr(t.dueDate)
    ensures u == TaskUpdate(None, None, None, None, None, None, None) ==> r == t.(updatedAt := now)
  {
    t.(title := u.title.GetOr(t.title),
       description := u.description.GetOr(t.description),
       status := u.status.GetOr(t.status),
       priority := u.priority.GetOr(t.priority),
       assignedToId := u.assignedToId.GetOr(t.assignedToId),
       createdById := u.createdById.GetOr(t.createdById),
       dueDate := u.dueDate.GetOr(t.dueDate),
       updatedAt := now)
  }

  /** A role request with the supplied fields of `u` written over it. */
  function Reviewed(q: RoleRequest, u: RequestUpdate): (r: RoleRequest)
    ensures r.id == q.id && r.userId == q.userId && r.createdAt == q.createdAt
    ensures r.requestedRole == q.requestedRole && r.currentRole == q.currentRole
    ensures r.justification == q.justification
    ensures r.status == u.status.GetOr(q.status)
    ensures r.reviewedById == u.reviewedById.GetOr(q.reviewedById)
    ensures r.reviewedAt == u.reviewedAt.GetOr(q.reviewedAt)
  {
    q.(status := u.status.GetOr(q.status),
       reviewedById := u.reviewedById.GetOr(q.reviewedById),
       reviewedAt := u.reviewedAt.GetOr(q.reviewedAt))
  }

  /** `UPDATE users SET role WHERE id`: only that user's role changes. */
  function SetRole(users: seq<User>, id: int, role: string): (r: seq<User>)
    ensures |r| == |users|
    ensures forall i :: 0 <= i < |users| ==>
      r[i] == if users[i].id == id then users[i].(role := role) else users[i]
  {
    Update(users, (u: User) => u.id == id, (u: User) => u.(role := role))
  }

  /** A role change adds no user id and removes none. */
  lemma SetRoleKeepsIds(users: seq<User>, id: int, role: string)
    ensures UserIds(SetRole(users, id, role)) == UserIds(users)
  {
    var r := SetRole(users, id, role);
    forall x | x in UserIds(r) ensures x in UserIds(users) {
      var v :| v in r && v.id == x;
      var i :| 0 <= i < |r| && r[i] == v;
      assert users[i] in users;
    }
    forall x | x in UserIds(users) ensures x in UserIds(r) {
      var v :| v in users && v.id == x;
      var i :| 0 <= i < |users| && users[i] == v;
      assert r[i] in r;
    }
  }

  /** `UPDATE tasks SET ... WHERE id`: the row with that id is patched, every other task is unchanged. */
  function PatchTask(ts: seq<Task>, id: int, u: TaskUpdate, now: nat): (r: seq<Task>)
    ensures |r| == |ts|
    ensures forall i :: 0 <= i < |ts| ==> r[i] == if ts[i].id == id then Patched(ts[i], u, now) else ts[i]
  {
    Update(ts, (t: Task) => t.id == id, (t: Task) => Patched(t, u, now))
  }

  /** `DELETE FROM tasks WHERE id`: exactly the tasks with another id remain, in their order. */
  function RemoveTask(ts: seq<Task>, id: int): (r: seq<Task>)
    ensures forall t :: t in r ==> t in ts && t.id != id
    ensures forall t :: t in ts && t.id != id ==> t in r
  {
    Where(ts, (t: Task) => t.id != id)
  }

  /** `UPDATE role_requests SET ... WHERE id`: only the request with that id changes. */
  function PatchRequest(rs: seq<RoleRequest>, id: int, u: RequestUpdate): (r: seq<RoleRequest>)
    ensures |r| == |rs|
    ensures forall i :: 0 <= i < |rs| ==> r[i] == if rs[i].id == id then Reviewed(rs[i], u) else rs[i]
  {
    Update(rs, (q: RoleRequest) => q.id == id, (q: RoleRequest) => Reviewed(q, u))
  }

  /** `UPDATE notifications SET read = true WHERE id`: no owner check, every other row unchanged. */
  function MarkRead(ns: seq<Notification>, id: int): (r: seq<Notification>)
    ensures |r| == |ns|
    ensures forall i :: 0 <= i < |ns| ==> r[i] == if ns[i].id == id then ns[i].(read := true) else ns[i]
  {
    Update(ns, (n: Notification) => n.id == id, (n: Notification) => n.(read := true))
  }

  /** Marking a notification read a second time changes nothing. */
  lemma MarkReadIdempotent(ns: seq<Notification>, id: int)
    ensures MarkRead(MarkRead(ns, id), id) == MarkRead(ns, id)
  {
    var once := MarkRead(ns, id);
    var twice := MarkRead(once, id);
    assert forall i :: 0 <= i < |ns| ==> twice[i] == once[i];
  }

  /** The whole database as a value: the four tables, the four serial counters and the clock. */
  datatype Db = Db(
    users: seq<User>,
    tasks: seq<Task>,
    roleRequests: seq<RoleRequest>,
    notifications: seq<Notification>,
    nextUserId: nat,
    nextTaskId: nat,
    nextRequestId: nat,
    nextNotificationId: nat,
    clock: nat)

  /** No rows; every serial column starts at 1. */
  function Empty(): Db
  {
    Db([], [], [], [], 1, 1, 1, 1, 0)
  }

  /** The users table: serial, with UNIQUE usernames and emails. */
  ghost predicate UsersOk(users: seq<User>, nextId: int, clock: int)
  {
    Serial(users, UserKey, UserTime, nextId, clock) && Distinct(users, UserName) && Distinct(users, UserEmail)
  }

  /** Every foreign key into `users` names one of `ids`. */
  ghost predicate RefsOk(ids: set<int>, tasks: seq<Task>, rs: seq<RoleRequest>, ns: seq<Notification>)
  {
    && (forall t :: t in tasks ==> TaskRefsOk(ids, t))
    && (forall q :: q in rs ==> RequestRefsOk(ids, q))
    && (forall n :: n in ns ==> n.userId in ids)
  }

  /** The database's constraints: serial keys, UNIQUE username and email, foreign keys into users. */
  ghost predicate Consistent(db: Db)
  {
    && UsersOk(db.users, db.nextUserId, db.clock)
    && Serial(db.tasks, TaskKey, TaskTime, db.nextTaskId, db.clock)
    && Serial(db.roleRequests, RequestKey, RequestTime, db.nextRequestId, db.clock)
    && Serial(db.notifications, NoteKey, NoteTime, db.nextNotificationId, db.clock)
    && RefsOk(UserIds(db.users), db.tasks, db.roleRequests, db.notifications)
  }

  /** Letting time pass breaks no constraint. */
  lemma ConsistentLater(db: Db, later: nat)
    requires Consistent(db) && db.clock <= later
    ensures Consistent(db.(clock := later))
  {
    SerialLater(db.users, UserKey, UserTime, db.nextUserId, db.clock, later);
    SerialLater(db.tasks, TaskKey, TaskTime, db.nextTaskId, db.clock, later);
    SerialLater(db.roleRequests, RequestKey, RequestTime, db.nextRequestId, db.clock, later);
    SerialLater(db.notifications, NoteKey, NoteTime, db.nextNotificationId, db.clock, later);
  }

  /** Inserting a user whose username and email are both new keeps the database consistent. */
  lemma ConsistentAddUser(db: Db, u: User)
    requires Consistent(db)
    requires u.id == db.nextUserId && u.createdAt == db.clock
    requires forall v :: v in db.users ==> v.username != u.username && v.email != u.email
    ensures Consistent(db.(users := db.users + [u], nextUserId := db.nextUserId + 1, clock := db.clock + 1))
  {
    var users := db.users + [u];
    SerialAppend(db.users, u, UserKey, UserTime, db.nextUserId, db.clock);
    forall i, j | 0 <= i < j < |users|
      ensures users[i].username != users[j].username && users[i].email != users[j].email
    {
      if j == |db.users| { assert users[i] in db.users; }
    }
    assert UserIds(db.users) <= UserIds(users);
    ConsistentLater(db, db.clock + 1);
  }

  /** Inserting a task whose foreign keys name users keeps the database consistent. */
  lemma ConsistentAddTask(db: Db, t: Task)
    requires Consistent(db)
    requires t.id == db.nextTaskId && t.createdAt == db.clock && TaskRefsOk(UserIds(db.users), t)
    ensures Consistent(db.(tasks := db.tasks + [t], nextTaskId := db.nextTaskId + 1, clock := db.clock + 1))
  {
    SerialAppend(db.tasks, t, TaskKey, TaskTime, db.nextTaskId, db.clock);
    ConsistentLater(db, db.clock + 1);
  }

  /** Inserting a role request whose foreign keys name users keeps the database consistent. */
  lemma ConsistentAddRequest(db: Db, q: RoleRequest)
    requires Consistent(db)
    requires q.id == db.nextRequestId && q.createdAt == db.clock && RequestRefsOk(UserIds(db.users), q)
    ensures Consistent(db.(roleRequests := db.roleRequests + [q], nextRequestId := db.nextRequestId + 1,
                           clock := db.clock + 1))
  {
    SerialAppend(db.roleRequests, q, RequestKey, RequestTime, db.nextRequestId, db.clock);
    ConsistentLater(db, db.clock + 1);
  }

  /** Inserting a notification for an existing user keeps the database consistent. */
  lemma ConsistentAddNotification(db: Db, n: Notification)
    requires Consistent(db)
    requires n.id == db.nextNotificationId && n.createdAt == db.clock && n.userId in UserIds(db.users)
    ensures Consistent(db.(notifications := db.notifications + [n],
                           nextNotificationId := db.nextNotificationId + 1, clock := db.clock + 1))
  {
    SerialAppend(db.notifications, n, NoteKey, NoteTime, db.nextNotificationId, db.clock);
    ConsistentLater(db, db.clock + 1);
  }

  /** Changing a role keeps the database consistent: no key, timestamp, name or email moves. */
  lemma ConsistentSetRole(db: Db, id: int, role: string)
    requires Consistent(db)
    ensures Consistent(db.(users := SetRole(db.users, id, role)))
  {
    var users := SetRole(db.users, id, role);
    SetRoleKeepsIds(db.users, id, role);
    SerialPointwise(db.users, users, UserKey, UserTime, db.nextUserId, db.clock);
    DistinctPointwise(db.users, users, UserName);
    DistinctPointwise(db.users, users, UserEmail);
    assert UsersOk(users, db.nextUserId, db.clock);
    assert RefsOk(UserIds(users), db.tasks, db.roleRequests, db.notifications);
  }

  /** Patching a task keeps the database consistent when the patched row's foreign keys name users. */
  lemma ConsistentPatchTask(db: Db, id: int, u: TaskUpdate, now: nat)
    requires Consistent(db)
    requires forall t :: t in db.tasks && t.id == id ==> TaskRefsOk(UserIds(db.users), Patched(t, u, now))
    requires now == db.clock
    ensures Consistent(db.(tasks := PatchTask(db.tasks, id, u, now), clock := now + 1))
  {
    var tasks := PatchTask(db.tasks, id, u, now);
    SerialPointwise(db.tasks, tasks, TaskKey, TaskTime, db.nextTaskId, db.clock);
    forall x | x in tasks
      ensures TaskRefsOk(UserIds(db.users), x)
    {
      var i :| 0 <= i < |tasks| && tasks[i] == x;
      assert db.tasks[i] in db.tasks;
    }
    ConsistentLater(db.(tasks := tasks), now + 1);
  }

  /** Deleting a task keeps the database consistent. */
  lemma ConsistentRemoveTask(db: Db, id: int)
    requires Consistent(db)
    ensures Consistent(db.(tasks := RemoveTask(db.tasks, id)))
  {
    SerialWhere(db.tasks, (t: Task) => t.id != id, TaskKey, TaskTime, db.nextTaskId, db.clock);
  }

  /** Patching a role request keeps the database consistent when its reviewer names a user. */
  lemma ConsistentPatchRequest(db: Db, id: int, u: RequestUpdate)
    requires Consistent(db)
    requires forall q :: q in db.roleRequests && q.id == id ==> RequestRefsOk(UserIds(db.users), Reviewed(q, u))
    ensures Consistent(db.(roleRequests := PatchRequest(db.roleRequests, id, u)))
  {
    var rs := PatchRequest(db.roleRequests, id, u);
    SerialPointwise(db.roleRequests, rs, RequestKey, RequestTime, db.nextRequestId, db.clock);
    forall x | x in rs
      ensures RequestRefsOk(UserIds(db.users), x)
    {
      var i :| 0 <= i < |rs| && rs[i] == x;
      assert db.roleRequests[i] in db.roleRequests;
    }
  }

  /** Marking a notification read keeps the database consistent. */
  lemma ConsistentMarkRead(db: Db, id: int)
    requires Consistent(db)
    ensures Consistent(db.(notifications := MarkRead(db.notifications, id)))
  {
    var ns := MarkRead(db.notifications, id);
    SerialPointwise(db.notifications, ns, NoteKey, NoteTime, db.nextNotificationId, db.clock);
    forall x | x in ns
      ensures x.userId in UserIds(db.users)
    {
      var i :| 0 <= i < |ns| && ns[i] == x;
      assert db.notifications[i] in db.notifications;
    }
  }

  /** The in-memory database. */
  class DatabaseStorage {
    var users: seq<User>
    var tasks: seq<Task>
    var roleRequests: seq<RoleRequest>
    var notifications: seq<Notification>
    // the next value of each table's serial id, and the clock behind every timestamp
    var nextUserId: nat
    var nextTaskId: nat
    var nextRequestId: nat
    var nextNotificationId: nat
    var clock: nat

    /** The database this object holds. */
    function State(): Db
      reads this
    {
      Db(users, tasks, roleRequests, notifications, nextUserId, nextTaskId, nextRequestId, nextNotificationId, clock)
    }

    ghost predicate Valid()
      reads this
    {
      Consistent(State())
    }

    /** An empty database; serial columns start at 1. */
    constructor ()
      ensures Valid()
      ensures State() == Empty()
    {
      users, tasks, roleRequests, notifications := [], [], [], [];
      nextUserId, nextTaskId, nextRequestId, nextNotificationId := 1, 1, 1, 1;
      clock := 0;
    }

    /** `new Date()`: the current time; the clock moves on. */
    method Now() returns (t: nat)
      requires Valid()
      modifies this`clock
      ensures Valid()
      ensures t == old(clock) && clock == old(clock) + 1
      ensures State() == old(State()).(clock := old(clock) + 1)
    {
      ConsistentLater(State(), clock + 1);
      t := clock;
      clock := clock + 1;
    }

    // ---- users ----

    function GetUser(id: int): (r: Option<User>)
      reads this
      requires Valid()
      ensures r.None? <==> forall u :: u in users ==> u.id != id
      ensures forall u :: u in users && u.id == id ==> r == Some(u)
    {
      AscendingDistinct(users, UserKey);
      FindKeyUnique(users, UserKey, id);
      FindKey(users, UserKey, id)
    }

    function GetUserByUsername(username: string): (r: Option<User>)
      reads this
      requires Valid()
      ensures r.None? <==> forall u :: u in users ==> u.username != username
      ensures forall u :: u in users && u.username == username ==> r == Some(u)
    {
      FindKeyUnique(users, UserName, username);
      FindKey(users, UserName, username)
    }

    function GetUserByEmail(email: string): (r: Option<User>)
      reads this
      requires Valid()
      ensures r.None? <==> forall u :: u in users ==> u.email != email
      ensures forall u :: u in users && u.email == email ==> r == Some(u)
    {
      FindKeyUnique(users, UserEmail, email);
      FindKey(users, UserEmail, email)
    }

    /** Every user, newest first. */
    function GetAllUsers(): (r: seq<User>)
      reads this
      requires Valid()
      ensures |r| == |users|
      ensures forall u :: u in r <==> u in users
      ensures Descending(r, UserTime)
    {
      var all := (u: User) => true;
      SelectNewestFirst(users, all, UserTime);
      Select(users, all)
    }

    /** INSERT INTO users: refused when the username or the email is taken. */
    method CreateUser(ins: InsertUser) returns (r: Option<User>)
      requires Valid()
      modifies this`users, this`nextUserId, this`clock
      ensures Valid()
      ensures Taken(old(users), ins) ==> r.None? && unchanged(this)
      ensures !Taken(old(users), ins) ==>
        && r == Some(NewUser(ins, old(nextUserId), old(clock)))
        && users == old(users) + [r.value]
        && nextUserId == old(nextUserId) + 1 && clock == old(clock) + 1
        && State() == old(State()).(users := old(users) + [r.value], nextUserId := old(nextUserId) + 1, clock := old(clock) + 1)
    {
      if Taken(users, ins) {
        return None;
      }
      var u := NewUser(ins, nextUserId, clock);
      ConsistentAddUser(State(), u);
      users := users + [u];
      nextUserId, clock := nextUserId + 1, clock + 1;
      r := Some(u);
    }

    /** `UPDATE users SET role`: returns the updated row, or nothing when no user has that id. */
    method UpdateUserRole(userId: int, role: string) returns (r: Option<User>)
      requires Valid()
      modifies this`users
      ensures Valid()
      ensures users == SetRole(old(users), userId, role)
      ensures State() == old(State()).(users := SetRole(old(users), userId, role))
      ensures r == (if old(GetUser(userId)).Some? then Some(old(GetUser(userId)).value.(role := role)) else None)
    {
      var found := GetUser(userId);
      ConsistentSetRole(State(), userId, role);
      users := SetRole(users, userId, role);
      r := if found.Some? then Some(found.value.(role := role)) else None;
    }

    // ---- tasks ----

    function GetTask(id: int): (r: Option<Task>)
      reads this
      requires Valid()
      ensures r.None? <==> forall t :: t in tasks ==> t.id != id
      ensures forall t :: t in tasks && t.id == id ==> r == Some(t)
    {
      AscendingDistinct(tasks, TaskKey);
      FindKeyUnique(tasks, TaskKey, id);
      FindKey(tasks, TaskKey, id)
    }

    /** The tasks assigned to `userId`, newest first. */
    function GetUserTasks(userId: int): (r: seq<Task>)
      reads this
      requires Valid()
      ensures forall t :: t in r <==> t in tasks && t.assignedToId == Some(userId)
      ensures forall t :: t in r ==> multiset(r)[t] == 1
      ensures Descending(r, TaskTime)
    {
      var mine := (t: Task) => t.assignedToId == Some(userId);
      AscendingDistinct(tasks, TaskKey);
      SelectNoRepeats(tasks, mine, TaskKey);
      SelectNewestFirst(tasks, mine, TaskTime);
      Select(tasks, mine)
    }

    /** The tasks created by `managerId`, newest first. */
    function GetTeamTasks(managerId: int): (r: seq<Task>)
      reads this
      requires Valid()
      ensures forall t :: t in r <==> t in tasks && t.createdById == managerId
      ensures forall t :: t in r ==> multiset(r)[t] == 1
      ensures Descending(r, TaskTime)
    {
      var authored := (t: Task) => t.createdById == managerId;
      AscendingDistinct(tasks, TaskKey);
      SelectNoRepeats(tasks, authored, TaskKey);
      SelectNewestFirst(tasks, authored, TaskTime);
      Select(tasks, authored)
    }

    /** Every task, newest first. */
    function GetAllTasks(): (r: seq<Task>)
      reads this
      requires Valid()
      ensures |r| == |tasks|
      ensures forall t :: t in r <==> t in tasks
      ensures Descending(r, TaskTime)
    {
      var all := (t: Task) => true;
      SelectNewestFirst(tasks, all, TaskTime);
      Select(tasks, all)
    }

    /** INSERT INTO tasks with `updatedAt = now`: refused when a foreign key names no user. */
    method CreateTask(ins: InsertTask) returns (r: Option<Task>)
      requires Valid()
      modifies this`tasks, this`nextTaskId, this`clock
      ensures Valid()
      ensures var t := NewTask(ins, old(nextTaskId), old(clock));
        && (!TaskRefsOk(UserIds(users), t) ==> r.None? && unchanged(this))
        && (TaskRefsOk(UserIds(users), t) ==>
              && r == Some(t) && tasks == old(tasks) + [t]
              && nextTaskId == old(nextTaskId) + 1 && clock == old(clock) + 1
              && State() == old(State()).(tasks := old(tasks) + [t], nextTaskId := old(nextTaskId) + 1, clock := old(clock) + 1))
    {
      var t := NewTask(ins, nextTaskId, clock);
      if !TaskRefsOk(UserIds(users), t) {
        return None;
      }
      ConsistentAddTask(State(), t);
      tasks := tasks + [t];
      nextTaskId, clock := nextTaskId + 1, clock + 1;
      r := Some(t);
    }

    /**
     * `UPDATE tasks SET ...updates, updatedAt = now WHERE id RETURNING *`:
     * nothing when no task has that id, a violation when the patched row's
     * foreign keys name no user, else the patched row.
     */
    method UpdateTask(id: int, u: TaskUpdate) returns (r: Outcome<Task>)
      requires Valid()
      modifies this`tasks, this`clock
      ensures Valid()
      ensures old(GetTask(id)).None? ==> r == NoRow && unchanged(this)
      ensures old(GetTask(id)).Some? ==>
        var t := Patched(old(GetTask(id)).value, u, old(clock));
        && (!TaskRefsOk(UserIds(users), t) ==> r == Violation && unchanged(this))
        && (TaskRefsOk(UserIds(users), t) ==>
              r == Row(t) && tasks == PatchTask(old(tasks), id, u, old(clock)) && clock == old(clock) + 1)
    {
      var found := GetTask(id);
      if found.None? {
        return NoRow;
      }
      var t := Patched(found.value, u, clock);
      if !TaskRefsOk(UserIds(users), t) {
        return Violation;
      }
      PutTask(id, u);
      r := Row(t);
    }

    method PutTask(id: int, u: TaskUpdate)
      requires Valid()
      requires forall t :: t in tasks && t.id == id ==> TaskRefsOk(UserIds(users), Patched(t, u, clock))
      modifies this`tasks, this`clock
      ensures Valid()
      ensures tasks == PatchTask(old(tasks), id, u, old(clock)) && clock == old(clock) + 1
    {
      ConsistentPatchTask(State(), id, u, clock);
      tasks, clock := PatchTask(tasks, id, u, clock), clock + 1;
    }

    /** `DELETE FROM tasks WHERE id`. */
    method DeleteTask(id: int)
      requires Valid()
      modifies this`tasks
      ensures Valid()
      ensures tasks == RemoveTask(old(tasks), id)
      ensures State() == old(State()).(tasks := RemoveTask(old(tasks), id))
    {
      ConsistentRemoveTask(State(), id);
      tasks := RemoveTask(tasks, id);
    }

    // ---- role requests ----

    function GetRoleRequest(id: int): (r: Option<RoleRequest>)
      reads this
      requires Valid()
      ensures r.None? <==> forall q :: q in roleRequests ==> q.id != id
      ensures forall q :: q in roleRequests && q.id == id ==> r == Some(q)
    {
      AscendingDistinct(roleRequests, RequestKey);
      FindKeyUnique(roleRequests, RequestKey, id);
      FindKey(roleRequests, RequestKey, id)
    }

    /** The requests made by `userId`, newest first. */
    function GetUserRoleRequests(userId: int): (r: seq<RoleRequest>)
      reads this
      requires Valid()
      ensures forall q :: q in r <==> q in roleRequests && q.userId == userId
      ensures Descending(r, RequestTime)
    {
      var theirs := (q: RoleRequest) => q.userId == userId;
      SelectNewestFirst(roleRequests, theirs, RequestTime);
      Select(roleRequests, theirs)
    }

    /** Every request, newest first. */
    function GetAllRoleRequests(): (r: seq<RoleRequest>)
      reads this
      requires Valid()
      ensures |r| == |roleRequests|
      ensures forall q :: q in r <==> q in roleRequests
      ensures Descending(r, RequestTime)
    {
      var all := (q: RoleRequest) => true;
      SelectNewestFirst(roleRequests, all, RequestTime);
      Select(roleRequests, all)
    }

    /** The PENDING requests, newest first. */
    function GetPendingRoleRequests(): (r: seq<RoleRequest>)
      reads this
      requires Valid()
      ensures forall q :: q in r <==> q in roleRequests && q.status == Pending
      ensures Descending(r, RequestTime)
    {
      var open := (q: RoleRequest) => q.status == Pending;
      SelectNewestFirst(roleRequests, open, RequestTime);
      Select(roleRequests, open)
    }

    /** INSERT INTO role_requests: refused when `userId` names no user. */
    method CreateRoleRequest(ins: InsertRoleRequest) returns (r: Option<RoleRequest>)
      requires Valid()
      modifies this`roleRequests, this`nextRequestId, this`clock
      ensures Valid()
      ensures var q := NewRoleRequest(ins, old(nextRequestId), old(clock));
        && (ins.userId !in UserIds(users) ==> r.None? && unchanged(this))
        && (ins.userId in UserIds(users) ==>
              && r == Some(q) && roleRequests == old(roleRequests) + [q]
              && nextRequestId == old(nextRequestId) + 1 && clock == old(clock) + 1
              && State() == old(State()).(roleRequests := old(roleRequests) + [q], nextRequestId := old(nextRequestId) + 1, clock := old(clock) + 1))
    {
      if ins.userId !in UserIds(users) {
        return None;
      }
      var q := NewRoleRequest(ins, nextRequestId, clock);
      ConsistentAddRequest(State(), q);
      roleRequests := roleRequests + [q];
      nextRequestId, clock := nextRequestId + 1, clock + 1;
      r := Some(q);
    }

    /**
     * `UPDATE role_requests SET ...updates WHERE id RETURNING *`: nothing when
     * no request has that id, a violation when `reviewedById` names no user.
     */
    method UpdateRoleRequest(id: int, u: RequestUpdate) returns (r: Outcome<RoleRequest>)
      requires Valid()
      modifies this`roleRequests
      ensures Valid()
      ensures old(GetRoleRequest(id)).None? ==> r == NoRow && unchanged(this)
      ensures old(GetRoleRequest(id)).Some? ==>
        var q := Reviewed(old(GetRoleRequest(id)).value, u);
        && (!RequestRefsOk(UserIds(users), q) ==> r == Violation && unchanged(this))
        && (RequestRefsOk(UserIds(users), q) ==>
              && r == Row(q) && roleRequests == PatchRequest(old(roleRequests), id, u)
              && State() == old(State()).(roleRequests := PatchRequest(old(roleRequests), id, u)))
    {
      var found := GetRoleRequest(id);
      if found.None? {
        return NoRow;
      }
      var q := Reviewed(found.value, u);
      if !RequestRefsOk(UserIds(users), q) {
        return Violation;
      }
      PutRequest(id, u);
      r := Row(q);
    }

    /** The write behind `updateRoleRequest`, once the patched row's reviewer is known to name a user. */
    method PutRequest(id: int, u: RequestUpdate)
      requires Valid()
      requires forall q :: q in roleRequests && q.id == id ==> RequestRefsOk(UserIds(users), Reviewed(q, u))
      modifies this`roleRequests
      ensures Valid()
      ensures State() == old(State()).(roleRequests := PatchRequest(old(roleRequests), id, u))
    {
      ConsistentPatchRequest(State(), id, u);
      roleRequests := PatchRequest(roleRequests, id, u);
    }

    // ---- notifications ----

    /** The notifications addressed to `userId`, newest first. */
    function GetUserNotifications(userId: int): (r: seq<Notification>)
      reads this
      requires Valid()
      ensures forall n :: n in r <==> n in notifications && n.userId == userId
      ensures Descending(r, NoteTime)
    {
      var theirs := (n: Notification) => n.userId == userId;
      SelectNewestFirst(notifications, theirs, NoteTime);
      Select(notifications, theirs)
    }

    /** INSERT INTO notifications: one row appended, refused when `userId` names no user. */
    method CreateNotification(ins: InsertNotification) returns (r: Option<Notification>)
      requires Valid()
      modifies this`notifications, this`nextNotificationId, this`clock
      ensures Valid()
      ensures var n := NewNotification(ins, old(nextNotificationId), old(clock));
        && (ins.userId !in UserIds(users) ==> r.None? && unchanged(this))
        && (ins.userId in UserIds(users) ==>
              && r == Some(n) && notifications == old(notifications) + [n]
              && nextNotificationId == old(nextNotificationId) + 1 && clock == old(clock) + 1
              && State() == old(State()).(notifications := old(notifications) + [n],
                   nextNotificationId := old(nextNotificationId) + 1, clock := old(clock) + 1))
    {
      if ins.userId !in UserIds(users) {
        return None;
      }
      var n := NewNotification(ins, nextNotificationId, clock);
      ConsistentAddNotification(State(), n);
      notifications := notifications + [n];
      nextNotificationId, clock := nextNotificationId + 1, clock + 1;
      r := Some(n);
    }

    /** `UPDATE notifications SET read = true WHERE id`. */
    method MarkNotificationAsRead(id: int)
      requires Valid()
      modifies this`notifications
      ensures Valid()
      ensures notifications == MarkRead(old(notifications), id)
      ensures State() == old(State()).(notifications := MarkRead(old(notifications), id))
    {
      ConsistentMarkRead(State(), id);
      notifications := MarkRead(notifications, id);
    }

    // ---- stats ----

    /**
     * The dashboard counts. `activeTasks` filters on status = TODO AND
     * status = IN_PROGRESS, which no row satisfies, so it is always 0.
     */
    function GetStats(): (r: Stats)
      reads this
      ensures r.totalUsers == |users|
      ensures r.pendingRequests == Count(roleRequests, (q: RoleRequest) => q.status == Pending)
      ensures r.pendingRequests <= |roleRequests|
      ensures r.pendingRequests == 0 <==> !AnyPending(roleRequests)
      ensures r.activeTasks == 0
    {
      Stats(|users|,
            Count(roleRequests, (q: RoleRequest) => q.status == Pending),
            Count(tasks, (t: Task) => t.status == TODO && t.status == IN_PROGRESS))
    }
  }
}
