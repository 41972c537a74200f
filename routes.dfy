/**
 * The HTTP layer: the process-wide session registry, the two guards every
 * protected route runs through (`requireAuth`, `requireRole`), and the
 * route handlers over the storage layer. Each handler is one atomic step:
 * it takes the request's Authorization header and its parsed body, and
 * gives back either a status-200 JSON body (`Ok`) or an error status with
 * its message (`Fail`).
 */
module Routes {
  import opened Wrappers
  import opened Schema
  import opened Tables
  import opened Storage

  /** What the registry stores under a token: the user's id and the user row as it was at login. */
  datatype Session = Session(userId: nat, user: User)

  /** A handler's answer: a 200 response with its JSON value, or an error status with its message. */
  datatype Reply<T> = Ok(value: T) | Fail(status: nat, error: string)

  /** The outcome of the checks before a review: refused with a status, or open for `reviewer` on `q`. */
  datatype Gate = Refused(status: nat, error: string) | Open(reviewer: User, q: RoleRequest)

  /** The body of a successful login. */
  datatype LoginReply = LoginReply(token: string, user: UserView)

  // Error messages, as the handlers send them.
  const AUTH_REQUIRED: string := "Authentication required"
  const FORBIDDEN: string := "Insufficient permissions"
  const ADMIN_EXISTS: string := "Admin user already exists"
  const USER_EXISTS: string := "User already exists"
  const BAD_CREDENTIALS: string := "Invalid credentials"
  const TASK_NOT_FOUND: string := "Task not found"
  const NOT_YOUR_TASK_UPDATE: string := "Can only update your own tasks"
  const NOT_YOUR_TASK_DELETE: string := "Can only delete your own tasks"
  const ALREADY_PENDING: string := "You already have a pending role request"
  const REQUEST_NOT_FOUND: string := "Role request not found"
  const ALREADY_PROCESSED: string := "Request has already been processed"
  /** Stands for the message of a validation or database error, which the model does not spell out. */
  const INVALID_INPUT: string := "Invalid input"

  // Success messages.
  const LOGGED_OUT: string := "Logged out successfully"
  const TASK_DELETED: string := "Task deleted successfully"
  const MARKED_READ: string := "Notification marked as read"

  // The notification an approval or a rejection sends to the requester.
  const APPROVED_TITLE: string := "Role Request Approved"
  const REJECTED_TITLE: string := "Role Request Rejected"

  function ApprovedMessage(role: string): string
  {
    "Your request for " + role + " role has been approved."
  }

  function RejectedMessage(role: string): string
  {
    "Your request for " + role + " role has been rejected."
  }

  /** The notification a review sends to the requester: SUCCESS for an approval, ERROR for a rejection. */
  function Verdict(q: RoleRequest, verdict: RequestStatus): (n: InsertNotification)
    ensures n.userId == q.userId && n.read.None?
    ensures verdict == Approved ==>
      n.title == APPROVED_TITLE && n.message == ApprovedMessage(q.requestedRole) && n.kind == Some(Success)
    ensures verdict != Approved ==>
      n.title == REJECTED_TITLE && n.message == RejectedMessage(q.requestedRole) && n.kind == Some(Error)
  {
    if verdict == Approved then
      InsertNotification(q.userId, APPROVED_TITLE, ApprovedMessage(q.requestedRole), Some(Success), None)
    else
      InsertNotification(q.userId, REJECTED_TITLE, RejectedMessage(q.requestedRole), Some(Error), None)
  }

  // ---- the Authorization header ----

  const BEARER: string := "Bearer "

  /** `pat` occurs in `s` starting at index `i`. */
  predicate OccursAt(s: string, pat: string, i: int)
  {
    0 <= i && i + |pat| <= |s| && s[i..i + |pat|] == pat
  }

  /** `s.replace(pat, '')`: the first occurrence of `pat` cut out, or `s` itself when there is none. */
  function RemoveFirst(s: string, pat: string): (r: string)
    requires pat != []
    ensures (forall i :: !OccursAt(s, pat, i)) ==> r == s
    ensures (exists i :: OccursAt(s, pat, i)) ==> |r| + |pat| == |s|
    decreases |s|
  {
    if |s| < |pat| then s
    else if s[..|pat|] == pat then
      assert OccursAt(s, pat, 0);
      s[|pat|..]
    else
      ShiftOccurrences(s, pat);
      [s[0]] + RemoveFirst(s[1..], pat)
  }

  /** Past the first character, occurrences in `s` are the occurrences in `s[1..]`, one place on. */
  lemma ShiftOccurrences(s: string, pat: string)
    requires s != [] && !OccursAt(s, pat, 0)
    ensures (exists i :: OccursAt(s, pat, i)) <==> (exists i :: OccursAt(s[1..], pat, i))
  {
    forall i | OccursAt(s, pat, i)
      ensures OccursAt(s[1..], pat, i - 1)
    {
      assert s[1..][i - 1..i - 1 + |pat|] == s[i..i + |pat|];
    }
    forall i | OccursAt(s[1..], pat, i)
      ensures OccursAt(s, pat, i + 1)
    {
      assert s[1..][i..i + |pat|] == s[i + 1..i + 1 + |pat|];
    }
  }

  /** `req.headers.authorization?.replace('Bearer ', '')`, used only when the result is truthy. */
  function BearerToken(header: Option<string>): (r: Option<string>)
    ensures header.None? ==> r.None?
    ensures r.Some? ==> r.value != [] && |r.value| <= |header.value|
  {
    if header.None? then None
    else
      var t := RemoveFirst(header.value, BEARER);
      if t == [] then None else Some(t)
  }

  /** A well-formed header `Bearer <token>` carries `<token>`. */
  lemma BearerRoundTrip(token: string)
    requires token != []
    ensures BearerToken(Some(BEARER + token)) == Some(token)
  {
    assert (BEARER + token)[..|BEARER|] == BEARER;
    assert (BEARER + token)[|BEARER|..] == token;
  }

  /** A header without `Bearer ` in it is taken as the token itself. */
  lemma BareTokenAccepted(token: string)
    requires token != [] && forall i :: !OccursAt(token, BEARER, i)
    ensures BearerToken(Some(token)) == Some(token)
  {
  }

  // ---- the guards ----

  /** `requireRole(roles)`: 403 unless the caller's role is one of `roles`. */
  function RequireRole(roles: seq<string>, user: User): (r: Reply<User>)
    ensures r.Ok? <==> user.role in roles
    ensures r.Ok? ==> r.value == user
    ensures r.Fail? ==> r == Fail(403, FORBIDDEN)
  {
    if user.role in roles then Ok(user) else Fail(403, FORBIDDEN)
  }

  /** The update check: a USER may change only a task assigned to them. */
  predicate MayUpdate(me: User, t: Task)
  {
    !(me.role == USER && t.assignedToId != Some(me.id))
  }

  /** The delete check: a USER may delete only a task they created. */
  predicate MayDelete(me: User, t: Task)
  {
    !(me.role == USER && t.createdById != me.id)
  }

  /** For a USER both checks are ownership tests, on different columns. */
  lemma UserOwnership(me: User, t: Task)
    requires me.role == USER
    ensures MayUpdate(me, t) <==> t.assignedToId == Some(me.id)
    ensures MayDelete(me, t) <==> t.createdById == me.id
  {
  }

  /** MANAGER, ADMIN (and any other role than USER) are never refused by either check. */
  lemma OtherRolesNeverRefused(me: User, t: Task)
    requires me.role != USER
    ensures MayUpdate(me, t) && MayDelete(me, t)
  {
  }

  /** The checks differ: a USER may update a task assigned to them that they may not delete. */
  lemma AssigneeMayNotDelete()
    ensures exists me: User, t: Task :: MayUpdate(me, t) && !MayDelete(me, t)
  {
    var me := User(1, "u", "u@x", "h", USER, 0);
    var t := Task(1, "t", None, TODO, MEDIUM, Some(1), 2, None, 0, 0);
    assert MayUpdate(me, t) && !MayDelete(me, t);
  }

  // ---- role-request invariants ----

  /** `userId` has a PENDING request in `rs`. */
  predicate HasPending(rs: seq<RoleRequest>, userId: int)
  {
    exists q :: q in rs && q.userId == userId && q.status == Pending
  }

  /** No user has two PENDING requests. */
  ghost predicate OnePending(rs: seq<RoleRequest>)
  {
    forall i, j :: 0 <= i < j < |rs| && rs[i].status == Pending && rs[j].status == Pending ==>
      rs[i].userId != rs[j].userId
  }

  /** Every request that was APPROVED or REJECTED in `before` is still there, unchanged, in `after`. */
  ghost predicate ResolvedKept(before: seq<RoleRequest>, after: seq<RoleRequest>)
  {
    |before| <= |after| && forall i :: 0 <= i < |before| && before[i].status != Pending ==> after[i] == before[i]
  }

  /** Adding a request for a user with nothing pending keeps one PENDING request per user. */
  lemma SubmitKeepsOnePending(rs: seq<RoleRequest>, q: RoleRequest)
    requires OnePending(rs) && !HasPending(rs, q.userId)
    ensures OnePending(rs + [q])
  {
    var rs' := rs + [q];
    forall i, j | 0 <= i < j < |rs'| && rs'[i].status == Pending && rs'[j].status == Pending
      ensures rs'[i].userId != rs'[j].userId
    {
      if j == |rs| { assert rs[i] in rs; }
    }
  }

  /** Resolving a request (to anything but PENDING) keeps one PENDING request per user. */
  lemma ReviewKeepsOnePending(rs: seq<RoleRequest>, id: int, u: RequestUpdate)
    requires OnePending(rs) && u.status.Some? && u.status.value != Pending
    ensures OnePending(PatchRequest(rs, id, u))
  {
    var rs' := PatchRequest(rs, id, u);
    forall i | 0 <= i < |rs| && rs'[i].status == Pending
      ensures rs[i].status == Pending && rs'[i].userId == rs[i].userId
    {
    }
  }

  /** Patching a PENDING request leaves every resolved request alone. */
  lemma ReviewKeepsResolved(rs: seq<RoleRequest>, id: int, u: RequestUpdate)
    requires forall q :: q in rs && q.id == id ==> q.status == Pending
    ensures ResolvedKept(rs, PatchRequest(rs, id, u))
  {
    var rs' := PatchRequest(rs, id, u);
    forall i | 0 <= i < |rs| && rs[i].status != Pending
      ensures rs'[i] == rs[i]
    {
      assert rs[i] in rs;
    }
  }

  // ---- sessions ----

  /** Every session's user id is its user's id, and names a user in the table. */
  ghost predicate SessionsOk(sessions: map<string, Session>, ids: set<int>)
  {
    forall t :: t in sessions ==> sessions[t].userId == sessions[t].user.id && sessions[t].user.id in ids
  }

  /** Some string is longer than every key of a finite set. */
  lemma LongerThanAll(keys: set<string>) returns (n: nat)
    ensures forall k :: k in keys ==> |k| < n
  {
    if keys == {} {
      n := 0;
    } else {
      var k :| k in keys;
      var m := LongerThanAll(keys - {k});
      n := if |k| + 1 > m then |k| + 1 else m;
    }
  }

  /** The characters of `toString(36)`: digits and lower-case letters. */
  predicate Base36(t: string)
  {
    forall i :: 0 <= i < |t| ==> '0' <= t[i] <= '9' || 'a' <= t[i] <= 'z'
  }

  /**
   * `generateSessionId()`: two base-36 numerals run together, never empty,
   * that the registry does not hold yet.
   */
  method FreshToken(sessions: map<string, Session>) returns (t: string)
    ensures t !in sessions && t != [] && Base36(t)
  {
    ghost var n := LongerThanAll(sessions.Keys);
    assert seq(n + 1, _ => 'a') !in sessions;
    t :| t !in sessions && t != [] && Base36(t);
  }

  /** A base-36 token has no `Bearer ` in it, so a header holding it alone or after `Bearer ` carries it. */
  lemma Base36Header(t: string)
    requires t != [] && Base36(t)
    ensures BearerToken(Some(t)) == Some(t)
    ensures BearerToken(Some(BEARER + t)) == Some(t)
  {
    forall i
      ensures !OccursAt(t, BEARER, i)
    {
      if 0 <= i && i + |BEARER| <= |t| {
        assert t[i..i + |BEARER|][0] == t[i];
      }
    }
    BareTokenAccepted(t);
    BearerRoundTrip(t);
  }

  /** The server: its storage, the password hash, the email check, and the session registry. */
  class Server {
    const storage: DatabaseStorage
    /** bcrypt's hash; `bcrypt.compare(pw, h)` holds exactly when `hash(pw) == h`. */
    const hash: string -> string
    /** zod's email format check. */
    const isEmail: string -> bool
    /** `sessions`: token to session. */
    var sessions: map<string, Session>

    ghost predicate Valid()
      reads this, storage
    {
      && storage.Valid()
      && OnePending(storage.roleRequests)
      && SessionsOk(sessions, UserIds(storage.users))
    }

    /** A fresh server: empty database, no sessions. */
    constructor (hash: string -> string, isEmail: string -> bool)
      ensures Valid() && fresh(storage) && storage.State() == Empty()
      ensures this.hash == hash && this.isEmail == isEmail && sessions == map[]
    {
      storage := new DatabaseStorage();
      this.hash := hash;
      this.isEmail := isEmail;
      sessions := map[];
      new;
      assert storage.users == [] && storage.roleRequests == [];
    }

    /** `getSession`: the session stored under the header's token, if the token is truthy and known. */
    function GetSession(header: Option<string>): (r: Option<Session>)
      reads this
      ensures r.Some? <==> BearerToken(header).Some? && BearerToken(header).value in sessions
      ensures r.Some? ==> r.value == sessions[BearerToken(header).value]
    {
      var token := BearerToken(header);
      if token.Some? && token.value in sessions then Some(sessions[token.value]) else None
    }

    /** `requireAuth`: 401 without a known token; otherwise `req.user` is the session's stored user. */
    function RequireAuth(header: Option<string>): (r: Reply<User>)
      reads this
      ensures header.None? ==> r == Fail(401, AUTH_REQUIRED)
      ensures r.Fail? <==> BearerToken(header).None? || BearerToken(header).value !in sessions
      ensures r.Fail? ==> r == Fail(401, AUTH_REQUIRED)
      ensures r.Ok? ==> r.value == sessions[BearerToken(header).value].user
    {
      var s := GetSession(header);
      if s.None? then Fail(401, AUTH_REQUIRED) else Ok(s.value.user)
    }

    /** `requireAuth, requireRole(roles)`: 401 first, then 403. */
    function Authorize(header: Option<string>, roles: seq<string>): (r: Reply<User>)
      reads this
      ensures GetSession(header).None? ==> r == Fail(401, AUTH_REQUIRED)
      ensures GetSession(header).Some? ==>
        var me := GetSession(header).value.user;
        && (me.role in roles ==> r == Ok(me))
        && (me.role !in roles ==> r == Fail(403, FORBIDDEN))
    {
      match RequireAuth(header)
      case Fail(status, error) => Fail(status, error)
      case Ok(me) => RequireRole(roles, me)
    }

    // ---- read-only routes ----

    /** GET /api/auth/me: the session's user, as it was at login, without the password. */
    function Me(header: Option<string>): (r: Reply<UserView>)
      reads this
      ensures r.Ok? <==> GetSession(header).Some?
      ensures r.Ok? ==> r.value == View(GetSession(header).value.user)
      ensures r.Fail? ==> r == Fail(401, AUTH_REQUIRED)
    {
      match RequireAuth(header)
      case Fail(status, error) => Fail(status, error)
      case Ok(me) => Ok(View(me))
    }

    /** GET /api/users (ADMIN): every user, newest first, without passwords. */
    function ListUsers(header: Option<string>): (r: Reply<seq<UserView>>)
      reads this, storage
      requires Valid()
      ensures Authorize(header, [ADMIN]).Fail? ==>
        r == Fail(Authorize(header, [ADMIN]).status, Authorize(header, [ADMIN]).error)
      ensures Authorize(header, [ADMIN]).Ok? ==>
        && r.Ok? && |r.value| == |storage.users|
        && (forall u :: u in storage.users ==> View(u) in r.value)
        && (forall v :: v in r.value ==> exists u :: u in storage.users && View(u) == v)
        && Descending(r.value, ViewTime)
    {
      match Authorize(header, [ADMIN])
      case Fail(status, error) => Fail(status, error)
      case Ok(_) =>
        var all := storage.GetAllUsers();
        ViewsCover(all);
        ViewsNewestFirst(all);
        Ok(Views(all))
    }

    /**
     * GET /api/tasks: an ADMIN gets every task; a MANAGER the tasks assigned
     * to them followed by the tasks they created (a task that is both is
     * listed twice); anyone else the tasks assigned to them.
     */
    function ListTasks(header: Option<string>): (r: Reply<seq<Task>>)
      reads this, storage
      requires Valid()
      ensures r.Fail? <==> GetSession(header).None?
      ensures r.Fail? ==> r == Fail(401, AUTH_REQUIRED)
      ensures r.Ok? ==>
        var me := GetSession(header).value.user;
        && (me.role == ADMIN ==>
              (forall t :: t in r.value <==> t in storage.tasks) && Descending(r.value, TaskTime))
        && (me.role == MANAGER ==>
              forall t :: t in r.value <==> t in storage.tasks && (t.assignedToId == Some(me.id) || t.createdById == me.id))
        && (me.role == MANAGER ==>
              forall t :: t in storage.tasks && t.assignedToId == Some(me.id) && t.createdById == me.id ==>
                multiset(r.value)[t] == 2)
        && (me.role == MANAGER ==> r.value == storage.GetUserTasks(me.id) + storage.GetTeamTasks(me.id))
        && (me.role != ADMIN && me.role != MANAGER ==>
              (forall t :: t in r.value <==> t in storage.tasks && t.assignedToId == Some(me.id))
              && Descending(r.value, TaskTime))
    {
      match RequireAuth(header)
      case Fail(status, error) => Fail(status, error)
      case Ok(me) =>
        if me.role == ADMIN then Ok(storage.GetAllTasks())
        else if me.role == MANAGER then Ok(storage.GetUserTasks(me.id) + storage.GetTeamTasks(me.id))
        else Ok(storage.GetUserTasks(me.id))
    }

    /** GET /api/tasks/team (MANAGER, ADMIN): an ADMIN gets every task, a MANAGER the tasks they created. */
    function TeamTasks(header: Option<string>): (r: Reply<seq<Task>>)
      reads this, storage
      requires Valid()
      ensures Authorize(header, [MANAGER, ADMIN]).Fail? ==>
        r == Fail(Authorize(header, [MANAGER, ADMIN]).status, Authorize(header, [MANAGER, ADMIN]).error)
      ensures Authorize(header, [MANAGER, ADMIN]).Ok? ==>
        var me := GetSession(header).value.user;
        && r.Ok? && Descending(r.value, TaskTime)
        && (me.role == ADMIN ==> forall t :: t in r.value <==> t in storage.tasks)
        && (me.role == MANAGER ==> forall t :: t in r.value <==> t in storage.tasks && t.createdById == me.id)
    {
      match Authorize(header, [MANAGER, ADMIN])
      case Fail(status, error) => Fail(status, error)
      case Ok(me) =>
        if me.role == ADMIN then Ok(storage.GetAllTasks()) else Ok(storage.GetTeamTasks(me.id))
    }

    /** GET /api/role-requests: an ADMIN gets every request, anyone else their own; newest first. */
    function ListRoleRequests(header: Option<string>): (r: Reply<seq<RoleRequest>>)
      reads this, storage
      requires Valid()
      ensures r.Fail? <==> GetSession(header).None?
      ensures r.Fail? ==> r == Fail(401, AUTH_REQUIRED)
      ensures r.Ok? ==>
        var me := GetSession(header).value.user;
        && Descending(r.value, RequestTime)
        && (me.role == ADMIN ==> forall q :: q in r.value <==> q in storage.roleRequests)
        && (me.role != ADMIN ==> forall q :: q in r.value <==> q in storage.roleRequests && q.userId == me.id)
    {
      match RequireAuth(header)
      case Fail(status, error) => Fail(status, error)
      case Ok(me) =>
        if me.role == ADMIN then Ok(storage.GetAllRoleRequests()) else Ok(storage.GetUserRoleRequests(me.id))
    }

    /** GET /api/role-requests/pending (ADMIN): the PENDING requests, newest first. */
    function PendingRoleRequests(header: Option<string>): (r: Reply<seq<RoleRequest>>)
      reads this, storage
      requires Valid()
      ensures Authorize(header, [ADMIN]).Fail? ==>
        r == Fail(Authorize(header, [ADMIN]).status, Authorize(header, [ADMIN]).error)
      ensures Authorize(header, [ADMIN]).Ok? ==>
        && r.Ok? && Descending(r.value, RequestTime)
        && forall q :: q in r.value <==> q in storage.roleRequests && q.status == Pending
    {
      match Authorize(header, [ADMIN])
      case Fail(status, error) => Fail(status, error)
      case Ok(_) => Ok(storage.GetPendingRoleRequests())
    }

    /** GET /api/notifications: the caller's notifications, newest first. */
    function ListNotifications(header: Option<string>): (r: Reply<seq<Notification>>)
      reads this, storage
      requires Valid()
      ensures r.Fail? <==> GetSession(header).None?
      ensures r.Fail? ==> r == Fail(401, AUTH_REQUIRED)
      ensures r.Ok? ==>
        var me := GetSession(header).value.user;
        && Descending(r.value, NoteTime)
        && forall n :: n in r.value <==> n in storage.notifications && n.userId == me.id
    {
      match RequireAuth(header)
      case Fail(status, error) => Fail(status, error)
      case Ok(me) => Ok(storage.GetUserNotifications(me.id))
    }

    /** GET /api/stats (ADMIN): the dashboard counts. */
    function Stats(header: Option<string>): (r: Reply<Storage.Stats>)
      reads this, storage
      ensures Authorize(header, [ADMIN]).Fail? ==>
        r == Fail(Authorize(header, [ADMIN]).status, Authorize(header, [ADMIN]).error)
      ensures Authorize(header, [ADMIN]).Ok? ==>
        && r.Ok? && r.value.totalUsers == |storage.users| && r.value.activeTasks == 0
        && (r.value.pendingRequests == 0 <==> !AnyPending(storage.roleRequests))
        && r.value == storage.GetStats()
    {
      match Authorize(header, [ADMIN])
      case Fail(status, error) => Fail(status, error)
      case Ok(_) => Ok(storage.GetStats())
    }

    // ---- account routes ----

    /**
     * POST /api/init: refused with 400 while any ADMIN exists (checked before
     * the body is read); otherwise the body is validated and an ADMIN created.
     */
    method Init(body: Option<RegisterBody>) returns (r: Reply<UserView>)
      requires Valid()
      modifies storage`users, storage`nextUserId, storage`clock
      ensures Valid()
      ensures (exists u :: u in old(storage.users) && u.role == ADMIN) ==>
        r == Fail(400, ADMIN_EXISTS) && unchanged(storage)
      ensures (forall u :: u in old(storage.users) ==> u.role != ADMIN) && (body.None? || !RegisterValid(body.value, isEmail)) ==>
        r == Fail(400, INVALID_INPUT) && unchanged(storage)
      ensures (forall u :: u in old(storage.users) ==> u.role != ADMIN) && body.Some? && RegisterValid(body.value, isEmail) ==>
        var ins := InsertUser(body.value.username, body.value.email, hash(body.value.password), Some(ADMIN));
        var u := NewUser(ins, old(storage.nextUserId), old(storage.clock));
        && (Taken(old(storage.users), ins) ==> r == Fail(400, INVALID_INPUT) && unchanged(storage))
        && (!Taken(old(storage.users), ins) ==>
              && r == Ok(View(u)) && u.role == ADMIN
              && storage.users == old(storage.users) + [u])
    {
      var all := storage.GetAllUsers();
      if exists u :: u in all && u.role == ADMIN {
        return Fail(400, ADMIN_EXISTS);
      }
      if body.None? || !RegisterValid(body.value, isEmail) {
        return Fail(400, INVALID_INPUT);
      }
      var b := body.value;
      var created := AddUser(InsertUser(b.username, b.email, hash(b.password), Some(ADMIN)));
      if created.None? {
        return Fail(400, INVALID_INPUT);
      }
      r := Ok(View(created.value));
    }

    /**
     * POST /api/auth/register: 400 for an invalid body or when the username or
     * the email is in use; otherwise a new user with role USER.
     */
    method Register(body: Option<RegisterBody>) returns (r: Reply<UserView>)
      requires Valid()
      modifies storage`users, storage`nextUserId, storage`clock
      ensures Valid()
      ensures body.None? || !RegisterValid(body.value, isEmail) ==> r == Fail(400, INVALID_INPUT) && unchanged(storage)
      ensures body.Some? && RegisterValid(body.value, isEmail) ==>
        var b := body.value;
        && ((exists u :: u in old(storage.users) && (u.username == b.username || u.email == b.email)) ==>
              r == Fail(400, USER_EXISTS) && unchanged(storage))
        && ((forall u :: u in old(storage.users) ==> u.username != b.username && u.email != b.email) ==>
              var u := NewUser(InsertUser(b.username, b.email, hash(b.password), Some(USER)),
                               old(storage.nextUserId), old(storage.clock));
              && r == Ok(View(u)) && u.role == USER
              && storage.users == old(storage.users) + [u])
    {
      if body.None? || !RegisterValid(body.value, isEmail) {
        return Fail(400, INVALID_INPUT);
      }
      var b := body.value;
      if storage.GetUserByUsername(b.username).Some? || storage.GetUserByEmail(b.email).Some? {
        return Fail(400, USER_EXISTS);
      }
      var created := AddUser(InsertUser(b.username, b.email, hash(b.password), Some(USER)));
      r := Ok(View(created.value));
    }

    /** `createUser`, with the sessions still naming users. */
    method AddUser(ins: InsertUser) returns (created: Option<User>)
      requires Valid()
      modifies storage`users, storage`nextUserId, storage`clock
      ensures Valid()
      ensures Taken(old(storage.users), ins) ==> created.None? && unchanged(storage)
      ensures !Taken(old(storage.users), ins) ==>
        && created == Some(NewUser(ins, old(storage.nextUserId), old(storage.clock)))
        && storage.users == old(storage.users) + [created.value]
    {
      created := storage.CreateUser(ins);
      if created.Some? {
        UserIdsGrow(old(storage.users), created.value);
      }
    }

    /**
     * POST /api/auth/login: 400 for an invalid body, 401 for an unknown
     * username or a wrong password; otherwise a fresh token, under which the
     * user row as it is now is stored.
     */
    method Login(body: Option<LoginBody>) returns (r: Reply<LoginReply>)
      requires Valid()
      modifies this`sessions
      ensures Valid()
      ensures body.None? || !LoginValid(body.value) ==> r == Fail(400, INVALID_INPUT) && sessions == old(sessions)
      ensures body.Some? && LoginValid(body.value) ==>
        var found := storage.GetUserByUsername(body.value.username);
        && (found.None? || hash(body.value.password) != found.value.password ==>
              r == Fail(401, BAD_CREDENTIALS) && sessions == old(sessions))
        && (found.Some? && hash(body.value.password) == found.value.password ==>
              && r.Ok? && r.value.user == View(found.value)
              && r.value.token !in old(sessions)
              && sessions == old(sessions)[r.value.token := Session(found.value.id, found.value)]
              && GetSession(Some(BEARER + r.value.token)) == Some(Session(found.value.id, found.value)))
    {
      if body.None? || !LoginValid(body.value) {
        return Fail(400, INVALID_INPUT);
      }
      var found := storage.GetUserByUsername(body.value.username);
      if found.None? || hash(body.value.password) != found.value.password {
        return Fail(401, BAD_CREDENTIALS);
      }
      var user := found.value;
      var token := FreshToken(sessions);
      sessions := sessions[token := Session(user.id, user)];
      Base36Header(token);
      r := Ok(LoginReply(token, View(user)));
    }

    /** POST /api/auth/logout: 401 without a session; otherwise the token is dropped and resolves no more. */
    method Logout(header: Option<string>) returns (r: Reply<string>)
      requires Valid()
      modifies this`sessions
      ensures Valid()
      ensures old(GetSession(header)).None? ==> r == Fail(401, AUTH_REQUIRED) && sessions == old(sessions)
      ensures old(GetSession(header)).Some? ==>
        && r == Ok(LOGGED_OUT)
        && sessions == old(sessions) - {BearerToken(header).value}
        && GetSession(header).None?
    {
      var s := GetSession(header);
      if s.None? {
        return Fail(401, AUTH_REQUIRED);
      }
      var token := BearerToken(header);
      if token.Some? {
        sessions := sessions - {token.value};
      }
      r := Ok(LOGGED_OUT);
    }

    // ---- task routes ----

    /** POST /api/tasks: the validated body, with `createdById` forced to the caller's id. */
    method CreateTask(header: Option<string>, body: Option<InsertTask>) returns (r: Reply<Task>)
      requires Valid()
      modifies storage`tasks, storage`nextTaskId, storage`clock
      ensures Valid()
      ensures GetSession(header).None? ==> r == Fail(401, AUTH_REQUIRED) && unchanged(storage)
      ensures GetSession(header).Some? && body.None? ==> r == Fail(400, INVALID_INPUT) && unchanged(storage)
      ensures GetSession(header).Some? && body.Some? ==>
        var me := GetSession(header).value.user;
        var t := NewTask(body.value.(createdById := me.id), old(storage.nextTaskId), old(storage.clock));
        && (!TaskRefsOk(UserIds(storage.users), t) ==> r == Fail(400, INVALID_INPUT) && unchanged(storage))
        && (TaskRefsOk(UserIds(storage.users), t) ==>
              && r == Ok(t) && t.createdById == me.id
              && storage.tasks == old(storage.tasks) + [t])
    {
      var me := RequireAuth(header);
      if me.Fail? {
        return Fail(me.status, me.error);
      }
      if body.None? {
        return Fail(400, INVALID_INPUT);
      }
      var created := storage.CreateTask(body.value.(createdById := me.value.id));
      if created.None? {
        return Fail(400, INVALID_INPUT);
      }
      r := Ok(created.value);
    }

    /**
     * PUT /api/tasks/:id: 404 for an unknown task, 403 when a USER is not its
     * assignee; otherwise the supplied fields are written and `updatedAt` refreshed.
     */
    method UpdateTask(header: Option<string>, id: int, u: TaskUpdate) returns (r: Reply<Task>)
      requires Valid()
      modifies storage`tasks, storage`clock
      ensures Valid()
      ensures GetSession(header).None? ==> r == Fail(401, AUTH_REQUIRED) && unchanged(storage)
      ensures GetSession(header).Some? && old(storage.GetTask(id)).None? ==>
        r == Fail(404, TASK_NOT_FOUND) && unchanged(storage)
      ensures GetSession(header).Some? && old(storage.GetTask(id)).Some? ==>
        var me := GetSession(header).value.user;
        var task := old(storage.GetTask(id)).value;
        var t := Patched(task, u, old(storage.clock));
        && (!MayUpdate(me, task) ==> r == Fail(403, NOT_YOUR_TASK_UPDATE) && unchanged(storage))
        && (MayUpdate(me, task) && !TaskRefsOk(UserIds(storage.users), t) ==>
              r == Fail(400, INVALID_INPUT) && unchanged(storage))
        && (MayUpdate(me, task) && TaskRefsOk(UserIds(storage.users), t) ==>
              r == Ok(t) && storage.tasks == PatchTask(old(storage.tasks), id, u, old(storage.clock)))
    {
      var me := RequireAuth(header);
      if me.Fail? {
        return Fail(me.status, me.error);
      }
      var task := storage.GetTask(id);
      if task.None? {
        return Fail(404, TASK_NOT_FOUND);
      }
      if !MayUpdate(me.value, task.value) {
        return Fail(403, NOT_YOUR_TASK_UPDATE);
      }
      var updated := storage.UpdateTask(id, u);
      if updated.Row? {
        r := Ok(updated.value);
      } else {
        r := Fail(400, INVALID_INPUT);
      }
    }

    /** DELETE /api/tasks/:id: 404 for an unknown task, 403 when a USER did not create it; otherwise it is removed. */
    method DeleteTask(header: Option<string>, id: int) returns (r: Reply<string>)
      requires Valid()
      modifies storage`tasks
      ensures Valid()
      ensures GetSession(header).None? ==> r == Fail(401, AUTH_REQUIRED) && unchanged(storage)
      ensures GetSession(header).Some? && old(storage.GetTask(id)).None? ==>
        r == Fail(404, TASK_NOT_FOUND) && unchanged(storage)
      ensures GetSession(header).Some? && old(storage.GetTask(id)).Some? ==>
        var me := GetSession(header).value.user;
        && (!MayDelete(me, old(storage.GetTask(id)).value) ==>
              r == Fail(403, NOT_YOUR_TASK_DELETE) && unchanged(storage))
        && (MayDelete(me, old(storage.GetTask(id)).value) ==>
              r == Ok(TASK_DELETED) && storage.tasks == RemoveTask(old(storage.tasks), id))
    {
      var me := RequireAuth(header);
      if me.Fail? {
        return Fail(me.status, me.error);
      }
      var task := storage.GetTask(id);
      if task.None? {
        return Fail(404, TASK_NOT_FOUND);
      }
      if !MayDelete(me.value, task.value) {
        return Fail(403, NOT_YOUR_TASK_DELETE);
      }
      storage.DeleteTask(id);
      r := Ok(TASK_DELETED);
    }

    // ---- role-request routes ----

    /**
     * POST /api/role-requests: 400 when the caller already has a PENDING
     * request (checked before the body is read); otherwise a new PENDING
     * request for the caller, whose `currentRole` is the role in the session.
     */
    method SubmitRoleRequest(header: Option<string>, body: Option<InsertRoleRequest>) returns (r: Reply<RoleRequest>)
      requires Valid()
      modifies storage`roleRequests, storage`nextRequestId, storage`clock
      ensures Valid()
      ensures ResolvedKept(old(storage.roleRequests), storage.roleRequests)
      ensures GetSession(header).None? ==> r == Fail(401, AUTH_REQUIRED) && unchanged(storage)
      ensures GetSession(header).Some? ==>
        var me := GetSession(header).value.user;
        && (HasPending(old(storage.roleRequests), me.id) ==> r == Fail(400, ALREADY_PENDING) && unchanged(storage))
        && (!HasPending(old(storage.roleRequests), me.id) && body.None? ==>
              r == Fail(400, INVALID_INPUT) && unchanged(storage))
        && (!HasPending(old(storage.roleRequests), me.id) && body.Some? ==>
              var q := NewRoleRequest(body.value.(userId := me.id, currentRole := me.role),
                                      old(storage.nextRequestId), old(storage.clock));
              && r == Ok(q) && storage.roleRequests == old(storage.roleRequests) + [q]
              && q.userId == me.id && q.currentRole == me.role && q.status == Pending && q.reviewedById.None?)
    {
      var me := RequireAuth(header);
      if me.Fail? {
        return Fail(me.status, me.error);
      }
      var existing := storage.GetUserRoleRequests(me.value.id);
      if exists q :: q in existing && q.status == Pending {
        return Fail(400, ALREADY_PENDING);
      }
      if body.None? {
        return Fail(400, INVALID_INPUT);
      }
      var ins := body.value.(userId := me.value.id, currentRole := me.value.role);
      SubmitKeepsOnePending(storage.roleRequests, NewRoleRequest(ins, storage.nextRequestId, storage.clock));
      var created := storage.CreateRoleRequest(ins);
      r := Ok(created.value);
    }

    /**
     * The checks approve and reject share, in their order: 401 without a
     * session, 403 unless the caller is an ADMIN, 404 for an unknown request,
     * 400 for a request that is no longer PENDING. When all pass, the review
     * may go ahead with the caller as reviewer.
     */
    function ReviewGate(header: Option<string>, id: int): (g: Gate)
      reads this, storage
      requires Valid()
      ensures GetSession(header).None? ==> g == Refused(401, AUTH_REQUIRED)
      ensures GetSession(header).Some? && GetSession(header).value.user.role != ADMIN ==> g == Refused(403, FORBIDDEN)
      ensures Authorize(header, [ADMIN]).Ok? && storage.GetRoleRequest(id).None? ==> g == Refused(404, REQUEST_NOT_FOUND)
      ensures Authorize(header, [ADMIN]).Ok? && storage.GetRoleRequest(id).Some? ==>
        (storage.GetRoleRequest(id).value.status != Pending <==> g == Refused(400, ALREADY_PROCESSED))
      ensures g.Open? ==>
        && g.reviewer == GetSession(header).value.user && g.reviewer.role == ADMIN
        && g.reviewer.id in UserIds(storage.users)
        && Some(g.q) == storage.GetRoleRequest(id) && g.q in storage.roleRequests && g.q.id == id
        && g.q.status == Pending && g.q.userId in UserIds(storage.users)
    {
      match Authorize(header, [ADMIN])
      case Fail(status, error) => Refused(status, error)
      case Ok(admin) =>
        match storage.GetRoleRequest(id)
        case None => Refused(404, REQUEST_NOT_FOUND)
        case Some(q) => if q.status != Pending then Refused(400, ALREADY_PROCESSED) else Open(admin, q)
    }

    /**
     * PUT /api/role-requests/:id/approve (ADMIN): when the gate refuses,
     * nothing changes; otherwise the request is stamped APPROVED, the
     * requester gets the requested role and one SUCCESS notification
     * (AfterReview; the Review* lemmas spell the new tables out). No session is
     * touched (`this` is not in the frame), so a session keeps the role its
     * user logged in with.
     */
    method Approve(header: Option<string>, id: int) returns (r: Reply<RoleRequest>)
      requires Valid()
      modifies storage`roleRequests, storage`users, storage`notifications, storage`nextNotificationId, storage`clock
      ensures Valid()
      ensures old(ReviewGate(header, id)).Refused? ==>
        r == Fail(old(ReviewGate(header, id)).status, old(ReviewGate(header, id)).error) && unchanged(storage)
      ensures old(ReviewGate(header, id)).Open? ==>
        var g := old(ReviewGate(header, id));
        && r == Ok(Reviewed(g.q, Stamp(g.reviewer.id, Approved, old(storage.clock))))
        && storage.State() == AfterReview(old(storage.State()), g.reviewer.id, g.q, Approved)
    {
      var g := ReviewGate(header, id);
      if g.Refused? {
        return Fail(g.status, g.error);
      }
      var updated := Resolve(g.reviewer.id, g.q, Approved);
      r := Ok(updated);
    }

    /**
     * PUT /api/role-requests/:id/reject (ADMIN): as approve, but the request
     * is stamped REJECTED, no role changes and the one notification is an ERROR.
     */
    method Reject(header: Option<string>, id: int) returns (r: Reply<RoleRequest>)
      requires Valid()
      modifies storage`roleRequests, storage`users, storage`notifications, storage`nextNotificationId, storage`clock
      ensures Valid()
      ensures old(ReviewGate(header, id)).Refused? ==>
        r == Fail(old(ReviewGate(header, id)).status, old(ReviewGate(header, id)).error) && unchanged(storage)
      ensures old(ReviewGate(header, id)).Open? ==>
        var g := old(ReviewGate(header, id));
        && r == Ok(Reviewed(g.q, Stamp(g.reviewer.id, Rejected, old(storage.clock))))
        && storage.State() == AfterReview(old(storage.State()), g.reviewer.id, g.q, Rejected)
    {
      var g := ReviewGate(header, id);
      if g.Refused? {
        return Fail(g.status, g.error);
      }
      var updated := Resolve(g.reviewer.id, g.q, Rejected);
      r := Ok(updated);
    }

    /**
     * The writes of a review that passed the gate, in the handlers' order:
     * stamp the request, then (approval only) set the requester's role, then
     * notify the requester.
     */
    method Resolve(reviewerId: int, q: RoleRequest, verdict: RequestStatus) returns (updated: RoleRequest)
      requires Valid()
      requires q in storage.roleRequests && q.status == Pending && verdict != Pending
      requires reviewerId in UserIds(storage.users) && q.userId in UserIds(storage.users)
      modifies storage`roleRequests, storage`users, storage`notifications, storage`nextNotificationId, storage`clock
      ensures Valid()
      ensures verdict != Approved ==> storage.users == old(storage.users)
      ensures updated == Reviewed(q, Stamp(reviewerId, verdict, old(storage.clock)))
      ensures storage.State() == AfterReview(old(storage.State()), reviewerId, q, verdict)
    {
      ghost var db0 := storage.State();
      updated := StampNow(reviewerId, q, verdict);
      ghost var db1 := storage.State();
      if verdict == Approved {
        Promote(q);
      }
      ghost var db2 := storage.State();
      Notify(q, verdict);
      ReviewSteps(db0, db1, db2, storage.State(), reviewerId, q, verdict);
    }

    /** `updateRoleRequest(q.id, { status: verdict, reviewedById, reviewedAt: new Date() })`. */
    method StampNow(reviewerId: int, q: RoleRequest, verdict: RequestStatus) returns (updated: RoleRequest)
      requires Valid()
      requires q in storage.roleRequests && q.status == Pending && verdict != Pending
      requires reviewerId in UserIds(storage.users)
      modifies storage`roleRequests, storage`clock
      ensures Valid()
      ensures updated == Reviewed(q, Stamp(reviewerId, verdict, old(storage.clock)))
      ensures storage.State() == Stamped(old(storage.State()), reviewerId, q, verdict)
    {
      var now := storage.Now();
      var review := Stamp(reviewerId, verdict, now);
      ReviewKeepsOnePending(storage.roleRequests, q.id, review);
      var outcome := storage.UpdateRoleRequest(q.id, review);
      updated := outcome.value;
    }

    /** `updateUserRole(q.userId, q.requestedRole)`. */
    method Promote(q: RoleRequest)
      requires Valid()
      requires q.userId in UserIds(storage.users)
      modifies storage`users
      ensures Valid()
      ensures storage.State() == Promoted(old(storage.State()), q)
    {
      SetRoleKeepsIds(storage.users, q.userId, q.requestedRole);
      var _ := storage.UpdateUserRole(q.userId, q.requestedRole);
    }

    /** `createNotification` telling the requester the verdict. */
    method Notify(q: RoleRequest, verdict: RequestStatus)
      requires Valid()
      requires q.userId in UserIds(storage.users)
      modifies storage`notifications, storage`nextNotificationId, storage`clock
      ensures Valid()
      ensures storage.State() == Notified(old(storage.State()), q, verdict)
    {
      var _ := storage.CreateNotification(Verdict(q, verdict));
    }

    // ---- notification routes ----

    /** PUT /api/notifications/:id/read: marks the notification read, whoever it belongs to. */
    method MarkRead(header: Option<string>, id: int) returns (r: Reply<string>)
      requires Valid()
      modifies storage`notifications
      ensures Valid()
      ensures GetSession(header).None? ==> r == Fail(401, AUTH_REQUIRED) && unchanged(storage)
      ensures GetSession(header).Some? ==>
        r == Ok(MARKED_READ) && storage.notifications == Storage.MarkRead(old(storage.notifications), id)
    {
      var me := RequireAuth(header);
      if me.Fail? {
        return Fail(me.status, me.error);
      }
      storage.MarkNotificationAsRead(id);
      r := Ok(MARKED_READ);
    }
  }

  /** `users.map(user => ({ ...user, password: undefined }))`. */
  function Views(us: seq<User>): (r: seq<UserView>)
    ensures |r| == |us|
    ensures forall i :: 0 <= i < |us| ==> r[i] == View(us[i])
  {
    seq(|us|, i requires 0 <= i < |us| => View(us[i]))
  }

  /** A view's creation time, the key GET /api/users is ordered by. */
  function ViewTime(v: UserView): int { v.createdAt }

  /** Dropping the password keeps the rows' order, so newest-first users give newest-first views. */
  lemma ViewsNewestFirst(us: seq<User>)
    requires Descending(us, UserTime)
    ensures Descending(Views(us), ViewTime)
  {
    var vs := Views(us);
    forall i, j | 0 <= i < j < |vs|
      ensures ViewTime(vs[i]) > ViewTime(vs[j])
    {
      assert vs[i] == View(us[i]) && vs[j] == View(us[j]);
    }
  }

  /** The views are exactly the views of the rows. */
  lemma ViewsCover(us: seq<User>)
    ensures forall u :: u in us ==> View(u) in Views(us)
    ensures forall v :: v in Views(us) ==> exists u :: u in us && View(u) == v
  {
    var vs := Views(us);
    forall u | u in us
      ensures View(u) in vs
    {
      var i :| 0 <= i < |us| && us[i] == u;
      assert vs[i] == View(u);
    }
    forall v | v in vs
      ensures exists u :: u in us && View(u) == v
    {
      var i :| 0 <= i < |vs| && vs[i] == v;
      assert us[i] in us;
    }
  }

  /** Appending a user keeps every id a foreign key could hold. */
  lemma UserIdsGrow(users: seq<User>, u: User)
    ensures UserIds(users) <= UserIds(users + [u])
  {
    forall id | id in UserIds(users)
      ensures id in UserIds(users + [u])
    {
      var v :| v in users && v.id == id;
      assert v in users + [u];
    }
  }

  // ---- the effect of a review on the database ----

  /** The fields a review writes: the verdict, the reviewer and the time. */
  function Stamp(reviewerId: int, verdict: RequestStatus, now: nat): RequestUpdate
  {
    RequestUpdate(Some(verdict), Some(Some(reviewerId)), Some(Some(now)))
  }

  /** The request is stamped with the clock's reading, and the clock moves on. */
  function Stamped(db: Db, reviewerId: int, q: RoleRequest, verdict: RequestStatus): Db
  {
    db.(roleRequests := PatchRequest(db.roleRequests, q.id, Stamp(reviewerId, verdict, db.clock)), clock := db.clock + 1)
  }

  /** The requester's role becomes the requested one. */
  function Promoted(db: Db, q: RoleRequest): Db
  {
    db.(users := SetRole(db.users, q.userId, q.requestedRole))
  }

  /** One notification of the verdict is inserted for the requester. */
  function Notified(db: Db, q: RoleRequest, verdict: RequestStatus): Db
  {
    db.(notifications := db.notifications + [NewNotification(Verdict(q, verdict), db.nextNotificationId, db.clock)],
        nextNotificationId := db.nextNotificationId + 1, clock := db.clock + 1)
  }

  /** The database after approve (stamp, promote, notify) or reject (stamp, notify) of `q`. */
  function AfterReview(db: Db, reviewerId: int, q: RoleRequest, verdict: RequestStatus): Db
  {
    var stamped := Stamped(db, reviewerId, q, verdict);
    Notified(if verdict == Approved then Promoted(stamped, q) else stamped, q, verdict)
  }

  /** Stamping, then promoting on an approval, then notifying, is `AfterReview`. */
  lemma ReviewSteps(db0: Db, db1: Db, db2: Db, db3: Db, reviewerId: int, q: RoleRequest, verdict: RequestStatus)
    requires db1 == Stamped(db0, reviewerId, q, verdict)
    requires db2 == if verdict == Approved then Promoted(db1, q) else db1
    requires db3 == Notified(db2, q, verdict)
    ensures db3 == AfterReview(db0, reviewerId, q, verdict)
  {
  }

  /**
   * A review stamps request `q` alone with the verdict, the reviewer and the
   * time, and every request already APPROVED or REJECTED stays as it was.
   */
  lemma ReviewStampsRequest(db: Db, reviewerId: int, q: RoleRequest, verdict: RequestStatus)
    requires Consistent(db) && q in db.roleRequests && q.status == Pending
    ensures var a := AfterReview(db, reviewerId, q, verdict);
      && |a.roleRequests| == |db.roleRequests|
      && (forall i :: 0 <= i < |db.roleRequests| ==>
            a.roleRequests[i] ==
              if db.roleRequests[i].id == q.id
              then db.roleRequests[i].(status := verdict, reviewedById := Some(reviewerId), reviewedAt := Some(db.clock))
              else db.roleRequests[i])
      && ResolvedKept(db.roleRequests, a.roleRequests)
  {
    AscendingDistinct(db.roleRequests, RequestKey);
    forall r | r in db.roleRequests && r.id == q.id
      ensures r.status == Pending
    {
      var i :| 0 <= i < |db.roleRequests| && db.roleRequests[i] == r;
      var j :| 0 <= j < |db.roleRequests| && db.roleRequests[j] == q;
      assert RequestKey(db.roleRequests[i]) == RequestKey(db.roleRequests[j]);
    }
    ReviewKeepsResolved(db.roleRequests, q.id, Stamp(reviewerId, verdict, db.clock));
  }

  /** An approval changes the requester's role and nothing else in `users`; a rejection leaves `users` alone. */
  lemma ReviewSetsRole(db: Db, reviewerId: int, q: RoleRequest, verdict: RequestStatus)
    ensures var a := AfterReview(db, reviewerId, q, verdict);
      && |a.users| == |db.users|
      && (verdict == Approved ==> forall i :: 0 <= i < |db.users| ==>
            a.users[i] == if db.users[i].id == q.userId then db.users[i].(role := q.requestedRole) else db.users[i])
      && (verdict != Approved ==> a.users == db.users)
  {
  }

  /**
   * A review appends exactly one unread notification of the verdict, for
   * the requester: SUCCESS for an approval, ERROR for a rejection. Tasks
   * are not touched.
   */
  lemma ReviewNotifies(db: Db, reviewerId: int, q: RoleRequest, verdict: RequestStatus)
    ensures var a := AfterReview(db, reviewerId, q, verdict);
      && a.notifications == db.notifications +
           [Notification(db.nextNotificationId, q.userId, Verdict(q, verdict).title, Verdict(q, verdict).message,
                         if verdict == Approved then Success else Error, false, db.clock + 1)]
      && a.tasks == db.tasks
  {
  }
}
