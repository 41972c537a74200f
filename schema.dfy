/**
 * The four tables of the application, the defaults their columns take on
 * insert, the shapes an insert may supply, and the login and registration
 * validators.
 */
module Schema {
  import opened Wrappers

  /** Role names. The `role` column is free text; these are the values the code gives meaning to. */
  const USER: string := "USER"
  const MANAGER: string := "MANAGER"
  const ADMIN: string := "ADMIN"

  /** Task status and priority names (also free-text columns). */
  const TODO: string := "TODO"
  const IN_PROGRESS: string := "IN_PROGRESS"
  const COMPLETED: string := "COMPLETED"
  const LOW: string := "LOW"
  const MEDIUM: string := "MEDIUM"
  const HIGH: string := "HIGH"

  /** A role request's status; only the server ever writes it. */
  datatype RequestStatus = Pending | Approved | Rejected

  /** A notification's `type` column; only the server ever writes it. */
  datatype NotificationKind = Info | Success | Warning | Error

  /** A row of `users`. `password` holds the hash, never the plain text. */
  datatype User = User(id: nat, username: string, email: string, password: string, role: string, createdAt: nat)

  /** A row of `tasks`. Foreign keys are plain integers; the storage invariant says they name users. */
  datatype Task = Task(
    id: nat,
    title: string,
    description: Option<string>,
    status: string,
    priority: string,
    assignedToId: Option<int>,
    createdById: int,
    dueDate: Option<nat>,
    createdAt: nat,
    updatedAt: nat)

  /** A row of `role_requests`. */
  datatype RoleRequest = RoleRequest(
    id: nat,
    userId: int,
    requestedRole: string,
    currentRole: string,
    justification: string,
    status: RequestStatus,
    reviewedById: Option<int>,
    reviewedAt: Option<nat>,
    createdAt: nat)

  /** A row of `notifications`; `kind` is the `type` column. */
  datatype Notification = Notification(
    id: nat,
    userId: int,
    title: string,
    message: string,
    kind: NotificationKind,
    read: bool,
    createdAt: nat)

  /** A user as every response shows it: the row without its password. */
  datatype UserView = UserView(id: nat, username: string, email: string, role: string, createdAt: nat)

  function View(u: User): UserView
  {
    UserView(u.id, u.username, u.email, u.role, u.createdAt)
  }

  /** `insertUserSchema`: everything but `id` and `createdAt`; `role` may be left out. */
  datatype InsertUser = InsertUser(username: string, email: string, password: string, role: Option<string>)

  /** `insertTaskSchema`: everything but `id`, `createdAt` and `updatedAt`; `createdById` is required. */
  datatype InsertTask = InsertTask(
    title: string,
    description: Option<string>,
    status: Option<string>,
    priority: Option<string>,
    assignedToId: Option<int>,
    createdById: int,
    dueDate: Option<nat>)

  /** `insertRoleRequestSchema`: no `id`, `createdAt`, `status`, `reviewedById` or `reviewedAt`. */
  datatype InsertRoleRequest = InsertRoleRequest(userId: int, requestedRole: string, currentRole: string, justification: string)

  /** `insertNotificationSchema`: no `id` or `createdAt`; `type` and `read` may be left out. */
  datatype InsertNotification = InsertNotification(
    userId: int,
    title: string,
    message: string,
    kind: Option<NotificationKind>,
    read: Option<bool>)

  /** The user row an insert produces: the serial id, `createdAt = now`, and role USER unless one is given. */
  function NewUser(ins: InsertUser, id: nat, now: nat): (u: User)
    ensures ins.role.None? ==> u.role == USER
    ensures ins.role.Some? ==> u.role == ins.role.value
    ensures u.id == id && u.createdAt == now
    ensures u.username == ins.username && u.email == ins.email && u.password == ins.password
  {
    User(id, ins.username, ins.email, ins.password, ins.role.GetOr(USER), now)
  }

  /**
   * The task row an insert produces: status TODO and priority MEDIUM unless given;
   * the id and both timestamps come from the database and the clock, never from the insert.
   */
  function NewTask(ins: InsertTask, id: nat, now: nat): (t: Task)
    ensures ins.status.None? ==> t.status == TODO
    ensures ins.priority.None? ==> t.priority == MEDIUM
    ensures ins.status.Some? ==> t.status == ins.status.value
    ensures ins.priority.Some? ==> t.priority == ins.priority.value
    ensures t.id == id && t.createdAt == now && t.updatedAt == now
    ensures t.createdById == ins.createdById && t.assignedToId == ins.assignedToId
    ensures t.title == ins.title && t.description == ins.description && t.dueDate == ins.dueDate
  {
    Task(id, ins.title, ins.description, ins.status.GetOr(TODO), ins.priority.GetOr(MEDIUM),
         ins.assignedToId, ins.createdById, ins.dueDate, now, now)
  }

  /** Every new role request is PENDING and unreviewed: the insert cannot say otherwise. */
  function NewRoleRequest(ins: InsertRoleRequest, id: nat, now: nat): (r: RoleRequest)
    ensures r.status == Pending && r.reviewedById.None? && r.reviewedAt.None?
    ensures r.id == id && r.createdAt == now
    ensures r.userId == ins.userId && r.requestedRole == ins.requestedRole
    ensures r.currentRole == ins.currentRole && r.justification == ins.justification
  {
    RoleRequest(id, ins.userId, ins.requestedRole, ins.currentRole, ins.justification, Pending, None, None, now)
  }

  /** A new notification is of type INFO and unread unless the insert says otherwise. */
  function NewNotification(ins: InsertNotification, id: nat, now: nat): (n: Notification)
    ensures ins.kind.None? ==> n.kind == Info
    ensures ins.read.None? ==> !n.read
    ensures ins.kind.Some? ==> n.kind == ins.kind.value
    ensures ins.read.Some? ==> n.read == ins.read.value
    ensures n.id == id && n.createdAt == now
    ensures n.userId == ins.userId && n.title == ins.title && n.message == ins.message
  {
    Notification(id, ins.userId, ins.title, ins.message, ins.kind.GetOr(Info), ins.read.GetOr(false), now)
  }

  /** Whether some request in `rs` is still PENDING (`rs.some(r => r.status === "PENDING")`). */
  predicate AnyPending(rs: seq<RoleRequest>)
  {
    exists r :: r in rs && r.status == Pending
  }

  /** The body of a login request, as `loginSchema` reads it. */
  datatype LoginBody = LoginBody(username: string, password: string)

  /** The body of a registration (and of the admin bootstrap), as `registerSchema` reads it. */
  datatype RegisterBody = RegisterBody(username: string, email: string, password: string)

  /**
   * JavaScript's `length`: UTF-16 code units, so a character outside the
   * Basic Multilingual Plane counts twice. zod's `min` compares this length.
   */
  function Utf16Length(s: string): (n: nat)
    ensures |s| <= n <= 2 * |s|
    ensures n == 0 <==> s == []
  {
    if s == [] then 0
    else (if s[0] as int > 0xFFFF then 2 else 1) + Utf16Length(s[1..])
  }

  /** `loginSchema`: both fields at least one character long. */
  predicate LoginValid(b: LoginBody)
    ensures LoginValid(b) <==> b.username != [] && b.password != []
  {
    Utf16Length(b.username) >= 1 && Utf16Length(b.password) >= 1
  }

  /**
   * `registerSchema`: a username of at least 3 and a password of at least 6
   * characters (UTF-16 code units), and an email that passes zod's check.
   */
  predicate RegisterValid(b: RegisterBody, isEmail: string -> bool)
    ensures RegisterValid(b, isEmail) ==> isEmail(b.email)
    ensures RegisterValid(b, isEmail) ==> 2 * |b.username| >= 3 && 2 * |b.password| >= 6
    ensures |b.username| >= 3 && |b.password| >= 6 && isEmail(b.email) ==> RegisterValid(b, isEmail)
    ensures RegisterValid(b, isEmail) ==> LoginValid(LoginBody(b.username, b.password))
  {
    Utf16Length(b.username) >= 3 && isEmail(b.email) && Utf16Length(b.password) >= 6
  }
}
