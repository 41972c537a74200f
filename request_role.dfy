/**
 * The decisions of the role-request page (client/src/pages/request-role.tsx):
 * which roles a user is offered, whether a request is already pending,
 * when the form may be submitted, and what the page shows.
 */
module RequestRole {
  import opened Wrappers
  import opened Schema

  /** The order of the three roles: USER < MANAGER < ADMIN. Other role names have no rank. */
  function Rank(role: string): Option<nat>
  {
    if role == USER then Some(0)
    else if role == MANAGER then Some(1)
    else if role == ADMIN then Some(2)
    else None
  }

  /** `getAvailableRoles`: builds the list the way the page does, with `push`. */
  method AvailableRoles(user: Option<UserView>) returns (roles: seq<string>)
    ensures user.None? ==> roles == []
    ensures user.Some? && user.value.role == USER ==> roles == [MANAGER, ADMIN]
    ensures user.Some? && user.value.role == MANAGER ==> roles == [ADMIN]
    ensures user.Some? && user.value.role != USER && user.value.role != MANAGER ==> roles == []
    ensures user.Some? && Rank(user.value.role).Some? ==>
      forall r :: Rank(r).Some? ==> (r in roles <==> Rank(r).value > Rank(user.value.role).value)
    ensures forall r :: r in roles ==>
      user.Some? && Rank(r).Some? && Rank(user.value.role).Some? && Rank(r).value > Rank(user.value.role).value
  {
    if user.None? {
      return [];
    }
    roles := [];
    if user.value.role == USER {
      roles := roles + [MANAGER, ADMIN];
    } else if user.value.role == MANAGER {
      roles := roles + [ADMIN];
    }
  }

  /** `requests?.some(r => r.status === "PENDING")`: false while the list has not loaded. */
  predicate HasPendingRequest(requests: Option<seq<RoleRequest>>)
  {
    requests.Some? && exists q :: q in requests.value && q.status == Pending
  }

  /** The characters `String.prototype.trim` removes: ECMAScript WhiteSpace and LineTerminator. */
  predicate IsJsSpace(c: char)
  {
    || c == '\t' || c == '\U{B}' || c == '\U{C}' || c == ' ' || c == '\U{A0}' || c == '\U{FEFF}'
    || c == '\n' || c == '\r' || c == '\U{2028}' || c == '\U{2029}'
    || c == '\U{1680}' || ('\U{2000}' <= c <= '\U{200A}') || c == '\U{202F}' || c == '\U{205F}' || c == '\U{3000}'
  }

  /** `s` with its leading whitespace removed. */
  function TrimStart(s: string): (r: string)
    ensures |r| <= |s| && r == s[|s| - |r|..]
    ensures r != "" ==> !IsJsSpace(r[0])
    ensures forall i :: 0 <= i < |s| - |r| ==> IsJsSpace(s[i])
  {
    if s != "" && IsJsSpace(s[0]) then TrimStart(s[1..]) else s
  }

  /** `s` with its trailing whitespace removed. */
  function TrimEnd(s: string): (r: string)
    ensures |r| <= |s| && r == s[..|r|]
    ensures r != "" ==> !IsJsSpace(r[|r| - 1])
    ensures forall i :: |r| <= i < |s| ==> IsJsSpace(s[i])
  {
    if s != "" && IsJsSpace(s[|s| - 1]) then TrimEnd(s[..|s| - 1]) else s
  }

  /** `s.trim()`. */
  function Trim(s: string): string
  {
    TrimEnd(TrimStart(s))
  }

  /** A string trims to nothing exactly when all of it is whitespace. */
  lemma {:induction false} TrimEmpty(s: string)
    ensures Trim(s) == "" <==> forall i :: 0 <= i < |s| ==> IsJsSpace(s[i])
  {
    var front := TrimStart(s);
    if Trim(s) == "" {
      forall i | 0 <= i < |s|
        ensures IsJsSpace(s[i])
      {
        if i >= |s| - |front| {
          assert s[i] == front[i - (|s| - |front|)];
        }
      }
    } else {
      var r := Trim(s);
      assert r[0] == front[0];
      assert !IsJsSpace(front[0]);
      assert s[|s| - |front|] == front[0];
    }
  }

  /** The dialog's form. */
  datatype RequestForm = RequestForm(requestedRole: string, justification: string)

  /** What pressing "Submit" does: an error toast and no request, or POST /api/role-requests with the form. */
  datatype Submission = Blocked(message: string) | Sent(body: RequestForm)

  const FILL_ALL_FIELDS: string := "Please fill in all fields"

  /**
   * `handleSubmitRequest`: blocked when no role is chosen or the
   * justification is blank after trimming; otherwise the form is sent as it
   * stands (the justification untrimmed).
   */
  function HandleSubmit(form: RequestForm): (s: Submission)
    ensures s.Sent? <==> form.requestedRole != "" && exists i :: 0 <= i < |form.justification| && !IsJsSpace(form.justification[i])
    ensures s.Sent? ==> s.body == form
    ensures s.Blocked? ==> s.message == FILL_ALL_FIELDS
  {
    TrimEmpty(form.justification);
    if form.requestedRole == "" || Trim(form.justification) == "" then Blocked(FILL_ALL_FIELDS) else Sent(form)
  }

  /** What the page renders. */
  datatype Page =
    | Nothing          // no user: `return null`
    | MaximumRole      // an ADMIN: "Maximum Role Achieved", no form
    | PendingBadge     // "Request Pending": no way to open the dialog
    | RequestDialog    // the "Request Role Upgrade" button and its dialog

  /**
   * The page for the signed-in user and their requests. The ADMIN check is
   * `hasAnyRole(["ADMIN"])` on the same user.
   */
  function Render(user: Option<UserView>, requests: Option<seq<RoleRequest>>): (p: Page)
    ensures p == Nothing <==> user.None?
    ensures p == MaximumRole <==> user.Some? && user.value.role == ADMIN
    ensures p == PendingBadge <==> user.Some? && user.value.role != ADMIN && HasPendingRequest(requests)
    ensures p == RequestDialog <==> user.Some? && user.value.role != ADMIN && !HasPendingRequest(requests)
  {
    if user.None? then Nothing
    else if user.value.role in [ADMIN] then MaximumRole
    else if HasPendingRequest(requests) then PendingBadge
    else RequestDialog
  }

  /** While a request is pending no dialog is offered, whatever the role. */
  lemma PendingHidesDialog(user: Option<UserView>, requests: Option<seq<RoleRequest>>)
    requires HasPendingRequest(requests)
    ensures Render(user, requests) != RequestDialog
  {
  }

  /** An ADMIN is shown no request form, pending requests or not. */
  lemma AdminSeesNoForm(user: UserView, requests: Option<seq<RoleRequest>>)
    requires user.role == ADMIN
    ensures Render(Some(user), requests) == MaximumRole
  {
  }
}
