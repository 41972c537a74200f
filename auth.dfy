/**
 * The browser's authentication service (frontend/src/lib/auth.ts): the
 * token and the user it keeps, and the role predicates the pages ask.
 * Each server round trip is a parameter standing for what the server
 * answered; the methods also return the requests they sent. localStorage
 * writes are not modelled.
 */
module Auth {
  import opened Wrappers
  import opened Schema
  import Routes

  /** A request the service sends. */
  datatype Call = LogoutCall | MeCall

  /** What `apiRequest('POST', '/api/auth/login')` gave: the JSON body, or a rejection (any non-OK status). */
  datatype LoginAnswer = LoggedIn(reply: Routes.LoginReply) | LoginRejected

  /** What `fetch('/api/auth/me')` gave: an OK body, a non-OK status, or a thrown error. */
  datatype MeAnswer = MeOk(user: UserView) | MeNotOk | MeThrew

  /** JavaScript truthiness of `string | null`: present and not empty. */
  predicate Truthy(s: Option<string>)
  {
    s.Some? && s.value != ""
  }

  /** The header `getCurrentUser` sends: `Bearer ${token}`. */
  function AuthHeader(token: string): string
  {
    Routes.BEARER + token
  }

  /** The server reads back exactly the token the client put in its header. */
  lemma HeaderCarriesToken(token: string)
    requires token != ""
    ensures Routes.BearerToken(Some(AuthHeader(token))) == Some(token)
  {
    Routes.BearerRoundTrip(token);
  }

  class AuthService {
    var token: Option<string>
    var user: Option<UserView>

    /** What the constructor reads from localStorage (a user that does not parse is absent). */
    constructor (storedToken: Option<string>, storedUser: Option<UserView>)
      ensures token == storedToken && user == storedUser
    {
      token := storedToken;
      user := storedUser;
    }

    /** `isAuthenticated`: `!!this.token && !!this.user`. */
    predicate IsAuthenticated()
      reads this
    {
      Truthy(token) && user.Some?
    }

    /** `hasRole(role)`: `this.user?.role === role`. */
    predicate HasRole(role: string)
      reads this
    {
      user.Some? && user.value.role == role
    }

    /** `hasAnyRole(roles)`: `!!this.user && roles.includes(this.user.role)`. */
    predicate HasAnyRole(roles: seq<string>)
      reads this
    {
      user.Some? && user.value.role in roles
    }

    /**
     * `login`: the server's token and user are stored as given. A rejected
     * request throws before either field is written, so both stay as they were.
     */
    method Login(answer: LoginAnswer) returns (r: Option<Routes.LoginReply>)
      modifies this
      ensures answer.LoginRejected? ==> r.None? && token == old(token) && user == old(user)
      ensures answer.LoggedIn? ==>
        && r == Some(answer.reply)
        && token == Some(answer.reply.token) && user == Some(answer.reply.user)
      ensures answer.LoggedIn? && answer.reply.token != "" ==> IsAuthenticated()
    {
      if answer.LoginRejected? {
        return None;
      }
      token := Some(answer.reply.token);
      user := Some(answer.reply.user);
      r := Some(answer.reply);
    }

    /**
     * The part of `logout` that runs before its first `await`. With a truthy
     * token it only sends POST /api/auth/logout and both fields stay as they
     * are until the request settles; without one nothing is awaited and the
     * fields are cleared at once.
     */
    method BeginLogout() returns (calls: seq<Call>)
      modifies this
      ensures calls == if Truthy(old(token)) then [LogoutCall] else []
      ensures Truthy(old(token)) ==> token == old(token) && user == old(user)
      ensures !Truthy(old(token)) ==> token.None? && user.None?
    {
      if Truthy(token) {
        calls := [LogoutCall];
      } else {
        calls := [];
        FinishLogout();
      }
    }

    /** The rest of `logout`, once the request has settled whatever it answered: both fields become null. */
    method FinishLogout()
      modifies this
      ensures token.None? && user.None?
      ensures !IsAuthenticated() && forall roles :: !HasAnyRole(roles)
    {
      token := None;
      user := None;
    }

    /**
     * `await logout()`: the server is told only when there is a truthy token,
     * and whatever it answers is ignored; both fields end up null.
     */
    method Logout() returns (calls: seq<Call>)
      modifies this
      ensures calls == if Truthy(old(token)) then [LogoutCall] else []
      ensures token.None? && user.None?
      ensures !IsAuthenticated() && forall roles :: !HasAnyRole(roles)
    {
      calls := BeginLogout();
      FinishLogout();
    }

    /**
     * `getCurrentUser`: without a truthy token, null and no request. With
     * one, GET /api/auth/me: an OK answer replaces the user; anything else
     * starts a logout without awaiting it and gives null. Until that logout
     * settles (`FinishLogout`) the token and the user are still held, so
     * `isAuthenticated` keeps its old answer.
     */
    method GetCurrentUser(answer: MeAnswer) returns (r: Option<UserView>, calls: seq<Call>)
      modifies this
      ensures !Truthy(old(token)) ==> r.None? && calls == [] && token == old(token) && user == old(user)
      ensures Truthy(old(token)) && answer.MeOk? ==>
        r == Some(answer.user) && user == r && token == old(token) && calls == [MeCall] && IsAuthenticated()
      ensures Truthy(old(token)) && !answer.MeOk? ==>
        && r.None? && calls == [MeCall, LogoutCall]
        && token == old(token) && user == old(user) && IsAuthenticated() == old(IsAuthenticated())
    {
      if !Truthy(token) {
        return None, [];
      }
      match answer
      case MeOk(u) =>
        user := Some(u);
        r, calls := user, [MeCall];
      case _ =>
        var sent := BeginLogout();
        r, calls := None, [MeCall] + sent;
    }
  }

  /** `hasRole(r)` is `hasAnyRole([r])`. */
  lemma HasRoleIsAnyOfOne(a: AuthService, role: string)
    ensures a.HasRole(role) <==> a.HasAnyRole([role])
  {
  }

  /** Without a user no role check passes; with one, `hasAnyRole` asks whether its role is listed. */
  lemma RolesNeedUser(a: AuthService, roles: seq<string>)
    ensures a.user.None? ==> !a.HasAnyRole(roles) && forall r :: !a.HasRole(r)
    ensures a.user.Some? ==> (a.HasAnyRole(roles) <==> a.user.value.role in roles)
  {
  }

  /** Listing more roles never turns a passing check into a failing one. */
  lemma AnyRoleGrows(a: AuthService, roles: seq<string>, more: seq<string>)
    requires forall r :: r in roles ==> r in more
    ensures a.HasAnyRole(roles) ==> a.HasAnyRole(more)
  {
  }

  /** `isAuthenticated` holds exactly when the token is truthy and a user is present. */
  lemma AuthenticatedMeansBoth(a: AuthService)
    ensures a.IsAuthenticated() <==> a.token.Some? && a.token.value != "" && a.user.Some?
  {
  }
}
