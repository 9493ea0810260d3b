/**
 * Where a role belongs: the route guard (`RoleGuard`) and the routing after a successful
 * sign-in (`Login`'s `submit`).
 */
module Roles {
  import opened Common
  import opened Records

  /** The dashboard route of each known role; None for any other role. */
  function HomeOf(role: Option<string>): (route: Option<string>)
    ensures route.Some? <==> role in {Some("SUPER_ADMIN"), Some("BUSINESS_OWNER"), Some("STAFF")}
  {
    if role == Some("SUPER_ADMIN") then Some("/super")
    else if role == Some("BUSINESS_OWNER") then Some("/owner")
    else if role == Some("STAFF") then Some("/staff")
    else None
  }

  /** What the guard renders: the protected children, or a redirect. */
  datatype GuardOutcome = Children | Redirect(to: string)

  /**
   * `RoleGuard`: no user goes to /login; an allowed role sees the children; any other role is
   * sent to its own dashboard, or to / when the role is unknown.
   */
  function Guard(user: Option<User>, allowedRoles: seq<string>): (out: GuardOutcome)
    ensures user.None? ==> out == Redirect("/login")
    ensures user.Some? ==> (out == Children <==> user.value.role.Some? && user.value.role.value in allowedRoles)
    ensures user.Some? && out.Redirect? ==>
              out.to == (if HomeOf(user.value.role).Some? then HomeOf(user.value.role).value else "/")
  {
    if user.None? then Redirect("/login")
    else if user.value.role.Some? && user.value.role.value in allowedRoles then Children
    else
      var home := HomeOf(user.value.role);
      Redirect(if home.Some? then home.value else "/")
  }

  /** With the default `allowedRoles = []` every signed-in user is redirected, never shown the page. */
  lemma DefaultRolesRedirectEveryone(user: User)
    ensures Guard(Some(user), []).Redirect?
  {
  }

  /** A guard never sends a signed-in user to /login, and never redirects a user with an allowed role. */
  lemma GuardRedirectsOnlyWhenNeeded(user: User, allowedRoles: seq<string>)
    ensures Guard(Some(user), allowedRoles) != Redirect("/login")
    ensures user.role.Some? && user.role.value in allowedRoles ==> Guard(Some(user), allowedRoles) == Children
  {
  }

  /** The sign-in form's own state. */
  class LoginPage {
    var email: string
    var password: string
    var loading: bool

    constructor ()
      ensures email == "" && password == "" && !loading
    {
      email, password, loading := "", "", false;
    }

    /**
     * `submit` once `login` has settled: three independent role tests, each of which may call
     * `navigate`; a failure alerts instead. `finally` ends loading either way.
     */
    method Submit(outcome: ApiResult<User>) returns (navigations: seq<string>, alerted: bool)
      modifies this
      ensures outcome.Fail? ==> navigations == [] && alerted
      ensures outcome.Ok? ==> !alerted
      ensures outcome.Ok? && HomeOf(outcome.value.role).Some? ==> navigations == [HomeOf(outcome.value.role).value]
      ensures outcome.Ok? && HomeOf(outcome.value.role).None? ==> navigations == []
      ensures |navigations| <= 1
      ensures !loading && email == old(email) && password == old(password)
    {
      loading := true;
      navigations, alerted := [], false;
      match outcome {
        case Fail(_) =>
          alerted := true;
        case Ok(u) =>
          if u.role == Some("SUPER_ADMIN") { navigations := navigations + ["/super"]; }
          if u.role == Some("BUSINESS_OWNER") { navigations := navigations + ["/owner"]; }
          if u.role == Some("STAFF") { navigations := navigations + ["/staff"]; }
      }
      loading := false;
    }
  }
}
