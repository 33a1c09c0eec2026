/** The access rule applied around every endpoint that declares a required role. There are
    two roles; an administrator may do everything a user may. */
module AuthInterceptor {
  import opened Common

  datatype Role = UserRole | AdminRole

  /** The stored value of each role. */
  function RoleValue(r: Role): string {
    match r
    case UserRole => "user"
    case AdminRole => "admin"
  }

  /** `UserRoleEnum.getEnumByValue`: the role whose value is exactly `value`; none for null
      or any other text. */
  function RoleOf(value: Option<string>): (r: Option<Role>)
    ensures r.Some? <==> value.Some? && (value.value == "user" || value.value == "admin")
    ensures r.Some? ==> RoleValue(r.value) == value.value
  {
    if value == Some("user") then Some(UserRole)
    else if value == Some("admin") then Some(AdminRole)
    else None
  }

  /** What happens to the annotated call. */
  datatype Decision = Proceed | Deny(code: ErrorCode)

  /** `doInterceptor`. `login` is what resolving the current user gives: the user's stored
      role, or the exception raised when nobody is logged in. */
  function Intercept(mustRole: Option<string>, login: Result<Option<string>>): (d: Decision)
    ensures login.Raised? ==> d == Deny(login.code)
    ensures d.Deny? && login.Ok? ==> d.code == NoAuthError
  {
    if login.Raised? then Deny(login.code)
    else
      var required := RoleOf(mustRole);
      if required.None? then Proceed
      else
        var held := RoleOf(login.value);
        if held.None? then Deny(NoAuthError)
        else if required == Some(AdminRole) && held != Some(AdminRole) then Deny(NoAuthError)
        else Proceed
  }

  /** The rank of a role; a role grants everything a lower rank grants. */
  function Rank(r: Role): nat {
    if r == AdminRole then 1 else 0
  }

  /** The reference rule: nothing is required, or the user holds a known role at least as
      high as the required one. */
  predicate Permitted(required: Option<Role>, held: Option<Role>) {
    required.None? || (held.Some? && Rank(held.value) >= Rank(required.value))
  }

  /** The call proceeds exactly when the user could be resolved and the reference rule
      permits it; every refusal of a resolved user is `NO_AUTH_ERROR`. */
  lemma InterceptMeaning(mustRole: Option<string>, login: Result<Option<string>>)
    ensures Intercept(mustRole, login) == Proceed
            <==> login.Ok? && Permitted(RoleOf(mustRole), RoleOf(login.value))
  {
  }

  /** The user is resolved first: without a login even an endpoint with no known required
      role refuses, with the login's own error. */
  lemma LoginResolvedFirst(mustRole: Option<string>, code: ErrorCode)
    ensures Intercept(mustRole, Raised(code)) == Deny(code)
  {
  }

  /** An endpoint whose required role is unknown admits every logged-in user, whatever
      their role. */
  lemma UnknownRequirementAdmitsAll(mustRole: Option<string>, userRole: Option<string>)
    requires RoleOf(mustRole).None?
    ensures Intercept(mustRole, Ok(userRole)) == Proceed
  {
  }

  /** A user whose stored role is unknown is refused wherever a role is required. */
  lemma UnknownRoleRefused(mustRole: Option<string>, userRole: Option<string>)
    requires RoleOf(mustRole).Some? && RoleOf(userRole).None?
    ensures Intercept(mustRole, Ok(userRole)) == Deny(NoAuthError)
  {
  }

  /** A "user" endpoint admits users and administrators; an "admin" endpoint admits
      administrators only. */
  lemma TwoRoles(userRole: Option<string>)
    ensures Intercept(Some("user"), Ok(userRole)) == Proceed <==> userRole == Some("user") || userRole == Some("admin")
    ensures Intercept(Some("admin"), Ok(userRole)) == Proceed <==> userRole == Some("admin")
  {
  }

  /** Whoever may call an endpoint requiring `strong` may call every endpoint requiring a
      role of lower or equal rank. */
  lemma AccessIsMonotone(strong: Option<string>, weak: Option<string>, login: Result<Option<string>>)
    requires RoleOf(strong).Some? && RoleOf(weak).Some?
    requires Rank(RoleOf(weak).value) <= Rank(RoleOf(strong).value)
    requires Intercept(strong, login) == Proceed
    ensures Intercept(weak, login) == Proceed
  {
    InterceptMeaning(strong, login);
    InterceptMeaning(weak, login);
  }
}
