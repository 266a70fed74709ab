/** The route guard that admits only users whose role is in the route's list. */
module RoleMiddleware {

  import opened Wrappers
  import opened Auth

  /** The role as stored in the users table. */
  function RoleName(r: Role): string
  {
    match r
    case Admin => "Admin"
    case Moderator => "Moderator"
    case Worker => "Worker"
    case Customer => "Customer"
  }

  /** Distinct roles are stored as distinct strings, so the string test decides the role. */
  lemma RoleNameInjective(a: Role, b: Role)
    ensures RoleName(a) == RoleName(b) ==> a == b
  {
  }

  datatype Decision = Unauthenticated | Forbidden | Pass(user: User)

  function StatusCode(d: Decision): int
  {
    match d
    case Unauthenticated => 401
    case Forbidden => 403
    case Pass(_) => 200
  }

  /**
   * `handle`: 401 without a user, 403 when the user's role is not named
   * among the route's roles (compared as strings), otherwise the request
   * passes with the same user.
   */
  function Handle(user: Option<User>, roles: seq<string>): (d: Decision)
    ensures user.None? <==> d == Unauthenticated
    ensures user.Some? ==> (d == Pass(user.value) <==> RoleName(user.value.role) in roles)
    ensures user.Some? ==> (d == Forbidden <==> RoleName(user.value.role) !in roles)
  {
    if user.None? then Unauthenticated
    else if RoleName(user.value.role) !in roles then Forbidden
    else Pass(user.value)
  }

  /** An empty role list lets no authenticated user through. */
  lemma EmptyRolesDenyAll(u: User)
    ensures Handle(Some(u), []) == Forbidden
  {
  }

  /** Naming more roles never turns a passing user away. */
  lemma MoreRolesAdmitMore(user: Option<User>, roles: seq<string>, more: seq<string>)
    requires Handle(user, roles).Pass?
    ensures Handle(user, roles + more) == Handle(user, roles)
  {
  }

  /** A role list that names every role admits every authenticated user; one naming no role, none. */
  lemma RoleStringsDecide(u: User, roles: seq<string>)
    ensures (forall r: Role :: RoleName(r) in roles) ==> Handle(Some(u), roles).Pass?
    ensures (forall r: Role :: RoleName(r) !in roles) ==> Handle(Some(u), roles) == Forbidden
  {
  }
}
