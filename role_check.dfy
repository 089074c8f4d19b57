/** The `checkRole(...allowedRoles)` middleware. */
module RoleCheck {
  import opened Common

  const NOT_AUTHENTICATED: string := "Utilisateur non authentifié"
  const FORBIDDEN: string := "Accès refusé. Vous n'avez pas les permissions nécessaires."

  /** The decision for a request whose `req.user` is `user` (none when no
      token was verified; an empty role is a missing one). The role is
      compared with each allowed role by exact string equality. */
  function CheckRole(allowed: seq<string>, user: Option<User>): (d: Decision)
    ensures d == Next <==> user.Some? && user.value.role != "" && user.value.role in allowed
    ensures (user.None? || user.value.role == "") ==> d == Reject(401, NOT_AUTHENTICATED)
    ensures user.Some? && user.value.role != "" && user.value.role !in allowed ==> d == Reject(403, FORBIDDEN)
  {
    if user.None? || user.value.role == "" then Reject(401, NOT_AUTHENTICATED)
    else if user.value.role !in allowed then Reject(403, FORBIDDEN)
    else Next
  }

  /** Allowing more roles never turns a passing request away, and never
      changes a 401 into anything else. */
  lemma CheckRoleMonotone(allowed: seq<string>, more: seq<string>, user: Option<User>)
    requires forall r :: r in allowed ==> r in more
    ensures CheckRole(allowed, user) == Next ==> CheckRole(more, user) == Next
    ensures CheckRole(allowed, user).Reject? && CheckRole(allowed, user).status == 401 ==>
              CheckRole(more, user) == CheckRole(allowed, user)
  {
  }
}
