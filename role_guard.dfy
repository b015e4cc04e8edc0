/**
 * The role guard components: children for an allowed role, the fallback
 * (nothing by default) for any other.
 */
module RoleGuard {
  import opened Wrappers

  datatype Role = Admin | Standard

  /** What a guard renders; `C` is the children's content and the fallback's. */
  datatype Rendered<C> = Children(children: C) | Fallback(fallback: Option<C>)

  /** `RoleGuard`: the fallback is None when the prop is not given. */
  function Guard<C>(children: C, allowedRoles: seq<Role>, userRole: Role, fallback: Option<C>): (r: Rendered<C>)
    ensures r.Children? <==> userRole in allowedRoles
    ensures r.Children? ==> r.children == children
    ensures r.Fallback? ==> r.fallback == fallback
  {
    if userRole !in allowedRoles then Fallback(fallback) else Children(children)
  }

  /** `AdminOnly`: the guard with the admin role alone. */
  function AdminOnly<C>(children: C, userRole: Role, fallback: Option<C>): (r: Rendered<C>)
    ensures r.Children? <==> userRole == Admin
    ensures r.Children? ==> r.children == children
    ensures r.Fallback? ==> r.fallback == fallback
  {
    Guard(children, [Admin], userRole, fallback)
  }

  /** Allowing more roles never hides children that were shown. */
  lemma GuardMonotonic<C>(children: C, allowed: seq<Role>, more: seq<Role>, userRole: Role, fallback: Option<C>)
    requires forall role :: role in allowed ==> role in more
    ensures Guard(children, allowed, userRole, fallback).Children? ==> Guard(children, more, userRole, fallback).Children?
  {
  }

  /** The order of the allowed roles and repeated entries do not matter. */
  lemma GuardDependsOnRoleSet<C>(children: C, a: seq<Role>, b: seq<Role>, userRole: Role, fallback: Option<C>)
    requires forall role :: role in a <==> role in b
    ensures Guard(children, a, userRole, fallback) == Guard(children, b, userRole, fallback)
  {
  }
}
