/** The two answers a Next.js middleware gives here: continue, or redirect. */
module Responses {
  datatype Decision = Next | Redirect(location: string)
}

/**
 * The role-based access middleware at the repository root: a path is protected
 * when some role route flagged `protected` is a prefix of it; a protected path
 * needs a session cookie whose token payload decodes to a role that lists a
 * route prefixing the path.
 */
module AccessMiddleware {
  import opened Wrappers
  import opened Routes
  import opened Responses
  import Seqs

  /** `Object.values(roleRoutes).flat().some(route => route.protected && path.startsWith(route.path))` */
  function IsProtectedRoute(config: Config, path: string): (b: bool)
    ensures b <==> exists rt :: rt in AllRoleRoutes(config.roleRoutes) && rt.protected && rt.path <= path
  {
    var all := AllRoleRoutes(config.roleRoutes);
    Seqs.Any(all, (rt: Route) => rt.protected && rt.path <= path)
  }

  /** `isRouteAllowedForRole`: some route listed under `role` is a prefix of `path`. */
  function IsRouteAllowedForRole(config: Config, path: string, role: Role): (b: bool)
    ensures b <==> exists rt :: rt in RoutesOf(config.roleRoutes, role) && rt.path <= path
    ensures (forall i :: 0 <= i < |config.roleRoutes| ==> config.roleRoutes[i].0 != role) ==> !b
  {
    var routes := RoutesOf(config.roleRoutes, role);
    Seqs.Any(routes, (rt: Route) => rt.path <= path)
  }

  /**
   * `middleware`. `session` is the `session` cookie's value when the cookie is
   * present; `decode` stands for reading the role out of the token's payload,
   * and gives None where that parsing throws.
   */
  function Middleware(config: Config, path: string, session: Option<string>,
                      decode: string -> Option<Role>): (d: Decision)
    ensures d == Next || d == Redirect("/login") || d == Redirect("/")
    ensures d == Next <==>
      !IsProtectedRoute(config, path) ||
      (session.Some? && decode(session.value).Some? &&
       IsRouteAllowedForRole(config, path, decode(session.value).value))
    ensures d == Redirect("/login") <==>
      IsProtectedRoute(config, path) && (session.None? || decode(session.value).None?)
    ensures d == Redirect("/") <==>
      IsProtectedRoute(config, path) && session.Some? && decode(session.value).Some? &&
      !IsRouteAllowedForRole(config, path, decode(session.value).value)
  {
    if !IsProtectedRoute(config, path) then Next
    else if session.None? then Redirect("/login")
    else match decode(session.value)
      case None => Redirect("/login")
      case Some(role) =>
        if !IsRouteAllowedForRole(config, path, role) then Redirect("/") else Next
  }
}
