/**
 * The session middleware under `src/`: a path under `/(protected)` or `/api`
 * without a session cookie is sent to the login page; everything else proceeds.
 */
module SessionMiddleware {
  import opened Responses

  function Middleware(path: string, hasSession: bool): (d: Decision)
    ensures d == Next || d == Redirect("/login")
    ensures d == Redirect("/login") <==> ("/(protected)" <= path || "/api" <= path) && !hasSession
    ensures hasSession ==> d == Next
  {
    var isProtectedRoute := "/(protected)" <= path;
    var isApiRoute := "/api" <= path;
    if (isProtectedRoute || isApiRoute) && !hasSession then Redirect("/login") else Next
  }
}
