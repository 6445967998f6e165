/** The admin guard of app/data/admin/require-admin.ts. */
module AdminGuard {
  import opened JsValues
  import opened Auth

  /** What `requireAdmin` does: it returns the session, or it redirects
      (Next.js `redirect` throws, so the caller does not go on). */
  datatype AdminGate = Redirect(path: string) | Admin(session: Session)

  /** No session goes to "/login"; a session whose role is not exactly
      "admin" goes to "/not-admin"; an admin session is returned unchanged. */
  function RequireAdmin(session: Option<Session>): (g: AdminGate)
    ensures g.Admin? <==> session.Some? && session.value.user.role == Some("admin")
    ensures g.Admin? ==> g.session == session.value
    ensures g == Redirect("/login") <==> session.None?
    ensures g == Redirect("/not-admin") <==> session.Some? && session.value.user.role != Some("admin")
  {
    if session.None? then Redirect("/login")
    else if session.value.user.role != Some("admin") then Redirect("/not-admin")
    else Admin(session.value)
  }
}
