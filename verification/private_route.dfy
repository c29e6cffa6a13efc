/** The guard around protected pages: visitors must sign in, and pages
    marked for administrators turn every other user away. */
module PrivateRoute {
  import opened Opt
  import opened Auth
  import Login
  import Register

  datatype Decision = RedirectTo(path: string) | RenderChildren

  /** The guard's decision for the current user. */
  function Access(user: Option<Identity>, adminOnly: bool): (d: Decision)
    ensures user.None? ==> d == RedirectTo("/login")
    ensures user.Some? && adminOnly && user.value.role != "admin" ==> d == RedirectTo("/")
    ensures user.Some? && (!adminOnly || user.value.role == "admin") ==> d == RenderChildren
  {
    if user.None? then RedirectTo("/login")
    else if adminOnly && user.value.role != "admin" then RedirectTo("/")
    else RenderChildren
  }

  /** The guard renders the page exactly for a signed-in user who is
      allowed there. */
  lemma AccessGranted(user: Option<Identity>, adminOnly: bool)
    ensures Access(user, adminOnly) == RenderChildren <==>
      user.Some? && (adminOnly ==> user.value.role == "admin")
  {
  }

  /** A user who signed up can open ordinary protected pages but never the
      admin area; the administrator pair opens both. */
  lemma RegisteredUsersStayOut(name: string, email: string, password: string, now: int)
    ensures var o := Register.Decide(name, email, password, password, now);
      Access(Some(o.user), true) == RedirectTo("/") && Access(Some(o.user), false) == RenderChildren
    ensures var o := Login.Decide(Login.AdminEmail, Login.AdminPassword);
      Access(Some(o.user), true) == RenderChildren
  {
    Register.NeverAdmin(name, email, password, password, now);
    Login.DecideRoles(Login.AdminEmail, Login.AdminPassword);
  }
}
