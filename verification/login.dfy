/** The sign-in page: a fixed administrator pair, any other complete pair
    signs in an ordinary user, and an incomplete pair is refused. The
    simulated server delay is not modelled; the submission is one step. */
module Login {
  import opened Opt
  import opened Auth

  const AdminEmail := "zaheerastorian@gmail.com"
  const AdminPassword := "123456"
  const InvalidCredentials := "Invalid credentials"

  /** The credential check. */
  function Decide(email: string, password: string): (o: Outcome)
    ensures o.SignedIn? <==> email != "" && password != ""
    ensures o.SignedIn? ==> o.user.email == email
  {
    if email == AdminEmail && password == AdminPassword then
      SignedIn(Identity(1, "zaheer", email, "admin"), "/admin")
    else if email != "" && password != "" then
      SignedIn(Identity(2, "John Doe", email, "user"), "/")
    else
      Refused(InvalidCredentials)
  }

  /** Only the administrator pair yields the administrator role, and it
      leads to the admin area; every other complete pair is user 2. */
  lemma DecideRoles(email: string, password: string)
    ensures var o := Decide(email, password);
      o.SignedIn? && o.user.role == "admin" <==> email == AdminEmail && password == AdminPassword
    ensures var o := Decide(email, password);
      email == AdminEmail && password == AdminPassword ==> o == SignedIn(Identity(1, "zaheer", AdminEmail, "admin"), "/admin")
    ensures var o := Decide(email, password);
      !(email == AdminEmail && password == AdminPassword) && email != "" && password != "" ==>
        o.user.id == 2 && o.user.role == "user" && o.destination == "/"
    ensures var o := Decide(email, password);
      (email == "" || password == "") ==> o == Refused(InvalidCredentials)
  {
  }

  class LoginPage {
    var email: string
    var password: string
    var error: string
    var loading: bool

    constructor()
      ensures email == "" && password == "" && error == "" && !loading
    {
      email := "";
      password := "";
      error := "";
      loading := false;
    }

    /** A submission: clears the error, then either signs the user in
        through `auth` and names the page to go to, or shows the error.
        Loading is over when it ends. */
    method HandleSubmit(auth: AuthProvider) returns (navigateTo: string)
      modifies this, auth
      ensures email == old(email) && password == old(password)
      ensures !loading
      ensures match Decide(email, password)
        case SignedIn(u, dest) =>
          && auth.user == Some(u) && auth.cart == old(auth.cart)
          && auth.storage == old(auth.storage)[UserKey := UserValue(u)]
          && error == "" && navigateTo == dest
        case Refused(message) =>
          && auth.user == old(auth.user) && auth.cart == old(auth.cart) && auth.storage == old(auth.storage)
          && error == message && navigateTo == ""
      ensures old(auth.Synced()) ==> auth.Synced()
    {
      loading := true;
      error := "";
      navigateTo := "";
      var outcome := Decide(email, password);
      match outcome {
        case SignedIn(u, dest) =>
          auth.Login(u);
          navigateTo := dest;
        case Refused(message) =>
          error := message;
      }
      loading := false;
    }
  }
}
