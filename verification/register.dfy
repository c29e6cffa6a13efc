/** The registration page: matching passwords sign the new user in with the
    ordinary role; a mismatch is refused before anything else happens. */
module Register {
  import opened Opt
  import opened Auth

  const PasswordMismatch := "Passwords do not match"

  /** The registration decision. `now` is the clock reading that becomes
      the new user's id. */
  function Decide(name: string, email: string, password: string, confirmPassword: string, now: int): (o: Outcome)
    ensures o.SignedIn? <==> password == confirmPassword
    ensures o.SignedIn? ==> o.user == Identity(now, name, email, "user") && o.destination == "/"
    ensures o.Refused? ==> o.message == PasswordMismatch
  {
    if password != confirmPassword then Refused(PasswordMismatch)
    else SignedIn(Identity(now, name, email, "user"), "/")
  }

  /** Registration never produces an administrator. */
  lemma NeverAdmin(name: string, email: string, password: string, confirmPassword: string, now: int)
    ensures var o := Decide(name, email, password, confirmPassword, now);
      o.SignedIn? ==> o.user.role != "admin"
  {
  }

  class RegisterPage {
    var name: string
    var email: string
    var password: string
    var confirmPassword: string
    var error: string
    var loading: bool

    constructor()
      ensures name == "" && email == "" && password == "" && confirmPassword == ""
      ensures error == "" && !loading
    {
      name := "";
      email := "";
      password := "";
      confirmPassword := "";
      error := "";
      loading := false;
    }

    /** A submission: clears the error; on a mismatch shows it and stops,
        otherwise signs the new user in through `auth`. */
    method HandleSubmit(auth: AuthProvider, now: int) returns (navigateTo: string)
      modifies this, auth
      ensures name == old(name) && email == old(email)
      ensures password == old(password) && confirmPassword == old(confirmPassword)
      ensures !loading
      ensures match Decide(name, email, password, confirmPassword, now)
        case SignedIn(u, dest) =>
          && auth.user == Some(u) && auth.cart == old(auth.cart)
          && auth.storage == old(auth.storage)[UserKey := UserValue(u)]
          && error == "" && navigateTo == dest
        case Refused(message) =>
          && auth.user == old(auth.user) && auth.cart == old(auth.cart) && auth.storage == old(auth.storage)
          && error == message && navigateTo == ""
      ensures old(auth.Synced()) ==> auth.Synced()
    {
      loading := true;
      error := "";
      navigateTo := "";
      if password != confirmPassword {
        error := PasswordMismatch;
        loading := false;
        return;
      }
      auth.Login(Identity(now, name, email, "user"));
      loading := false;
      navigateTo := "/";
    }
  }
}
