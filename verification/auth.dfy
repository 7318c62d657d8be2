/** The demo sign-in state (src/contexts/AuthContext.tsx): the signed-in user,
    the loading flag and the last error, with login, register and logout.
    The simulated one-second wait is dropped, so each call is observed in the
    state it ends in. */
module Auth {
  import opened Options

  datatype User = User(id: string, name: string, email: string, avatar: Option<string>)

  /** The user the demo credentials sign in. */
  const MockUser: User := User("1", "Demo User", "demo@example.com", Some("https://i.pravatar.cc/150?img=8"))

  class AuthStore {
    var user: Option<User>
    var loading: bool
    var error: Option<string>

    constructor()
      ensures user == None && !loading && error == None
    {
      user := None;
      loading := false;
      error := None;
    }

    /** `isAuthenticated: !!user`. */
    function IsAuthenticated(): (b: bool)
      reads this
      ensures b <==> user.Some?
    {
      user.Some?
    }

    /** `login(email, password)`: the demo credentials sign in the mock user;
        anything else leaves the user as it was, records the error and
        fails. Either way loading ends false. */
    method Login(email: string, password: string) returns (ok: bool)
      modifies this`user, this`loading, this`error
      ensures ok <==> email == "demo@example.com" && password == "password"
      ensures ok ==> user == Some(MockUser) && error == None
      ensures !ok ==> user == old(user) && error == Some("Invalid credentials")
      ensures !loading
    {
      loading := true;
      error := None;
      if email == "demo@example.com" && password == "password" {
        user := Some(MockUser);
        ok := true;
      } else {
        error := Some("Invalid credentials");
        ok := false;
      }
      loading := false;
    }

    /** `register(name, email, password)`: signs in a new user with id "2"
        and the given name and e-mail, whatever they are. */
    method Register(name: string, email: string, password: string)
      modifies this`user, this`loading, this`error
      ensures user == Some(User("2", name, email, None))
      ensures error == None && !loading
    {
      loading := true;
      error := None;
      user := Some(User("2", name, email, None));
      loading := false;
    }

    method Logout()
      modifies this`user
      ensures user == None
    {
      user := None;
    }
  }

  /** From a signed-in session, a login with anything but the demo
      credentials fails and keeps the session: the same user is still signed
      in afterwards (`signedInBetween`) and the error is recorded. A logout
      then signs the user out; it clears only the user, so the error of the
      failed login stays. */
  method FailedLoginThenLogout(store: AuthStore, email: string, password: string) returns (ok: bool, signedInBetween: bool)
    requires store.IsAuthenticated()
    requires !(email == "demo@example.com" && password == "password")
    modifies store
    ensures !ok && signedInBetween
    ensures !store.IsAuthenticated() && store.user == None
    ensures store.error == Some("Invalid credentials") && !store.loading
  {
    ok := store.Login(email, password);
    signedInBetween := store.IsAuthenticated();
    store.Logout();
  }
}
