/** The admin area's gate and navigation (src/components/admin/AdminLayout.tsx).
    The identity provider's state is taken as inputs: whether it has loaded,
    whether someone is signed in, and that user's role, if any. */
module AdminLayout {
  import opened Options

  /** `user?.publicMetadata?.role === 'admin'`. */
  predicate IsAdmin(role: Option<string>)
  {
    role == Some("admin")
  }

  datatype NavItem = NavItem(name: string, href: string, current: bool)

  /** What the layout renders. */
  datatype Outcome = Spinner | RedirectToLogin | RedirectToHome | Layout(navigation: seq<NavItem>)

  /** The four navigation links. "Dashboard" is current only on `/admin`
      itself; the others whenever the path starts with their link. */
  function Navigation(pathname: string): (nav: seq<NavItem>)
    ensures |nav| == 4
    ensures nav[0].current <==> pathname == "/admin"
    ensures nav[1].current <==> "/admin/products" <= pathname
    ensures nav[2].current <==> "/admin/orders" <= pathname
    ensures nav[3].current <==> "/admin/customers" <= pathname
  {
    [
      NavItem("Dashboard", "/admin", pathname == "/admin"),
      NavItem("Products", "/admin/products", "/admin/products" <= pathname),
      NavItem("Orders", "/admin/orders", "/admin/orders" <= pathname),
      NavItem("Customers", "/admin/customers", "/admin/customers" <= pathname)
    ]
  }

  /** No path makes two navigation items current. */
  lemma AtMostOneCurrent(pathname: string, i: int, j: int)
    requires 0 <= i < j < 4
    ensures !(Navigation(pathname)[i].current && Navigation(pathname)[j].current)
  {
    var nav := Navigation(pathname);
    if i > 0 && nav[i].current {
      assert |pathname| > 7 && pathname[7] == nav[i].href[7];
    }
    if nav[j].current {
      assert |pathname| > 7 && pathname[7] == nav[j].href[7];
    }
  }

  /** The layout's decision: a spinner until the identity provider has
      loaded, then the login page for a visitor, the home page for a
      signed-in user who is not an admin, and the admin layout otherwise. */
  function Gate(isLoaded: bool, isSignedIn: bool, role: Option<string>, pathname: string): (o: Outcome)
    ensures o == Spinner <==> !isLoaded
    ensures o == RedirectToLogin <==> isLoaded && !isSignedIn
    ensures o == RedirectToHome <==> isLoaded && isSignedIn && !IsAdmin(role)
    ensures o.Layout? <==> isLoaded && isSignedIn && IsAdmin(role)
    ensures o.Layout? ==> o.navigation == Navigation(pathname)
  {
    if !isLoaded then Spinner
    else if !isSignedIn then RedirectToLogin
    else if !IsAdmin(role) then RedirectToHome
    else Layout(Navigation(pathname))
  }

  /** The condition of the "Access Denied" toast. */
  predicate ShowsAccessDenied(isLoaded: bool, isSignedIn: bool, role: Option<string>)
  {
    isLoaded && isSignedIn && !IsAdmin(role)
  }

  /** The toast fires exactly when the layout sends the user home. */
  lemma ToastExactlyOnHomeRedirect(isLoaded: bool, isSignedIn: bool, role: Option<string>, pathname: string)
    ensures ShowsAccessDenied(isLoaded, isSignedIn, role) <==> Gate(isLoaded, isSignedIn, role, pathname) == RedirectToHome
  {
  }
}
