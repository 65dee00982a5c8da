/** The route guard of the React application and the landing page each user
    type is sent to. Rendering is reduced to a decision; the current location
    is the pathname handed over as the login page's return address. */
module ProtectedRoute {
  import opened Common

  /** The landing page for a user type: farmers get their dashboard, every
      other value (consumer, missing, anything else) the home page. */
  function DashboardFor(userType: Option<string>): (r: string)
    ensures r == "/farmer/dashboard" <==> userType == Some("farmer")
    ensures r != "/farmer/dashboard" ==> r == "/"
  {
    if userType == Some("farmer") then "/farmer/dashboard" else "/"
  }

  /** The signed-in user as the guard sees it; `userType` is None when the
      field is missing. */
  datatype AuthUser = AuthUser(userType: Option<string>)

  /** The auth slice fields the guard reads. */
  datatype AuthState = AuthState(isAuthenticated: bool, user: Option<AuthUser>, isLoading: bool)

  /** `user?.userType`. */
  function UserTypeOf(auth: AuthState): Option<string>
  {
    match auth.user
    case None => None
    case Some(u) => u.userType
  }

  /** What the guard renders. */
  datatype Decision = Spinner | ToLogin(from: string) | Redirect(path: string) | Render

  /** JavaScript truthiness of the optional `requiredUserType` (null by default). */
  predicate Requires(required: Option<string>)
  {
    required.Some? && required.value != ""
  }

  /** `ProtectedRoute`: a spinner while auth is loading, the login page (with the
      current location) when signed out, the user's own landing page when a
      required user type does not match, and the children otherwise. */
  function Guard(auth: AuthState, required: Option<string>, location: string): (r: Decision)
    ensures r.Spinner? <==> auth.isLoading
    ensures r.ToLogin? <==> !auth.isLoading && !auth.isAuthenticated
    ensures r.ToLogin? ==> r.from == location
    ensures r.Render? <==> (!auth.isLoading && auth.isAuthenticated
      && (Requires(required) ==> UserTypeOf(auth) == required))
    ensures r.Redirect? ==>
      Requires(required) && UserTypeOf(auth) != required && r.path == DashboardFor(UserTypeOf(auth))
  {
    if auth.isLoading then Spinner
    else if !auth.isAuthenticated then ToLogin(location)
    else if Requires(required) && UserTypeOf(auth) != required then Redirect(DashboardFor(UserTypeOf(auth)))
    else Render
  }

  /** The route table's guarded pages and their required user types. The
      checkout page is guarded without a type, which the guard treats like no
      type at all, so it maps to None with the unguarded pages. */
  function RequiredFor(path: string): (r: Option<string>)
    ensures r.Some? ==> r.value == "consumer" || r.value == "farmer"
    ensures r == Some("consumer") <==> path == "/profile" || path == "/orders" || path == "/favorites"
    ensures r == Some("farmer") <==>
      path == "/farmer/dashboard" || path == "/farmer/profile" || path == "/farmer/products"
  {
    if path in ["/profile", "/orders", "/favorites"] then Some("consumer")
    else if path in ["/farmer/dashboard", "/farmer/profile", "/farmer/products"] then Some("farmer")
    else None
  }

  /** A redirect of the guard never leads to a page that redirects again: the
      farmer dashboard admits the farmer it was chosen for, and the home page
      is not guarded at all. */
  lemma {:induction false} RedirectSettles(auth: AuthState, required: Option<string>, location: string)
    requires Guard(auth, required, location).Redirect?
    ensures var p := Guard(auth, required, location).path;
      Guard(auth, RequiredFor(p), p) == Render
  {
    var p := Guard(auth, required, location).path;
    if p == "/farmer/dashboard" {
      assert RequiredFor(p) == Some("farmer");
    } else {
      assert p == "/";
      assert RequiredFor(p) == None;
    }
  }

  /** With no required user type every signed-in, settled user gets the page. */
  lemma UnguardedAdmitsSignedIn(auth: AuthState, location: string)
    requires !auth.isLoading && auth.isAuthenticated
    ensures Guard(auth, None, location) == Render
    ensures Guard(auth, Some(""), location) == Render
  {
  }
}
