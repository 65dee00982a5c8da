/** The React login page: its validation rules, the default user type, where a
    signed-in user is sent, and the development stand-in for the login call
    (which accepts any credentials). yup's email-format test is a parameter; the
    simulated delay is left out and the clock is a parameter. */
module LoginForm {
  import opened Common
  import opened Text
  import opened ProtectedRoute

  datatype LoginError =
    | EmailFormat | EmailRequired
    | PasswordTooShort | PasswordRequired
    | UserTypeNotListed | UserTypeRequired

  /** The form's default user type. */
  const DefaultUserType: string := "consumer"

  /** Every rule the submitted values break. */
  function LoginErrors(email: string, password: string, userType: string, emailFormat: string -> bool): (r: set<LoginError>)
    ensures r == {} <==> email != "" && emailFormat(email) && |password| >= 6 && userType in ["consumer", "farmer"]
    ensures password == "" ==> {PasswordTooShort, PasswordRequired} <= r
    ensures userType == DefaultUserType ==> UserTypeNotListed !in r && UserTypeRequired !in r
  {
    (if email != "" && !emailFormat(email) then {EmailFormat} else {})
    + (if email == "" then {EmailRequired} else {})
    + (if |password| < 6 then {PasswordTooShort} else {})
    + (if password == "" then {PasswordRequired} else {})
    + (if userType !in ["consumer", "farmer"] then {UserTypeNotListed} else {})
    + (if userType == "" then {UserTypeRequired} else {})
  }

  /** `location.state?.from?.pathname || dashboard`: the page the guard bounced
      the user from, unless missing or empty, else the user type's landing page. */
  function PostLoginTarget(from: Option<string>, userType: Option<string>): (r: string)
    ensures from.Some? && from.value != "" ==> r == from.value
    ensures from.None? || from.value == "" ==> r == DashboardFor(userType)
  {
    if from.Some? && from.value != "" then from.value else DashboardFor(userType)
  }

  /** A user the guard sent to the login page comes back to the page they asked
      for, whatever their type. */
  lemma LoginReturnsToGuardedPage(auth: AuthState, required: Option<string>, location: string, userType: Option<string>)
    requires Guard(auth, required, location).ToLogin? && location != ""
    ensures PostLoginTarget(Some(Guard(auth, required, location).from), userType) == location
  {
  }

  /** The farmer extras of the mock profile. */
  datatype FarmDetails = FarmDetails(farmName: string, certifications: seq<string>, bio: string)

  datatype MockUser = MockUser(
    id: string,
    email: string,
    userType: string,
    name: string,
    avatar: string,
    emailVerified: bool,
    location: string,
    phone: string,
    farm: Option<FarmDetails>)

  datatype MockAuth = MockAuth(user: MockUser, token: string)

  const AvatarUrl: string := "https://images.pexels.com/photos/220453/pexels-photo-220453.jpeg?auto=compress&cs=tinysrgb&w=150&h=150&dpr=1"

  /** `mockLogin`: a fixed profile for the chosen user type, carrying the email
      typed in; the password is never looked at. */
  function MockLogin(email: string, password: string, userType: string, nowMillis: nat): (r: MockAuth)
    ensures r.user.id == "1" && r.user.email == email && r.user.userType == userType && r.user.emailVerified
    ensures r.user.farm.Some? <==> userType == "farmer"
    ensures r.user.name == (if userType == "farmer" then "Farmer John" else "Consumer Jane")
    ensures r.user.location == (if userType == "farmer" then "Kandy, Sri Lanka" else "Colombo, Sri Lanka")
    ensures r.token == "mock-jwt-token-" + NatToString(nowMillis)
  {
    var farmer := userType == "farmer";
    MockAuth(
      MockUser(
        "1", email, userType,
        if farmer then "Farmer John" else "Consumer Jane",
        AvatarUrl, true,
        if farmer then "Kandy, Sri Lanka" else "Colombo, Sri Lanka",
        "+94 77 123 4567",
        if farmer then Some(FarmDetails("Green Valley Farm", ["Organic", "Fair Trade"],
          "Passionate about sustainable farming and providing fresh, organic produce to our community."))
        else None),
      "mock-jwt-token-" + NatToString(nowMillis))
  }

  /** Any two passwords give the same signed-in user. */
  lemma MockLoginIgnoresPassword(email: string, p1: string, p2: string, userType: string, nowMillis: nat)
    ensures MockLogin(email, p1, userType, nowMillis) == MockLogin(email, p2, userType, nowMillis)
  {
  }

  /** After a mock login without a return address the user lands on their own
      landing page, which the guard then renders for them. */
  lemma {:induction false} MockLoginLandsOnOwnPage(email: string, password: string, userType: string, nowMillis: nat)
    ensures var u := MockLogin(email, password, userType, nowMillis).user;
      var target := PostLoginTarget(None, Some(u.userType));
      var auth := AuthState(true, Some(AuthUser(Some(u.userType))), false);
      Guard(auth, RequiredFor(target), target) == Render
  {
    var target := PostLoginTarget(None, Some(userType));
    if userType == "farmer" {
      assert target == "/farmer/dashboard";
      assert RequiredFor(target) == Some("farmer");
    } else {
      assert target == "/";
      assert RequiredFor(target) == None;
    }
  }
}
