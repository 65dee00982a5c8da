/** The React registration page: the validation rules of its two schemas, the
    choice between them, the data it submits and the development stand-in for
    the registration call. yup's email-format test is a parameter (its pattern is
    not part of this model); the simulated delay is left out and generated ids
    and timestamps are parameters. */
module RegisterForm {
  import opened Common
  import opened Text
  import opened Validation
  import opened ProtectedRoute

  /** The form values. Inputs that are rendered submit "" when empty; the farm
      fields are None when they were never rendered. */
  datatype Form = Form(
    userType: string,
    name: string,
    email: string,
    password: string,
    confirmPassword: string,
    phone: string,
    location: string,
    terms: bool,
    farmName: Option<string>,
    bio: Option<string>)

  /** One failing rule of the schemas, in declaration order. */
  datatype FormError =
    | UserTypeNotListed | UserTypeRequired
    | NameTooShort | NameRequired
    | EmailFormat | EmailRequired
    | PasswordTooShort | PasswordNoLower | PasswordNoUpper | PasswordNoDigit | PasswordRequired
    | PasswordsDiffer | ConfirmRequired
    | PhoneFormat | PhoneRequired
    | LocationRequired
    | TermsNotAccepted
    | FarmNameTooShort | FarmNameRequired
    | BioTooShort | BioTooLong | BioRequired

  predicate HasLower(s: string)
  {
    exists i :: 0 <= i < |s| && IsLowerAscii(s[i])
  }

  predicate HasUpper(s: string)
  {
    exists i :: 0 <= i < |s| && IsUpperAscii(s[i])
  }

  predicate HasDigit(s: string)
  {
    exists i :: 0 <= i < |s| && IsDigit(s[i])
  }

  /** `^(\+94|0)[0-9]{9}$`: the international or the national form of a
      nine-digit subscriber number. */
  predicate IsSriLankanPhone(s: string)
  {
    || (|s| == 12 && s[..3] == "+94" && AllDigits(s[3..]))
    || (|s| == 10 && s[0] == '0' && AllDigits(s[1..]))
  }

  /** The rules the two schemas share. */
  function BaseErrors(f: Form, emailFormat: string -> bool): (r: set<FormError>)
    ensures r == {} <==>
      && f.userType in ["consumer", "farmer"]
      && |f.name| >= 2
      && f.email != "" && emailFormat(f.email)
      && |f.password| >= 8 && HasLower(f.password) && HasUpper(f.password) && HasDigit(f.password)
      && f.confirmPassword == f.password
      && IsSriLankanPhone(f.phone)
      && f.location != ""
      && f.terms
    ensures f.password == "" ==> {PasswordTooShort, PasswordNoLower, PasswordNoUpper, PasswordNoDigit, PasswordRequired} <= r
  {
    (if f.userType !in ["consumer", "farmer"] then {UserTypeNotListed} else {})
    + (if f.userType == "" then {UserTypeRequired} else {})
    + (if |f.name| < 2 then {NameTooShort} else {})
    + (if f.name == "" then {NameRequired} else {})
    + (if f.email != "" && !emailFormat(f.email) then {EmailFormat} else {})
    + (if f.email == "" then {EmailRequired} else {})
    + (if |f.password| < 8 then {PasswordTooShort} else {})
    + (if !HasLower(f.password) then {PasswordNoLower} else {})
    + (if !HasUpper(f.password) then {PasswordNoUpper} else {})
    + (if !HasDigit(f.password) then {PasswordNoDigit} else {})
    + (if f.password == "" then {PasswordRequired} else {})
    + (if f.confirmPassword != f.password then {PasswordsDiffer} else {})
    + (if f.confirmPassword == "" then {ConfirmRequired} else {})
    + (if !IsSriLankanPhone(f.phone) then {PhoneFormat} else {})
    + (if f.phone == "" then {PhoneRequired} else {})
    + (if f.location == "" then {LocationRequired} else {})
    + (if !f.terms then {TermsNotAccepted} else {})
  }

  /** The two extra rules of the farmer schema. A missing field fails only its
      required rule; the length rules skip it. */
  function FarmErrors(f: Form): (r: set<FormError>)
    ensures r == {} <==>
      && f.farmName.Some? && |f.farmName.value| >= 2
      && f.bio.Some? && 10 <= |f.bio.value| <= 500
    ensures r <= {FarmNameTooShort, FarmNameRequired, BioTooShort, BioTooLong, BioRequired}
  {
    (match f.farmName
     case None => {FarmNameRequired}
     case Some(n) => (if |n| < 2 then {FarmNameTooShort} else {}) + (if n == "" then {FarmNameRequired} else {}))
    + (match f.bio
       case None => {BioRequired}
       case Some(b) =>
         (if |b| < 10 then {BioTooShort} else {}) + (if |b| > 500 then {BioTooLong} else {})
         + (if b == "" then {BioRequired} else {}))
  }

  datatype Schema = ConsumerSchema | FarmerSchema

  /** The schema is chosen by the selected user type. */
  function SchemaFor(userType: string): (r: Schema)
    ensures r == FarmerSchema <==> userType == "farmer"
  {
    if userType == "farmer" then FarmerSchema else ConsumerSchema
  }

  /** Every rule the form breaks under the schema its user type selects. */
  function RegisterErrors(f: Form, emailFormat: string -> bool): (r: set<FormError>)
    ensures BaseErrors(f, emailFormat) <= r
    ensures f.userType != "farmer" ==> r == BaseErrors(f, emailFormat)
    ensures f.userType == "farmer" ==> r == BaseErrors(f, emailFormat) + FarmErrors(f)
  {
    match SchemaFor(f.userType)
    case ConsumerSchema => BaseErrors(f, emailFormat)
    case FarmerSchema => BaseErrors(f, emailFormat) + FarmErrors(f)
  }

  /** A consumer form with no errors is accepted as it stands; a farmer form
      additionally needs valid farm fields, which is the only thing the farmer
      schema adds. */
  lemma FarmerSchemaExtendsConsumer(f: Form, emailFormat: string -> bool)
    ensures RegisterErrors(f, emailFormat) == {} ==> BaseErrors(f, emailFormat) == {}
    ensures RegisterErrors(f, emailFormat) - BaseErrors(f, emailFormat) <= FarmErrors(f)
    ensures f.userType == "farmer" ==>
      (RegisterErrors(f, emailFormat) == {} <==> BaseErrors(f, emailFormat) == {} && FarmErrors(f) == {})
  {
  }

  /** `?type=farmer` preselects the farmer type; any other query the consumer type. */
  function DefaultUserType(typeParam: Option<string>): (r: string)
    ensures r in ["consumer", "farmer"]
    ensures r == "farmer" <==> typeParam == Some("farmer")
  {
    if typeParam == Some("farmer") then "farmer" else "consumer"
  }

  /** The payload handed on: the form without `confirmPassword` and `terms`. */
  datatype UserData = UserData(
    userType: string,
    name: string,
    email: string,
    password: string,
    phone: string,
    location: string,
    farmName: Option<string>,
    bio: Option<string>)

  function Submitted(f: Form): UserData
  {
    UserData(f.userType, f.name, f.email, f.password, f.phone, f.location, f.farmName, f.bio)
  }

  /** What a caller of the registration may rely on: data submitted from a form
      without errors has a listed user type, a strong password, a Sri Lankan
      phone number and a location, and a farmer's data carries a farm name of
      at least two characters and a bio of 10 to 500. */
  lemma SubmittedValid(f: Form, emailFormat: string -> bool)
    requires RegisterErrors(f, emailFormat) == {}
    ensures var d := Submitted(f);
      && d.userType in ["consumer", "farmer"]
      && |d.name| >= 2 && d.email != "" && emailFormat(d.email)
      && |d.password| >= 8 && HasLower(d.password) && HasUpper(d.password) && HasDigit(d.password)
      && IsSriLankanPhone(d.phone)
      && d.location != ""
      && (d.userType == "farmer" ==>
            d.farmName.Some? && |d.farmName.value| >= 2 && d.bio.Some? && 10 <= |d.bio.value| <= 500)
  {
  }

  /** The extra profile fields a new farmer starts with. */
  datatype FarmerProfile = FarmerProfile(certifications: seq<string>, totalProducts: int, rating: int, reviewCount: int)

  datatype MockUser = MockUser(
    id: string,
    data: UserData,
    avatar: string,
    emailVerified: bool,
    createdAt: string,
    farmer: Option<FarmerProfile>)

  datatype MockAuth = MockAuth(user: MockUser, token: string)

  const AvatarUrl: string := "https://images.pexels.com/photos/220453/pexels-photo-220453.jpeg?auto=compress&cs=tinysrgb&w=150&h=150&dpr=1"

  /** `mockRegister`: echoes the submitted data with a fresh id, the stock avatar,
      an unverified email and, for farmers only, an empty farmer profile. */
  function MockRegister(data: UserData, now: string, nowMillis: nat): (r: MockAuth)
    ensures r.user.data == data && r.user.id == NatToString(nowMillis)
    ensures !r.user.emailVerified && r.user.createdAt == now
    ensures r.user.farmer.Some? <==> data.userType == "farmer"
    ensures r.user.farmer.Some? ==> r.user.farmer.value == FarmerProfile([], 0, 0, 0)
    ensures r.token == "mock-jwt-token-" + NatToString(nowMillis)
  {
    var farmer := if data.userType == "farmer" then Some(FarmerProfile([], 0, 0, 0)) else None;
    MockAuth(MockUser(NatToString(nowMillis), data, AvatarUrl, false, now, farmer), "mock-jwt-token-" + NatToString(nowMillis))
  }

  /** Where a successful registration lands. */
  function PostRegisterTarget(userType: string): (r: string)
    ensures r == DashboardFor(Some(userType))
  {
    if userType == "farmer" then "/farmer/dashboard" else "/"
  }

  /** A registration password always satisfies the login page's six-character rule. */
  lemma RegisteredPasswordPassesLogin(f: Form, emailFormat: string -> bool)
    requires RegisterErrors(f, emailFormat) == {}
    ensures |f.password| >= 6
  {
  }

  /** The national form of a number the registration accepts also passes the
      static site's ten-digit check; the international form never does. */
  lemma {:induction false} RegisterPhoneVersusStaticCheck(phone: string)
    requires IsSriLankanPhone(phone)
    ensures phone[0] == '0' ==> ValidatePhone(phone)
    ensures phone[0] == '+' ==> !ValidatePhone(phone)
  {
    NoSpaceCount(phone);
    if phone[0] == '+' {
      assert !IsDigit(phone[0]) && !IsSpace(phone[0]);
    } else {
      assert forall i :: 1 <= i < |phone| ==> phone[i] == phone[1..][i - 1];
    }
  }

  /** Every character of an accepted number is visible, so all of them count. */
  lemma {:induction false} NoSpaceCount(phone: string)
    requires IsSriLankanPhone(phone)
    ensures NonSpaceCount(phone) == |phone|
  {
    assert forall i :: 0 <= i < |phone| ==> !IsSpace(phone[i]) by {
      forall i | 0 <= i < |phone| ensures !IsSpace(phone[i]) {
        if |phone| == 12 {
          if i >= 3 {
            assert phone[i] == phone[3..][i - 3];
          } else {
            assert phone[i] == phone[..3][i];
          }
        } else if i >= 1 {
          assert phone[i] == phone[1..][i - 1];
        }
      }
    }
    AllVisibleCount(phone);
  }

  lemma {:induction false} AllVisibleCount(s: string)
    requires forall i :: 0 <= i < |s| ==> !IsSpace(s[i])
    ensures NonSpaceCount(s) == |s|
    decreases |s|
  {
    if |s| > 0 {
      assert forall i :: 0 <= i < |s[1..]| ==> s[1..][i] == s[i + 1];
      AllVisibleCount(s[1..]);
    }
  }
}
