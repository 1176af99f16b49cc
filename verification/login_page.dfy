/**
 * The login page: a four-view state machine (role selection, official login,
 * resident login, resident sign-up), the login and sign-up handlers, and the
 * form reset. Sign-up writes the resident into both providers: the
 * authentication provider's list (checked by `login`) and the data
 * provider's list (changed by `approveResident`).
 */
module Login {
  import opened Options
  import opened Text
  import opened Barangay
  import opened DataStore
  import opened Auth

  datatype AuthView = RoleSelection | OfficialLogin | ResidentLogin | ResidentSignup

  /** The sign-up fields; `age` is the parsed age field (None when blank or not a number). */
  datatype SignupForm = SignupForm(
    lastName: string,
    firstName: string,
    middleName: string,
    age: Option<int>,
    address: string,
    contact: string,
    email: string,
    password: string,
    confirmPassword: string)

  const EmptySignup := SignupForm("", "", "", None, "", "", "", "", "")

  const OfficialLoginError := "Incorrect email or password."
  const ResidentLoginError := "Account not found or pending approval. Please sign up or contact the barangay staff."
  const MismatchError := "Passwords do not match."
  const ShortPasswordError := "Password must be at least 6 characters."
  const DuplicateEmailError := "An account with this email already exists."
  const SignupSuccess := "Sign up successful! Please wait for approval from the barangay official."

  /** The views a button on view `v` switches to (besides going back to role selection). */
  function Links(v: AuthView): set<AuthView> {
    match v
    case RoleSelection => {OfficialLogin, ResidentLogin}
    case OfficialLogin => {}
    case ResidentLogin => {ResidentSignup}
    case ResidentSignup => {ResidentLogin}
  }

  /** The outcome of the two local checks of `handleSignup`, in the order it makes them. */
  datatype SignupCheck = Mismatch | TooShort | Proceed

  /**
   * The mismatch check comes first; only matching passwords are checked for
   * length, which JavaScript counts in UTF-16 units.
   */
  function CheckSignup(f: SignupForm): (c: SignupCheck)
    ensures c == Mismatch <==> f.password != f.confirmPassword
    ensures c == TooShort <==> f.password == f.confirmPassword && Utf16Length(f.password) < 6
    ensures c == Proceed <==> f.password == f.confirmPassword && Utf16Length(f.password) >= 6
  {
    if f.password != f.confirmPassword then Mismatch
    else if Utf16Length(f.password) < 6 then TooShort
    else Proceed
  }

  /** Three characters outside the Basic Multilingual Plane already make a long enough password. */
  lemma ThreeAstralCharactersAreLongEnough(f: SignupForm)
    requires f.password == f.confirmPassword && |f.password| == 3
    requires forall i :: 0 <= i < 3 ==> IsAstral(f.password[i])
    ensures CheckSignup(f) == Proceed
  {
  }

  /**
   * The personal data sign-up hands to both providers: every field as typed,
   * except that a blank middle name becomes absent.
   */
  function Registration(f: SignupForm): (info: PersonalInfo)
    ensures info.lastName == f.lastName && info.firstName == f.firstName
    ensures info.middleName.None? <==> f.middleName == ""
    ensures info.middleName.Some? ==> info.middleName.value == f.middleName
    ensures info.age == f.age && info.address == f.address && info.contact == f.contact
    ensures info.email == f.email && info.password == f.password
  {
    PersonalInfo(f.lastName, f.firstName, if f.middleName == "" then None else Some(f.middleName),
                 f.age, f.address, f.contact, f.email, f.password)
  }

  class LoginPage {
    const auth: AuthProvider
    const data: DataProvider
    var view: AuthView
    var error: string
    var success: string
    var email: string
    var password: string
    var signup: SignupForm

    constructor (auth: AuthProvider, data: DataProvider)
      ensures this.auth == auth && this.data == data
      ensures view == RoleSelection && error == "" && success == ""
      ensures email == "" && password == "" && signup == EmptySignup
    {
      this.auth := auth;
      this.data := data;
      view := RoleSelection;
      error, success := "", "";
      email, password := "", "";
      signup := EmptySignup;
    }

    /** The e-mail and password inputs of the login forms. */
    method SetCredentials(email: string, password: string)
      modifies this
      ensures this.email == email && this.password == password
      ensures view == old(view) && error == old(error) && success == old(success) && signup == old(signup)
    {
      this.email, this.password := email, password;
    }

    /** The inputs of the sign-up form. */
    method SetSignup(f: SignupForm)
      modifies this
      ensures signup == f
      ensures view == old(view) && error == old(error) && success == old(success)
      ensures email == old(email) && password == old(password)
    {
      signup := f;
    }

    /**
     * `handleOfficialLogin`: clears the error, then either navigates to the
     * dashboard (the login succeeded) or sets the official error message.
     */
    method HandleOfficialLogin() returns (nav: Option<string>)
      requires auth.Valid()
      modifies this, auth
      ensures auth.Valid()
      ensures nav.Some? <==> FindUser(auth.officials, old(auth.residents), email, password, OfficialRole).Some?
      ensures nav.Some? ==> nav.value == "/dashboard" && error == "" && auth.userRole == Some(OfficialRole)
      ensures nav.Some? ==> auth.currentUser == FindUser(auth.officials, old(auth.residents), email, password, OfficialRole)
      ensures nav.None? ==> error == OfficialLoginError
      ensures nav.None? ==> auth.currentUser == old(auth.currentUser) && auth.userRole == old(auth.userRole)
      ensures auth.residents == old(auth.residents)
      ensures view == old(view) && success == old(success) && signup == old(signup)
      ensures email == old(email) && password == old(password)
    {
      error := "";
      var ok := auth.Login(email, password, OfficialRole);
      if ok {
        nav := Some("/dashboard");
      } else {
        nav := None;
        error := OfficialLoginError;
      }
    }

    /**
     * `handleResidentLogin`: clears the error, then either navigates to the
     * portal or sets the "not found or pending approval" message.
     */
    method HandleResidentLogin() returns (nav: Option<string>)
      requires auth.Valid()
      modifies this, auth
      ensures auth.Valid()
      ensures nav.Some? <==> FindUser(auth.officials, old(auth.residents), email, password, ResidentRole).Some?
      ensures nav.Some? ==> nav.value == "/portal" && error == "" && auth.userRole == Some(ResidentRole)
      ensures nav.Some? ==> auth.currentUser == FindUser(auth.officials, old(auth.residents), email, password, ResidentRole)
      ensures nav.None? ==> error == ResidentLoginError
      ensures nav.None? ==> auth.currentUser == old(auth.currentUser) && auth.userRole == old(auth.userRole)
      ensures auth.residents == old(auth.residents)
      ensures view == old(view) && success == old(success) && signup == old(signup)
      ensures email == old(email) && password == old(password)
    {
      error := "";
      var ok := auth.Login(email, password, ResidentRole);
      if ok {
        nav := Some("/portal");
      } else {
        nav := None;
        error := ResidentLoginError;
      }
    }

    /**
     * `handleSignup`: clears both messages; stops with a message on a password
     * mismatch, then on a password shorter than 6 UTF-16 units; otherwise
     * registers with the authentication provider and, only if that accepted
     * the e-mail, adds the same data with status Pending Approval to the data
     * provider. Each provider reads the clock itself, so the two creation
     * times are separate parameters.
     */
    method HandleSignup(authId: string, dataId: string, authNow: Date, dataNow: Date)
      requires auth.Valid()
      modifies this, auth, data
      ensures auth.Valid()
      ensures CheckSignup(signup) != Proceed || EmailTaken(old(auth.residents), signup.email) ==>
        && success == ""
        && auth.residents == old(auth.residents)
        && data.residents == old(data.residents)
      ensures CheckSignup(signup) == Mismatch ==> error == MismatchError
      ensures CheckSignup(signup) == TooShort ==> error == ShortPasswordError
      ensures CheckSignup(signup) == Proceed && EmailTaken(old(auth.residents), signup.email) ==>
        error == DuplicateEmailError
      ensures CheckSignup(signup) == Proceed && !EmailTaken(old(auth.residents), signup.email) ==>
        && error == ""
        && success == SignupSuccess
        && auth.residents == old(auth.residents) + [Resident(authId, Registration(signup), PendingApproval, authNow)]
        && data.residents == old(data.residents) + [Resident(dataId, Registration(signup), PendingApproval, dataNow)]
      ensures auth.currentUser == old(auth.currentUser) && auth.userRole == old(auth.userRole)
      ensures data.requests == old(data.requests) && data.notifications == old(data.notifications)
      ensures view == old(view) && signup == old(signup) && email == old(email) && password == old(password)
    {
      error := "";
      success := "";
      if signup.password != signup.confirmPassword {
        error := MismatchError;
        return;
      }
      if Utf16Length(signup.password) < 6 {
        error := ShortPasswordError;
        return;
      }
      var ok := auth.RegisterResident(Registration(signup), authId, authNow);
      if ok {
        data.AddResident(Registration(signup), PendingApproval, dataId, dataNow);
        success := SignupSuccess;
      } else {
        error := DuplicateEmailError;
      }
    }

    /** The delayed callback after a successful sign-up: show the resident login and drop the message. */
    method SignupDelayElapsed()
      modifies this
      ensures view == ResidentLogin && success == ""
      ensures error == old(error) && email == old(email) && password == old(password) && signup == old(signup)
    {
      view := ResidentLogin;
      success := "";
    }

    /** `resetForm`: every field and both messages emptied; the view is kept. */
    method ResetForm()
      modifies this
      ensures email == "" && password == "" && error == "" && success == "" && signup == EmptySignup
      ensures view == old(view)
    {
      email, password := "", "";
      error, success := "", "";
      signup := EmptySignup;
    }

    /** `goBack`: the form is reset and the role selection shown. */
    method GoBack()
      modifies this
      ensures email == "" && password == "" && error == "" && success == "" && signup == EmptySignup
      ensures view == RoleSelection
    {
      ResetForm();
      view := RoleSelection;
    }

    /** The role and sign-up buttons: reset the form, then show the linked view. */
    method OpenView(v: AuthView)
      requires v in Links(view)
      modifies this
      ensures email == "" && password == "" && error == "" && success == "" && signup == EmptySignup
      ensures view == v
    {
      ResetForm();
      view := v;
    }
  }

  /**
   * The two resident lists diverge: after a successful sign-up, an official
   * approving the new resident changes only the data provider's copy, so the
   * resident's login with the very credentials just registered is still
   * refused by the authentication provider, whose copy stays Pending Approval.
   */
  method SignupApprovalDoesNotEnableLogin(page: LoginPage, authId: string, dataId: string, authNow: Date, dataNow: Date)
    returns (nav: Option<string>)
    requires page.auth.Valid()
    requires CheckSignup(page.signup) == Proceed
    requires !EmailTaken(page.auth.residents, page.signup.email)
    modifies page, page.auth, page.data
    ensures Resident(dataId, Registration(old(page.signup)), Active, dataNow) in page.data.residents
    ensures nav == None && page.error == ResidentLoginError
  {
    var f := page.signup;
    page.HandleSignup(authId, dataId, authNow, dataNow);
    var k := |page.data.residents| - 1;
    page.data.ApproveResident(dataId);
    assert page.data.residents[k] == Resident(dataId, Registration(f), Active, dataNow);
    page.SignupDelayElapsed();
    page.SetCredentials(f.email, f.password);
    PendingResidentRefused(page.auth.officials, page.auth.residents, |page.auth.residents| - 1,
                           f.email, f.password);
    nav := page.HandleResidentLogin();
  }
}
