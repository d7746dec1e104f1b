/** The sign-in / sign-up screen: form editing, client-side validation, and
    what a reply from the login endpoint does to storage and navigation. */
module LoginSignup {
  import opened Options
  import opened Text
  import opened Browser
  import opened Sidebar

  /** A form value: text inputs hold strings, the "remember me" checkbox a
      boolean. */
  datatype FieldValue = Str(s: string) | Checked(b: bool)

  /** `formData`: a missing key is an `undefined` field. */
  type Form = map<string, FieldValue>

  /** The form's initial state. It has no "name" key although the sign-up
      form shows a "name" input. */
  const InitialForm: Form := map[
    "username" := Str(""), "password" := Str(""), "confirmPassword" := Str(""),
    "email" := Str(""), "first_name" := Str(""), "last_name" := Str(""),
    "phone_number" := Str(""), "address" := Str(""), "image" := Str(""),
    "rememberMe" := Checked(false)]

  /** The target of a change event. */
  datatype InputEvent = InputEvent(name: string, value: string, isCheckbox: bool, checked: bool)

  /** The value a change event writes. */
  function EventValue(e: InputEvent): FieldValue {
    if e.isCheckbox then Checked(e.checked) else Str(e.value)
  }

  /** `handleInputChange`: only the named field changes; a checkbox writes its
      `checked` flag and every other input its text. */
  function ApplyInput(form: Form, e: InputEvent): (r: Form)
    ensures r.Keys == form.Keys + {e.name}
    ensures forall k :: k in form && k != e.name ==> r[k] == form[k]
    ensures e.isCheckbox ==> r[e.name] == Checked(e.checked)
    ensures !e.isCheckbox ==> r[e.name] == Str(e.value)
  {
    form[e.name := EventValue(e)]
  }

  /** JavaScript falsiness of a form field: `undefined`, `""` or `false`. */
  predicate Falsy(v: Option<FieldValue>) {
    v == None || v == Some(Str("")) || v == Some(Checked(false))
  }

  /** Whether `.trim()` can be called on the field: only strings have it,
      so `undefined` or a boolean throws. */
  predicate IsText(v: Option<FieldValue>) {
    v.Some? && v.value.Str?
  }

  function Get(form: Form, key: string): Option<FieldValue> {
    if key in form then Some(form[key]) else None
  }

  /** What `validateForm` does: returns true, shows one message and returns
      false, or throws a TypeError. */
  datatype Verdict = Valid | Invalid(message: string) | Throws

  const NameRequired := "Name is required"
  const UsernameRequired := "username is required"
  const UsernameInvalid := "Please enter a valid username address"
  const PasswordRequired := "Password is required"
  const PasswordsDiffer := "Passwords do not match"

  /** `validateForm`, in source order: (sign-up) name, username, the
      "valid username" check, password, (sign-up) password confirmation. */
  function ValidateForm(form: Form, isLogin: bool): (v: Verdict)
    ensures v.Invalid? ==> v.message in {NameRequired, UsernameRequired, UsernameInvalid, PasswordRequired, PasswordsDiffer}
    ensures v == Throws ==> !IsText(Get(form, "username")) || (!isLogin && !IsText(Get(form, "name")))
  {
    var name := Get(form, "name");
    var username := Get(form, "username");
    var password := Get(form, "password");
    if !isLogin && !IsText(name) then Throws
    else if !isLogin && Trim(name.value.s) == "" then Invalid(NameRequired)
    else if !IsText(username) then Throws
    else if Trim(username.value.s) == "" then Invalid(UsernameRequired)
    else if Falsy(username) then Invalid(UsernameInvalid)
    else if Falsy(password) then Invalid(PasswordRequired)
    else if !isLogin && password != Get(form, "confirmPassword") then Invalid(PasswordsDiffer)
    else Valid
  }

  /** A text field that holds something other than white space. */
  predicate FilledText(v: Option<FieldValue>) {
    IsText(v) && !IsBlank(v.value.s)
  }

  /** Sign-in: the form passes exactly when the username is not blank and
      the password is not empty. */
  lemma LoginValidIff(form: Form)
    ensures ValidateForm(form, true) == Valid <==>
      FilledText(Get(form, "username")) && !Falsy(Get(form, "password"))
  {
    var u := Get(form, "username");
    if IsText(u) {
      TrimEmptyIffBlank(u.value.s);
    }
  }

  /** Sign-up: a non-blank name and matching passwords are required as well. */
  lemma SignupValidIff(form: Form)
    ensures ValidateForm(form, false) == Valid <==>
      FilledText(Get(form, "name")) && FilledText(Get(form, "username"))
      && !Falsy(Get(form, "password")) && Get(form, "password") == Get(form, "confirmPassword")
  {
    var n := Get(form, "name");
    var u := Get(form, "username");
    if IsText(n) {
      TrimEmptyIffBlank(n.value.s);
    }
    if IsText(u) {
      TrimEmptyIffBlank(u.value.s);
    }
  }

  /** The "valid username" message is never shown: that test runs only
      when the trimmed username is already non-empty. */
  lemma UsernameInvalidUnreachable(form: Form, isLogin: bool)
    ensures ValidateForm(form, isLogin) != Invalid(UsernameInvalid)
  {
    var u := Get(form, "username");
    if IsText(u) && u.value.s == "" {
      assert Trim("") == "";
    }
  }

  /** Until the user types into the name input, sign-up validation reads
      `.trim()` of an undefined field and throws, whatever else was typed. */
  lemma SignupWithoutNameThrows(form: Form)
    requires "name" !in form
    ensures ValidateForm(form, false) == Throws
  {
  }

  /** Sign-in with the untouched form stops at the username. */
  lemma InitialLoginNeedsUsername()
    ensures ValidateForm(InitialForm, true) == Invalid(UsernameRequired)
  {
    assert Get(InitialForm, "username") == Some(Str(""));
    assert Trim("") == "";
  }

  /** The user record written to storage: the reply's user with a falsy role
      replaced by `null`. */
  function StoredUser(u: UserRecord): (r: UserRecord)
    ensures r.id == u.id && r.username == u.username && r.firstName == u.firstName && r.image == u.image
    ensures r.role == (if Truthy(u.role) then u.role else None)
  {
    u.(role := if Truthy(u.role) then u.role else None)
  }

  /** The page a signed-in user is sent to, chosen by the reply's role. */
  function LandingPath(role: Option<string>): (path: string)
    ensures role == Some("admin") ==> path == "/adminDashboard"
    ensures role == Some("client") ==> path == "/clientDashboard"
    ensures role != Some("admin") && role != Some("client") ==> path == "/superAdminDashboard"
  {
    if role == Some("admin") then "/adminDashboard"
    else if role == Some("client") then "/clientDashboard"
    else "/superAdminDashboard"
  }

  /** The reply of the login endpoint: the `{access, refresh, user}` body of a
      success, or the `detail`/`message` fields of an error body. */
  datatype Reply =
    | Success(access: Option<string>, refresh: Option<string>, user: Option<UserRecord>)
    | Failure(detail: Option<string>, message: Option<string>)

  /** Storage after a successful reply: each token is written only when it
      is a non-empty string, the user record only when there is one. */
  function StoreSession(items: map<string, Item>, access: Option<string>, refresh: Option<string>,
                        user: Option<UserRecord>): (r: map<string, Item>)
    ensures forall k :: k != "access_token" && k != "refresh_token" && k != "user" ==>
      (k in r <==> k in items) && (k in items ==> r[k] == items[k])
    ensures Truthy(access) ==> "access_token" in r && r["access_token"] == Text(access.value)
    ensures !Truthy(access) ==>
      ("access_token" in r <==> "access_token" in items)
      && ("access_token" in items ==> r["access_token"] == items["access_token"])
    ensures Truthy(refresh) ==> "refresh_token" in r && r["refresh_token"] == Text(refresh.value)
    ensures !Truthy(refresh) ==>
      ("refresh_token" in r <==> "refresh_token" in items)
      && ("refresh_token" in items ==> r["refresh_token"] == items["refresh_token"])
    ensures user.Some? ==> "user" in r && r["user"] == UserJson(StoredUser(user.value))
    ensures user.None? ==> ("user" in r <==> "user" in items) && ("user" in items ==> r["user"] == items["user"])
  {
    var a := if Truthy(access) then items["access_token" := Text(access.value)] else items;
    var b := if Truthy(refresh) then a["refresh_token" := Text(refresh.value)] else a;
    if user.Some? then b["user" := UserJson(StoredUser(user.value))] else b
  }

  /** The toast shown when the request fails. */
  function LoginErrorMessage(detail: Option<string>, message: Option<string>): (m: string)
    ensures Truthy(detail) ==> m == detail.value
    ensures !Truthy(detail) && Truthy(message) ==> m == message.value
    ensures !Truthy(detail) && !Truthy(message) ==> m == "Login failed"
    ensures m != ""
  {
    if Truthy(detail) then detail.value
    else if Truthy(message) then message.value
    else "Login failed"
  }

  /** What a submit ended in. */
  datatype SubmitResult =
    | Crashed                                  // validation threw
    | Rejected(message: string)                // validation failed
    | Answered(navigateTo: Option<string>)     // the endpoint accepted the credentials
    | LoginFailed(message: string)             // the request failed

  /** Storage after the endpoint replied: a failure writes nothing. */
  function AfterReply(items: map<string, Item>, reply: Reply): map<string, Item> {
    match reply
    case Success(access, refresh, user) => StoreSession(items, access, refresh, user)
    case Failure(_, _) => items
  }

  /** The outcome of a submit: a form that does not validate is never sent
      and shows its validation message; a reply with a user lands on that
      role's page, one without a user navigates nowhere; a failure shows the
      server's detail, else its message, else "Login failed". */
  function SubmitOutcome(verdict: Verdict, reply: Reply): (r: SubmitResult)
    ensures verdict == Throws <==> r == Crashed
    ensures verdict.Invalid? <==> r.Rejected?
    ensures verdict.Invalid? ==> r == Rejected(verdict.message)
    ensures verdict == Valid && reply.Success? ==> r.Answered? && (r.navigateTo.Some? <==> reply.user.Some?)
    ensures verdict == Valid && reply.Success? && reply.user.Some? ==>
      r.navigateTo == Some(LandingPath(reply.user.value.role))
    ensures verdict == Valid && reply.Failure? ==> r.LoginFailed? && r.message != ""
    ensures verdict == Valid && reply.Failure? ==> r.message == LoginErrorMessage(reply.detail, reply.message)
  {
    match verdict
    case Throws => Crashed
    case Invalid(m) => Rejected(m)
    case Valid =>
      match reply
      case Success(_, _, user) => Answered(if user.Some? then Some(LandingPath(user.value.role)) else None)
      case Failure(detail, message) => LoginFailed(LoginErrorMessage(detail, message))
  }

  /** After sign-in, the role the sidebar derives from storage is the reply
      user's role (or `null`); a role other than the three known ones lands
      on the super-admin dashboard yet gets an empty menu. */
  lemma SignedInRoleReachesSidebar(items: map<string, Item>, access: Option<string>,
                                   refresh: Option<string>, u: UserRecord)
    ensures DerivedRole(StoreSession(items, access, refresh, Some(u))) == RoleOf(u)
    ensures Truthy(u.role) && !IsKnownRole(Named(u.role.value)) ==>
      LandingPath(u.role) == "/superAdminDashboard"
      && MenuFor(DerivedRole(StoreSession(items, access, refresh, Some(u)))) == []
  {
  }

  /** The screen's state. */
  class LoginPage {
    var isLogin: bool
    var loading: bool
    var formData: Form

    constructor ()
      ensures isLogin && !loading && formData == InitialForm
    {
      isLogin := true;
      loading := false;
      formData := InitialForm;
    }

    method HandleInputChange(e: InputEvent)
      modifies this
      ensures formData == ApplyInput(old(formData), e)
      ensures isLogin == old(isLogin) && loading == old(loading)
    {
      formData := formData[e.name := EventValue(e)];
    }

    /** `toggleMode`: switches between sign-in and sign-up; the form stays. */
    method ToggleMode()
      modifies this
      ensures isLogin == !old(isLogin) && loading == old(loading) && formData == old(formData)
    {
      isLogin := !isLogin;
    }

    /** `handleSubmit`: validate; then, with `loading` set for the duration of
        the request, store what the reply carries (the reply is a
        parameter). */
    method HandleSubmit(storage: LocalStorage, reply: Reply) returns (result: SubmitResult)
      modifies this, storage
      ensures isLogin == old(isLogin) && formData == old(formData)
      ensures result == SubmitOutcome(ValidateForm(formData, isLogin), reply)
      ensures ValidateForm(formData, isLogin) == Valid ==>
        !loading && storage.items == AfterReply(old(storage.items), reply)
      ensures ValidateForm(formData, isLogin) != Valid ==>
        loading == old(loading) && storage.items == old(storage.items)
    {
      var verdict := ValidateForm(formData, isLogin);
      if verdict != Valid {
        return SubmitOutcome(verdict, reply);
      }
      loading := true;
      result := SendLogin(storage, reply);
      loading := false;
    }

    /** The request and its handling, from the reply onwards. */
    method SendLogin(storage: LocalStorage, reply: Reply) returns (result: SubmitResult)
      modifies storage
      ensures result == SubmitOutcome(Valid, reply)
      ensures storage.items == AfterReply(old(storage.items), reply)
    {
      match reply {
        case Success(access, refresh, user) =>
          if Truthy(access) {
            storage.SetItem("access_token", Text(access.value));
          }
          if Truthy(refresh) {
            storage.SetItem("refresh_token", Text(refresh.value));
          }
          if user.Some? {
            storage.SetItem("user", UserJson(StoredUser(user.value)));
            result := Answered(Some(LandingPath(user.value.role)));
          } else {
            result := Answered(None);
          }
        case Failure(detail, message) =>
          result := LoginFailed(LoginErrorMessage(detail, message));
      }
    }
  }
}
