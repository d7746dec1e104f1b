/** The "create sub-admin" form: field editing, the profile-image checks,
    client-side validation, the request payload and the message shown when
    the server refuses. */
module CreateSubAdmin {
  import opened Options
  import opened Text
  import opened Browser

  /** The `value`s of the role selector, in display order. */
  const RoleOptions: seq<string> := ["logistics_admin", "finance_admin", "tech_admin", "support_admin", "client"]

  const DefaultRole := "logistics_admin"

  /** A chosen picture: its size in bytes and its MIME type. */
  datatype ImageFile = ImageFile(size: int, mimeType: string)

  /** `userData`. */
  datatype UserData = UserData(
    username: string, password: string, email: string,
    firstName: string, lastName: string, phoneNumber: string, address: string,
    image: Option<ImageFile>, createdBy: Option<int>, role: string)

  /** The fresh form; `createdBy` is the id of the signed-in user. */
  function InitialUserData(userId: Option<int>): UserData {
    UserData("", "", "", "", "", "", "", None, userId, DefaultRole)
  }

  /** The inputs that call `handleInputChange`. */
  datatype Field = Username | Password | Email | FirstName | LastName | PhoneNumber | Address | RoleField

  /** The keys of `errors`: one per input, named by its `name` attribute,
      and "image". */
  datatype Key = FieldKey(field: Field) | ImageKey

  /** The input's `name` attribute. */
  function FieldName(f: Field): string {
    match f
    case Username => "username"
    case Password => "password"
    case Email => "email"
    case FirstName => "first_name"
    case LastName => "last_name"
    case PhoneNumber => "phone_number"
    case Address => "address"
    case RoleField => "role"
  }

  function SetField(d: UserData, f: Field, v: string): (r: UserData)
    ensures GetField(r, f) == v
    ensures r.image == d.image && r.createdBy == d.createdBy
  {
    match f
    case Username => d.(username := v)
    case Password => d.(password := v)
    case Email => d.(email := v)
    case FirstName => d.(firstName := v)
    case LastName => d.(lastName := v)
    case PhoneNumber => d.(phoneNumber := v)
    case Address => d.(address := v)
    case RoleField => d.(role := v)
  }

  function GetField(d: UserData, f: Field): string {
    match f
    case Username => d.username
    case Password => d.password
    case Email => d.email
    case FirstName => d.firstName
    case LastName => d.lastName
    case PhoneNumber => d.phoneNumber
    case Address => d.address
    case RoleField => d.role
  }

  /** Typing into one input changes that field and no other. */
  lemma SetFieldOnlyChangesThatField(d: UserData, f: Field, v: string, g: Field)
    ensures GetField(SetField(d, f, v), g) == if g == f then v else GetField(d, g)
  {
  }

  /** `errors`: a JavaScript object whose keys are input names and "image";
      a key that was never set is `None`. */
  datatype FormErrors = FormErrors(
    username: Option<string>, password: Option<string>, email: Option<string>,
    firstName: Option<string>, lastName: Option<string>, phoneNumber: Option<string>,
    address: Option<string>, role: Option<string>, image: Option<string>)

  const NoErrors := FormErrors(None, None, None, None, None, None, None, None, None)

  /** `errors[key]`. */
  function ErrorAt(e: FormErrors, key: Key): Option<string> {
    match key
    case ImageKey => e.image
    case FieldKey(f) =>
      match f
      case Username => e.username
      case Password => e.password
      case Email => e.email
      case FirstName => e.firstName
      case LastName => e.lastName
      case PhoneNumber => e.phoneNumber
      case Address => e.address
      case RoleField => e.role
  }

  /** `{...errors, [key]: message}`. */
  function WithError(e: FormErrors, key: Key, message: string): (r: FormErrors)
    ensures ErrorAt(r, key) == Some(message)
    ensures forall k :: k != key ==> ErrorAt(r, k) == ErrorAt(e, k)
  {
    match key
    case ImageKey => e.(image := Some(message))
    case FieldKey(f) =>
      match f
      case Username => e.(username := Some(message))
      case Password => e.(password := Some(message))
      case Email => e.(email := Some(message))
      case FirstName => e.(firstName := Some(message))
      case LastName => e.(lastName := Some(message))
      case PhoneNumber => e.(phoneNumber := Some(message))
      case Address => e.(address := Some(message))
      case RoleField => e.(role := Some(message))
  }

  /** The `errors` update of `handleInputChange`: a shown error on the edited
      field is blanked; every other entry stays, and no key is added. */
  function ClearError(errors: FormErrors, key: Key): (r: FormErrors)
    ensures forall k :: k != key ==> ErrorAt(r, k) == ErrorAt(errors, k)
    ensures ErrorAt(r, key).Some? <==> ErrorAt(errors, key).Some?
    ensures ErrorAt(r, key).Some? ==> ErrorAt(r, key).value == ""
  {
    if Truthy(ErrorAt(errors, key)) then WithError(errors, key, "") else errors
  }

  const ImageTooLarge := "Image size should be less than 5MB"
  const ImageWrongType := "Only JPEG, PNG, JPG, GIF images are allowed"
  const MaxImageBytes := 5 * 1024 * 1024
  const ImageTypes := ["image/jpeg", "image/png", "image/jpg", "image/gif"]

  /** Why `handleImageUpload` refuses a file, if it does: the size test
      comes before the type test. */
  function ImageProblem(file: ImageFile): (problem: Option<string>)
    ensures file.size > MaxImageBytes ==> problem == Some(ImageTooLarge)
    ensures file.size <= MaxImageBytes && file.mimeType !in ImageTypes ==> problem == Some(ImageWrongType)
    ensures problem == None <==> file.size <= MaxImageBytes && file.mimeType in ImageTypes
  {
    if file.size > MaxImageBytes then Some(ImageTooLarge)
    else if file.mimeType !in ImageTypes then Some(ImageWrongType)
    else None
  }

  const UsernameRequired := "Username is required"
  const PasswordRequired := "Password is required"
  const PasswordTooShort := "Password must be at least 6 characters"
  const EmailRequired := "Email is required"
  const EmailInvalid := "Email is invalid"
  const FirstNameRequired := "First name is required"
  const LastNameRequired := "Last name is required"
  const RoleRequired := "Role is required"
  const RoleInvalid := "Invalid role selected"

  /** A match of `\S+@\S+\.\S+` with its "@" at `at` and its "." at `dot`. */
  predicate EmailMatchAt(s: string, at: int, dot: int) {
    1 <= at && at + 2 <= dot && dot + 2 <= |s|
    && s[at] == '@' && s[dot] == '.'
    && !IsSpace(s[at - 1]) && !IsSpace(s[dot + 1])
    && forall m | at < m < dot :: !IsSpace(s[m])
  }

  /** `/\S+@\S+\.\S+/.test(s)`: the pattern occurs somewhere in `s`. */
  predicate EmailLooksValid(s: string) {
    exists at, dot | 0 <= at < |s| && 0 <= dot < |s| :: EmailMatchAt(s, at, dot)
  }

  /** The message for each field, if any. Each field gets at most one, and
      "required" wins over the length or format checks. */
  function UsernameError(d: UserData): Option<string> {
    if Trim(d.username) == "" then Some(UsernameRequired) else None
  }

  lemma UsernameRule(d: UserData)
    ensures UsernameError(d) == if IsBlank(d.username) then Some(UsernameRequired) else None
  {
    TrimEmptyIffBlank(d.username);
  }

  function PasswordError(d: UserData): (e: Option<string>)
    ensures e == Some(PasswordRequired) <==> d.password == ""
    ensures e == Some(PasswordTooShort) <==> 0 < |d.password| < 6
    ensures e == None <==> |d.password| >= 6
  {
    if d.password == "" then Some(PasswordRequired)
    else if |d.password| < 6 then Some(PasswordTooShort)
    else None
  }

  function EmailError(d: UserData): Option<string> {
    if Trim(d.email) == "" then Some(EmailRequired)
    else if !EmailLooksValid(d.email) then Some(EmailInvalid)
    else None
  }

  /** A blank address is reported as missing, before the pattern is tried. */
  lemma EmailRule(d: UserData)
    ensures EmailError(d) == Some(EmailRequired) <==> IsBlank(d.email)
    ensures EmailError(d) == Some(EmailInvalid) <==> !IsBlank(d.email) && !EmailLooksValid(d.email)
    ensures EmailError(d) == None <==> !IsBlank(d.email) && EmailLooksValid(d.email)
  {
    TrimEmptyIffBlank(d.email);
  }

  function FirstNameError(d: UserData): Option<string> {
    if Trim(d.firstName) == "" then Some(FirstNameRequired) else None
  }

  lemma FirstNameRule(d: UserData)
    ensures FirstNameError(d) == if IsBlank(d.firstName) then Some(FirstNameRequired) else None
  {
    TrimEmptyIffBlank(d.firstName);
  }

  function LastNameError(d: UserData): Option<string> {
    if Trim(d.lastName) == "" then Some(LastNameRequired) else None
  }

  lemma LastNameRule(d: UserData)
    ensures LastNameError(d) == if IsBlank(d.lastName) then Some(LastNameRequired) else None
  {
    TrimEmptyIffBlank(d.lastName);
  }

  function RoleError(d: UserData): (e: Option<string>)
    ensures e == Some(RoleRequired) <==> d.role == ""
    ensures e == Some(RoleInvalid) <==> d.role != "" && d.role !in RoleOptions
    ensures e == None <==> d.role in RoleOptions
  {
    if d.role == "" then Some(RoleRequired)
    else if d.role !in RoleOptions then Some(RoleInvalid)
    else None
  }

  /** The object `validateForm` returns: an entry for each failing field, and
      nothing else. */
  function Errors(d: UserData): (errs: FormErrors)
    ensures errs.phoneNumber == None && errs.address == None && errs.image == None
    ensures errs.username == UsernameError(d) && errs.password == PasswordError(d)
    ensures errs.email == EmailError(d) && errs.firstName == FirstNameError(d)
    ensures errs.lastName == LastNameError(d) && errs.role == RoleError(d)
  {
    FormErrors(UsernameError(d), PasswordError(d), EmailError(d), FirstNameError(d), LastNameError(d),
               None, None, RoleError(d), None)
  }

  /** The rule the form enforces, stated field by field. */
  predicate FormValid(d: UserData) {
    !IsBlank(d.username) && |d.password| >= 6 && !IsBlank(d.email) && EmailLooksValid(d.email)
    && !IsBlank(d.firstName) && !IsBlank(d.lastName) && d.role in RoleOptions
  }

  /** The form has no errors exactly when every field rule holds. */
  lemma NoErrorsIffValid(d: UserData)
    ensures Errors(d) == NoErrors <==> FormValid(d)
  {
    UsernameRule(d);
    EmailRule(d);
    FirstNameRule(d);
    LastNameRule(d);
  }

  /** Phone number and address never produce an error. */
  lemma PhoneAndAddressUnchecked(d: UserData, phone: string, address: string)
    ensures Errors(d.(phoneNumber := phone, address := address)) == Errors(d)
  {
  }

  /** The default role is one of the options, so a fresh form never has a
      role error. */
  lemma FreshFormHasNoRoleError(userId: Option<int>)
    ensures Errors(InitialUserData(userId)).role == None
  {
    assert InitialUserData(userId).role == RoleOptions[0];
  }

  /** The request body: phone and address default to "", the picture is
      always sent as the name "profile.png". */
  datatype Payload = Payload(
    username: string, password: string, email: string, firstName: string, lastName: string,
    role: string, createdBy: Option<int>, phoneNumber: string, address: string, image: string)

  function BuildPayload(d: UserData): (p: Payload)
    ensures p.username == d.username && p.password == d.password && p.email == d.email
    ensures p.firstName == d.firstName && p.lastName == d.lastName && p.role == d.role
    ensures p.createdBy == d.createdBy && p.phoneNumber == d.phoneNumber && p.address == d.address
    ensures p.image == "profile.png"
  {
    Payload(d.username, d.password, d.email, d.firstName, d.lastName, d.role, d.createdBy,
            if d.phoneNumber != "" then d.phoneNumber else "",
            if d.address != "" then d.address else "",
            "profile.png")
  }

  /** A value in a server error body: a string, or an array of strings. */
  datatype ErrorValue = Single(text: string) | Messages(items: seq<string>)

  /** A server error body: a JSON object (its entries in order) or some
      other text. */
  datatype ErrorBody = ObjectBody(entries: seq<(string, ErrorValue)>) | TextBody(text: string)

  /** How the request failed: with a response body, without a response, or
      before it was sent. */
  datatype Failure = WithResponse(body: ErrorBody) | NoResponse | NotSent

  /** The value stored under `key` in an error object, if any (the last one
      wins, as in a parsed JSON object). */
  function Lookup(entries: seq<(string, ErrorValue)>, key: string): Option<ErrorValue> {
    if entries == [] then None
    else if entries[|entries| - 1].0 == key then Some(entries[|entries| - 1].1)
    else Lookup(entries[..|entries| - 1], key)
  }

  /** JavaScript truthiness of a field: arrays always, strings when non-empty. */
  predicate TruthyValue(v: Option<ErrorValue>) {
    v.Some? && (v.value.Single? ==> v.value.text != "")
  }

  /** Whether some entry carries `key`. */
  predicate HasKey(entries: seq<(string, ErrorValue)>, key: string) {
    exists i :: 0 <= i < |entries| && entries[i].0 == key
  }

  /** No key appears twice, as in a parsed JSON object. */
  predicate DistinctKeys(entries: seq<(string, ErrorValue)>) {
    forall i, j :: 0 <= i < j < |entries| ==> entries[i].0 != entries[j].0
  }

  /** The entries with the value under `key` replaced in place. */
  function SetValue(entries: seq<(string, ErrorValue)>, key: string, v: ErrorValue): (r: seq<(string, ErrorValue)>)
    ensures |r| == |entries|
    ensures forall i :: 0 <= i < |entries| ==> r[i].0 == entries[i].0
    ensures forall i :: 0 <= i < |entries| && entries[i].0 == key ==> r[i].1 == v
    ensures forall i :: 0 <= i < |entries| && entries[i].0 != key ==> r[i] == entries[i]
  {
    seq(|entries|, i requires 0 <= i < |entries| => if entries[i].0 == key then (key, v) else entries[i])
  }

  /** `JSON.parse` of an object whose members are written as `entries`: a
      repeated member keeps the place of its first occurrence and the value
      of its last. */
  function Parsed(entries: seq<(string, ErrorValue)>): (r: seq<(string, ErrorValue)>)
    ensures DistinctKeys(r)
    ensures forall k :: HasKey(r, k) <==> HasKey(entries, k)
    ensures r == [] <==> entries == []
  {
    if entries == [] then []
    else
      var init := Parsed(entries[..|entries| - 1]);
      var last := entries[|entries| - 1];
      assert forall k :: HasKey(entries, k) <==> HasKey(entries[..|entries| - 1], k) || last.0 == k by {
        forall k | HasKey(entries, k) ensures HasKey(entries[..|entries| - 1], k) || last.0 == k {
          var i :| 0 <= i < |entries| && entries[i].0 == k;
          if i < |entries| - 1 {
            assert entries[..|entries| - 1][i] == entries[i];
          }
        }
        forall k | HasKey(entries[..|entries| - 1], k) ensures HasKey(entries, k) {
          var i :| 0 <= i < |entries| - 1 && entries[..|entries| - 1][i].0 == k;
          assert entries[i].0 == k;
        }
      }
      if HasKey(init, last.0) then SetValue(init, last.0, last.1)
      else
        assert forall k :: HasKey(init + [last], k) <==> HasKey(init, k) || last.0 == k by {
          forall k | HasKey(init + [last], k) ensures HasKey(init, k) || last.0 == k {
            var i :| 0 <= i < |init| + 1 && (init + [last])[i].0 == k;
            if i < |init| {
              assert init[i].0 == k;
            }
          }
          forall k | HasKey(init, k) ensures HasKey(init + [last], k) {
            var i :| 0 <= i < |init| && init[i].0 == k;
            assert (init + [last])[i].0 == k;
          }
          assert (init + [last])[|init|] == last;
        }
        init + [last]
  }

  /** In a list without repeated keys, the value found under a key is the
      one at that key's place. */
  lemma {:induction false} LookupDistinct(entries: seq<(string, ErrorValue)>, i: int)
    requires DistinctKeys(entries) && 0 <= i < |entries|
    ensures Lookup(entries, entries[i].0) == Some(entries[i].1)
  {
    if i < |entries| - 1 {
      LookupDistinct(entries[..|entries| - 1], i);
    }
  }

  /** A key no entry carries is not found. */
  lemma {:induction false} LookupMissing(entries: seq<(string, ErrorValue)>, key: string)
    requires !HasKey(entries, key)
    ensures Lookup(entries, key) == None
  {
    if entries != [] {
      assert entries[|entries| - 1].0 != key;
      var init := entries[..|entries| - 1];
      assert !HasKey(init, key) by {
        forall i | 0 <= i < |init| ensures init[i].0 != key {
          assert init[i] == entries[i];
        }
      }
      LookupMissing(init, key);
    }
  }

  /** Parsing keeps what a later lookup finds: the last value written under
      each key. */
  lemma {:induction false} ParsedLookup(entries: seq<(string, ErrorValue)>, key: string)
    ensures Lookup(Parsed(entries), key) == Lookup(entries, key)
  {
    var r := Parsed(entries);
    if entries == [] {
    } else if !HasKey(r, key) {
      LookupMissing(r, key);
      LookupMissing(entries, key);
    } else {
      var init := entries[..|entries| - 1];
      var last := entries[|entries| - 1];
      var i :| 0 <= i < |r| && r[i].0 == key;
      LookupDistinct(r, i);
      if last.0 != key {
        ParsedLookup(init, key);
        var p := Parsed(init);
        assert HasKey(p, key) by {
          var k :| 0 <= k < |entries| && entries[k].0 == key;
          assert init[k] == entries[k];
        }
        var j :| 0 <= j < |p| && p[j].0 == key;
        LookupDistinct(p, j);
        assert r[j] == p[j];
        assert DistinctKeys(r);
      }
    }
  }

  /** A body without repeated keys parses to itself. */
  lemma {:induction false} ParsedDistinct(entries: seq<(string, ErrorValue)>)
    requires DistinctKeys(entries)
    ensures Parsed(entries) == entries
  {
    if entries != [] {
      var init := entries[..|entries| - 1];
      var last := entries[|entries| - 1];
      assert DistinctKeys(init) by {
        forall i, j | 0 <= i < j < |init| ensures init[i].0 != init[j].0 {
          assert init[i] == entries[i] && init[j] == entries[j];
        }
      }
      ParsedDistinct(init);
      assert !HasKey(init, last.0) by {
        forall i | 0 <= i < |init| ensures init[i].0 != last.0 {
          assert init[i] == entries[i];
        }
      }
      assert init + [last] == entries;
    }
  }

  /** What `toast.error` shows for the value: React renders a string as it
      is and an array of strings as its items side by side, with no
      separator. */
  function ToastText(v: ErrorValue): string {
    match v
    case Single(t) => t
    case Messages(items) => Join(items, "")
  }

  /** One part of the field-error loop: `${field}: ${messages}` for a
      string, `${field}: ${messages.join(', ')}` for an array. */
  function EntryPart(e: (string, ErrorValue)): (part: string)
    ensures |part| >= |e.0| + 2 && part[..|e.0| + 2] == e.0 + ": "
  {
    match e.1
    case Single(t) => e.0 + ": " + t
    case Messages(items) => e.0 + ": " + Join(items, ", ")
  }

  /** The parts of every entry, in order. */
  function EntryParts(entries: seq<(string, ErrorValue)>): (parts: seq<string>)
    ensures |parts| == |entries|
    ensures forall i :: 0 <= i < |entries| ==> parts[i] == EntryPart(entries[i])
  {
    if entries == [] then [] else [EntryPart(entries[0])] + EntryParts(entries[1..])
  }

  /** The loop of `handleSubmit` that collects the field errors. */
  method CollectEntryParts(entries: seq<(string, ErrorValue)>) returns (parts: seq<string>)
    ensures parts == EntryParts(entries)
  {
    parts := [];
    var i := 0;
    while i < |entries|
      invariant 0 <= i <= |entries|
      invariant |parts| == i
      invariant forall j :: 0 <= j < i ==> parts[j] == EntryPart(entries[j])
    {
      parts := parts + [EntryPart(entries[i])];
      i := i + 1;
    }
  }

  const DefaultFailure := "Failed to create user"
  const NoResponseMessage := "No response from server. Please check your connection."

  /** The toast shown when the request fails, in order of precedence: the
      body's `detail`, its `message`, the " | "-joined field errors of the
      parsed object body, the no-response notice, and the generic message. An
      empty-text body counts as no body, and then the request that was
      made gives the no-response notice. */
  function FailureMessage(f: Failure): (m: string)
    ensures f.WithResponse? && f.body.ObjectBody? && TruthyValue(Lookup(f.body.entries, "detail")) ==>
      m == ToastText(Lookup(f.body.entries, "detail").value)
    ensures (f.WithResponse? && f.body.ObjectBody? && !TruthyValue(Lookup(f.body.entries, "detail"))
             && TruthyValue(Lookup(f.body.entries, "message"))) ==> m == ToastText(Lookup(f.body.entries, "message").value)
    ensures (f.WithResponse? && f.body.ObjectBody? && !TruthyValue(Lookup(f.body.entries, "detail"))
             && !TruthyValue(Lookup(f.body.entries, "message"))) ==>
      m == if f.body.entries == [] then DefaultFailure else Join(EntryParts(Parsed(f.body.entries)), " | ")
    ensures f.WithResponse? && f.body.TextBody? ==> m == if f.body.text == "" then NoResponseMessage else DefaultFailure
    ensures f == NoResponse ==> m == NoResponseMessage
    ensures f == NotSent ==> m == DefaultFailure
  {
    match f
    case NotSent => DefaultFailure
    case NoResponse => NoResponseMessage
    case WithResponse(TextBody(t)) => if t == "" then NoResponseMessage else DefaultFailure
    case WithResponse(ObjectBody(entries)) =>
      var detail := Lookup(entries, "detail");
      var message := Lookup(entries, "message");
      if TruthyValue(detail) then ToastText(detail.value)
      else if TruthyValue(message) then ToastText(message.value)
      else
        var parts := EntryParts(Parsed(entries));
        if |parts| > 0 then Join(parts, " | ") else DefaultFailure
  }

  /** A body carrying only field errors reports each field, in order. */
  lemma FieldErrorsReported(entries: seq<(string, ErrorValue)>)
    requires |entries| == 1 && entries[0].0 != "detail" && entries[0].0 != "message"
    ensures FailureMessage(WithResponse(ObjectBody(entries))) == EntryPart(entries[0])
  {
    assert Lookup(entries[..0], "detail") == None;
    assert Lookup(entries[..0], "message") == None;
  }

  /** A field written twice in the body is reported once, with the value
      written last. */
  lemma RepeatedFieldShowsLastValue()
    ensures FailureMessage(WithResponse(ObjectBody([("email", Single("taken")), ("email", Single("invalid"))])))
      == "email: invalid"
  {
    var entries := [("email", Single("taken")), ("email", Single("invalid"))];
    assert entries[..1] == [("email", Single("taken"))];
    assert Parsed(entries[..1]) == [("email", Single("taken"))];
    assert HasKey(Parsed(entries[..1]), "email");
    assert Parsed(entries) == [("email", Single("invalid"))];
    assert Lookup(entries[..1], "detail") == None;
    assert Lookup(entries[..1], "message") == None;
  }

  /** An array `detail` is handed to the toast as it is, so its messages
      appear run together. */
  lemma ArrayDetailRunsTogether()
    ensures FailureMessage(WithResponse(ObjectBody([("detail", Messages(["Bad email.", "Bad name."]))])))
      == "Bad email.Bad name."
  {
    var entries := [("detail", Messages(["Bad email.", "Bad name."]))];
    assert Lookup(entries, "detail") == Some(entries[0].1);
  }

  /** `[m]` for a message, `[]` for none. */
  function Listed(e: Option<string>): (r: seq<string>)
    ensures |r| <= 1 && (r == [] <==> e == None)
  {
    if e.Some? then [e.value] else []
  }

  /** `Object.values(errors)`: the messages in the order their keys were
      first written by `validateForm`. */
  function ErrorToasts(errors: FormErrors): (toasts: seq<string>)
    ensures |toasts| <= 6
    ensures toasts == [] <==>
      errors.username == None && errors.password == None && errors.email == None
      && errors.firstName == None && errors.lastName == None && errors.role == None
  {
    Listed(errors.username) + Listed(errors.password) + Listed(errors.email)
    + Listed(errors.firstName) + Listed(errors.lastName) + Listed(errors.role)
  }

  /** A validation toasts something exactly when it failed, at most one
      message per checked field, each of them the message of some field. */
  lemma ToastsMatchErrors(d: UserData)
    ensures ErrorToasts(Errors(d)) == [] <==> Errors(d) == NoErrors
    ensures |ErrorToasts(Errors(d))| <= 6
    ensures forall t :: t in ErrorToasts(Errors(d)) ==> exists f :: ErrorAt(Errors(d), FieldKey(f)) == Some(t)
  {
    var e := Errors(d);
    forall t | t in ErrorToasts(e) ensures exists f :: ErrorAt(e, FieldKey(f)) == Some(t) {
      if t in Listed(e.username) { assert ErrorAt(e, FieldKey(Username)) == Some(t); }
      else if t in Listed(e.password) { assert ErrorAt(e, FieldKey(Password)) == Some(t); }
      else if t in Listed(e.email) { assert ErrorAt(e, FieldKey(Email)) == Some(t); }
      else if t in Listed(e.firstName) { assert ErrorAt(e, FieldKey(FirstName)) == Some(t); }
      else if t in Listed(e.lastName) { assert ErrorAt(e, FieldKey(LastName)) == Some(t); }
      else { assert ErrorAt(e, FieldKey(RoleField)) == Some(t); }
    }
  }

  /** What a submit ended in; the reply of the server is a parameter. */
  datatype SubmitResult =
    | NotValid(toasts: seq<string>)    // nothing sent; one toast per error
    | NotSignedIn                      // no access token; nothing sent
    | Created(sent: Payload)           // the server accepted the payload
    | Refused(sent: Payload, toast: string)

  /** How a submit ends: a form with errors is never sent, nor is one
      submitted without an access token; otherwise the payload is built from
      the form and the reply decides. */
  function SubmitOutcome(errs: FormErrors, signedIn: bool, d: UserData, reply: Option<Failure>): (r: SubmitResult)
    ensures r.NotValid? <==> errs != NoErrors
    ensures r.NotValid? ==> r.toasts == ErrorToasts(errs)
    ensures r == NotSignedIn <==> errs == NoErrors && !signedIn
    ensures (r.Created? || r.Refused?) ==> r.sent == BuildPayload(d)
    ensures r.Created? <==> errs == NoErrors && signedIn && reply == None
    ensures r.Refused? ==> r.toast == FailureMessage(reply.value)
  {
    if errs != NoErrors then NotValid(ErrorToasts(errs))
    else if !signedIn then NotSignedIn
    else if reply == None then Created(BuildPayload(d))
    else Refused(BuildPayload(d), FailureMessage(reply.value))
  }

  /** The page's state. */
  class CreateSubAdminPage {
    var userData: UserData
    var errors: FormErrors
    var profileImage: Option<ImageFile>
    var loading: bool
    var success: bool

    constructor (userId: Option<int>)
      ensures userData == InitialUserData(userId) && errors == NoErrors && profileImage == None
      ensures !loading && !success
    {
      userData := InitialUserData(userId);
      errors := NoErrors;
      profileImage := None;
      loading := false;
      success := false;
    }

    /** `handleInputChange`. */
    method HandleInputChange(f: Field, value: string)
      modifies this
      ensures userData == SetField(old(userData), f, value)
      ensures errors == ClearError(old(errors), FieldKey(f))
      ensures profileImage == old(profileImage) && loading == old(loading) && success == old(success)
    {
      userData := SetField(userData, f, value);
      if Truthy(ErrorAt(errors, FieldKey(f))) {
        errors := WithError(errors, FieldKey(f), "");
      }
    }

    /** `removeImage`. */
    method RemoveImage()
      modifies this
      ensures userData == old(userData).(image := None) && profileImage == None
      ensures errors == old(errors).(image := Some(""))
      ensures loading == old(loading) && success == old(success)
    {
      profileImage := None;
      userData := userData.(image := None);
      errors := errors.(image := Some(""));
    }

    /** `handleImageUpload`: no file does nothing; a refused file only sets
        the image error; an accepted one becomes the picture and clears it. */
    method HandleImageUpload(file: Option<ImageFile>)
      modifies this
      ensures file == None ==> userData == old(userData) && errors == old(errors) && profileImage == old(profileImage)
      ensures file.Some? && ImageProblem(file.value).Some? ==>
        userData == old(userData) && profileImage == old(profileImage)
        && errors == old(errors).(image := ImageProblem(file.value))
      ensures file.Some? && ImageProblem(file.value) == None ==>
        userData == old(userData).(image := file) && profileImage == file
        && errors == old(errors).(image := Some(""))
      ensures loading == old(loading) && success == old(success)
    {
      if file.Some? {
        var f := file.value;
        if f.size > MaxImageBytes {
          errors := errors.(image := Some(ImageTooLarge));
          return;
        }
        if f.mimeType !in ImageTypes {
          errors := errors.(image := Some(ImageWrongType));
          return;
        }
        profileImage := file;
        userData := userData.(image := file);
        errors := errors.(image := Some(""));
      }
    }

    /** `validateForm`: builds the error object field by field. */
    method ValidateForm() returns (newErrors: FormErrors)
      ensures newErrors == Errors(userData)
    {
      newErrors := NoErrors;
      if Trim(userData.username) == "" {
        newErrors := newErrors.(username := Some(UsernameRequired));
      }
      if userData.password == "" {
        newErrors := newErrors.(password := Some(PasswordRequired));
      } else if |userData.password| < 6 {
        newErrors := newErrors.(password := Some(PasswordTooShort));
      }
      if Trim(userData.email) == "" {
        newErrors := newErrors.(email := Some(EmailRequired));
      } else if !EmailLooksValid(userData.email) {
        newErrors := newErrors.(email := Some(EmailInvalid));
      }
      if Trim(userData.firstName) == "" {
        newErrors := newErrors.(firstName := Some(FirstNameRequired));
      }
      if Trim(userData.lastName) == "" {
        newErrors := newErrors.(lastName := Some(LastNameRequired));
      }
      if userData.role == "" {
        newErrors := newErrors.(role := Some(RoleRequired));
      } else if userData.role !in RoleOptions {
        newErrors := newErrors.(role := Some(RoleInvalid));
      }
    }

    /** `handleSubmit`, up to the reply of the server (a parameter: `None`
        for success, or the failure). */
    method HandleSubmit(storage: LocalStorage, reply: Option<Failure>) returns (result: SubmitResult)
      modifies this
      ensures result == SubmitOutcome(Errors(old(userData)), Present(storage.items, "access_token"),
                                      old(userData), reply)
      ensures errors == if result.NotValid? then Errors(old(userData)) else old(errors)
      ensures loading == if result.NotValid? then old(loading) else false
      ensures success == (result.Created? || old(success))
      ensures userData == old(userData) && profileImage == old(profileImage)
    {
      var validationErrors := ValidateForm();
      if validationErrors != NoErrors {
        errors := validationErrors;
        return NotValid(ErrorToasts(validationErrors));
      }
      result := Send(storage, reply);
    }

    /** The part of `handleSubmit` after validation passed. */
    method Send(storage: LocalStorage, reply: Option<Failure>) returns (result: SubmitResult)
      modifies this
      ensures result == SubmitOutcome(NoErrors, Present(storage.items, "access_token"), old(userData), reply)
      ensures !loading && success == (result.Created? || old(success))
      ensures userData == old(userData) && profileImage == old(profileImage) && errors == old(errors)
    {
      loading := true;
      var payload := BuildPayload(userData);
      if !Present(storage.items, "access_token") {
        loading := false;
        return NotSignedIn;
      }
      if reply == None {
        success := true;
        result := Created(payload);
      } else {
        result := Refused(payload, FailureMessage(reply.value));
      }
      loading := false;
    }

    /** `resetForm`. */
    method ResetForm(userId: Option<int>)
      modifies this
      ensures userData == InitialUserData(userId) && profileImage == None && errors == NoErrors
      ensures loading == old(loading) && success == old(success)
    {
      userData := InitialUserData(userId);
      profileImage := None;
      errors := NoErrors;
    }

    /** The timer a successful creation starts: three seconds later it
        hides the success state and empties the form. The delay is the
        caller's to wait; only its effect is modelled. */
    method SuccessTimerFires(userId: Option<int>)
      modifies this
      ensures !success
      ensures userData == InitialUserData(userId) && profileImage == None && errors == NoErrors
      ensures loading == old(loading)
    {
      success := false;
      ResetForm(userId);
    }
  }
}
