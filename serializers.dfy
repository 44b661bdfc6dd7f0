/**
  The three serializers of the backend: the public user shape, registration
  (field checks, the case-insensitive username check, creation) and the
  login check.

  Submitted forms are maps from field name to the submitted text; an absent
  key is a field that was not sent. The password hasher and `authenticate()`
  are outside the model: the stored password is the submitted one and
  `authenticate` is a parameter.
*/
module Serializers {
  import opened Wrappers
  import opened Text
  import opened JsonValues
  import opened Models

  type Form = map<string, string>

  /** `UserSerializer.Meta.fields`, in order. */
  const UserFields: seq<string> := ["id", "username", "first_name", "last_name"]

  /** `UserSerializer.Meta.read_only_fields`. */
  const ReadOnlyFields: set<string> := {"id", "username"}

  /** A user as `UserSerializer` renders it. */
  function PublicUser(u: User): (r: map<string, Json>)
    ensures r.Keys == {"id", "username", "first_name", "last_name"}
    ensures r["id"] == Num(u.id) && r["username"] == Str(u.username)
    ensures r["first_name"] == Str(u.firstName) && r["last_name"] == Str(u.lastName)
  {
    map["id" := Num(u.id), "username" := Str(u.username),
        "first_name" := Str(u.firstName), "last_name" := Str(u.lastName)]
  }

  /** The rendered shape is exactly the declared field list; the password and e-mail never appear. */
  lemma PublicUserShape(u: User)
    ensures PublicUser(u).Keys == set f | f in UserFields
    ensures "password" !in PublicUser(u) && "email" !in PublicUser(u)
  {
    assert forall f :: f in UserFields <==> f in {"id", "username", "first_name", "last_name"};
  }

  /** Why a submitted field is refused. */
  datatype FieldError =
    | Required           // the key is absent
    | Blank              // the value is empty (blank once stripped, for `UserSerializer`)
    | TooShort(min: nat)
    | TooLong(max: nat)
    | NotUnique          // the unique column already holds this exact name
    | TakenIgnoringCase  // `validate_username`: "A user with that username already exists."

  /** A name field of `UserSerializer`, as DRF builds it from the model column: the text is
      stripped, stripped-empty text is refused unless the column may be blank, and the stripped
      text holds at most 30 characters. */
  function NameFieldError(v: string, allowBlank: bool): Option<FieldError>
  {
    var t := Strip(v);
    if t == "" then (if allowBlank then None else Some(Blank))
    else if |t| > 30 then Some(TooLong(30))
    else None
  }

  /** The refused fields of a partial update: only submitted fields are checked, `first_name`
      may not be blank, `last_name` may; `id` and `username` are read-only and never refused. */
  function UserUpdateErrors(data: Form): (errors: map<string, FieldError>)
    ensures errors.Keys <= {"first_name", "last_name"}
    ensures "first_name" in errors <==> "first_name" in data && NameFieldError(data["first_name"], false).Some?
    ensures "last_name" in errors <==> "last_name" in data && NameFieldError(data["last_name"], true).Some?
  {
    var first := if "first_name" in data then NameFieldError(data["first_name"], false) else None;
    var last := if "last_name" in data then NameFieldError(data["last_name"], true) else None;
    (if first.Some? then map["first_name" := first.value] else map[]) +
    (if last.Some? then map["last_name" := last.value] else map[])
  }

  /** A partial update through `UserSerializer` (`is_valid()`, then `save()`): refused with the
      field errors, or the user with the submitted names, stripped, and everything else kept. */
  function ApplyUserUpdate(u: User, data: Form): (r: Result<User, map<string, FieldError>>)
  {
    var errors := UserUpdateErrors(data);
    if |errors| > 0 then Failure(errors)
    else
      Success(u.(firstName := if "first_name" in data then Strip(data["first_name"]) else u.firstName,
                 lastName := if "last_name" in data then Strip(data["last_name"]) else u.lastName))
  }

  /** An update is refused exactly when a submitted first name strips to nothing or a submitted
      name is longer than 30 characters once stripped. An accepted update changes only the
      submitted names, to their stripped text; `id`, `username` and the rest are kept. */
  lemma UpdateKeepsReadOnlyFields(u: User, data: Form)
    ensures var r := ApplyUserUpdate(u, data);
      && (r.Failure? <==>
            || ("first_name" in data && (Strip(data["first_name"]) == "" || |Strip(data["first_name"])| > 30))
            || ("last_name" in data && |Strip(data["last_name"])| > 30))
      && (r.Success? ==>
            && (forall f :: f in ReadOnlyFields ==> PublicUser(r.value)[f] == PublicUser(u)[f])
            && r.value.(firstName := u.firstName, lastName := u.lastName) == u
            && r.value.firstName == (if "first_name" in data then Strip(data["first_name"]) else u.firstName)
            && r.value.lastName == (if "last_name" in data then Strip(data["last_name"]) else u.lastName))
  {
    var errors := UserUpdateErrors(data);
    if |errors| == 0 {
      assert "first_name" !in errors && "last_name" !in errors;
    } else {
      assert "first_name" in errors || "last_name" in errors;
    }
  }

  /** An accepted update keeps a user within the model's field limits. */
  lemma UpdateKeepsUserValid(u: User, data: Form)
    requires UserFieldsValid(u)
    ensures ApplyUserUpdate(u, data).Success? ==> UserFieldsValid(ApplyUserUpdate(u, data).value)
  {
    UpdateKeepsReadOnlyFields(u, data);
  }

  /** An empty or blank first name is refused, and the user is left as it was. */
  lemma BlankFirstNameRefused(u: User)
    ensures ApplyUserUpdate(u, map["first_name" := ""]) == Failure(map["first_name" := Blank])
    ensures ApplyUserUpdate(u, map["first_name" := "  "]) == Failure(map["first_name" := Blank])
  {
    assert Strip("") == "";
    assert Strip("  ") == "" by {
      assert IsPySpace(' ') && "  " == [' '] + " " && " " == [' '] + "";
      TrimStartCons(' ', " ", IsPySpace);
      TrimStartCons(' ', "", IsPySpace);
    }
    assert NameFieldError("", false) == Some(Blank) && NameFieldError("  ", false) == Some(Blank);
    assert UserUpdateErrors(map["first_name" := ""]) == map["first_name" := Blank];
    assert UserUpdateErrors(map["first_name" := "  "]) == map["first_name" := Blank];
  }

  /** A first or last name longer than 30 characters once stripped is refused. */
  lemma LongNameRefused(u: User, name: string)
    requires |Strip(name)| > 30
    ensures ApplyUserUpdate(u, map["first_name" := name]) == Failure(map["first_name" := TooLong(30)])
    ensures ApplyUserUpdate(u, map["last_name" := name]) == Failure(map["last_name" := TooLong(30)])
  {
    assert UserUpdateErrors(map["first_name" := name]) == map["first_name" := TooLong(30)];
    assert UserUpdateErrors(map["last_name" := name]) == map["last_name" := TooLong(30)];
  }

  /** Some existing username equals `name` ignoring case (`username__iexact`). */
  predicate TakenIgnoringCaseIn(existing: seq<User>, name: string)
  {
    exists i :: 0 <= i < |existing| && EqualsIgnoringCase(existing[i].username, name)
  }

  /** The `username` field: required, non-blank, 4 to 100 characters, unique, then the
      case-insensitive check of `validate_username`. */
  function UsernameError(value: Option<string>, existing: seq<User>): Option<FieldError>
  {
    match value
    case None => Some(Required)
    case Some(v) =>
      if v == "" then Some(Blank)
      else if |v| > 100 then Some(TooLong(100))
      else if |v| < 4 then Some(TooShort(4))
      else if exists i :: 0 <= i < |existing| && existing[i].username == v then Some(NotUnique)
      else if TakenIgnoringCaseIn(existing, v) then Some(TakenIgnoringCase)
      else None
  }

  /** `password` and `first_name` are declared as plain required text fields: only presence
      and non-blankness are checked. */
  function RequiredTextError(value: Option<string>): Option<FieldError>
  {
    match value
    case None => Some(Required)
    case Some(v) => if v == "" then Some(Blank) else None
  }

  /** `last_name` is optional, may be blank, and holds at most 30 characters. */
  function LastNameError(value: Option<string>): Option<FieldError>
  {
    if value.Some? && |value.value| > 30 then Some(TooLong(30)) else None
  }

  function Field(data: Form, name: string): Option<string>
  {
    if name in data then Some(data[name]) else None
  }

  /** Every refused field with its reason; all fields are checked, not just the first. */
  function RegistrationErrors(data: Form, existing: seq<User>): (errors: map<string, FieldError>)
    ensures errors.Keys <= {"username", "password", "first_name", "last_name"}
    ensures "username" in errors <==> UsernameError(Field(data, "username"), existing).Some?
    ensures "password" in errors <==> RequiredTextError(Field(data, "password")).Some?
    ensures "first_name" in errors <==> RequiredTextError(Field(data, "first_name")).Some?
    ensures "last_name" in errors <==> LastNameError(Field(data, "last_name")).Some?
  {
    var checks := map[
      "username" := UsernameError(Field(data, "username"), existing),
      "password" := RequiredTextError(Field(data, "password")),
      "first_name" := RequiredTextError(Field(data, "first_name")),
      "last_name" := LastNameError(Field(data, "last_name"))];
    map f | f in checks && checks[f].Some? :: checks[f].value
  }

  datatype Registration = Registration(username: string, password: string, firstName: string, lastName: Option<string>)

  /** `is_valid()` on `UserRegistrationSerializer`. */
  function ValidateRegistration(data: Form, existing: seq<User>): Result<Registration, map<string, FieldError>>
  {
    var errors := RegistrationErrors(data, existing);
    if |errors| > 0 then Failure(errors)
    else
      assert "username" !in errors && "password" !in errors && "first_name" !in errors;
      Success(Registration(data["username"], data["password"], data["first_name"], Field(data, "last_name")))
  }

  /** `create`: `create_user` inserts the user, `last_name` falling back to the empty string.
      PostgreSQL refuses a value longer than its column, and the registration view does not
      catch the error, so the request ends in a server error: `None`. */
  function Create(reg: Registration, id: int): (r: Option<User>)
    ensures r.Some? <==> FitsColumns(reg.username, reg.firstName, reg.lastName.GetOr(""))
    ensures r.Some? ==> var u := r.value;
      && u.username == reg.username && u.password == reg.password && u.firstName == reg.firstName
      && u.lastName == reg.lastName.GetOr("") && u.id == id && u.isActive
  {
    if FitsColumns(reg.username, reg.firstName, reg.lastName.GetOr("")) then
      Some(User(id, reg.username, reg.password, reg.firstName, reg.lastName.GetOr(""), "", true))
    else None
  }

  /** The serializer checks the username and last-name lengths but not the first name's, so an
      accepted registration is inserted exactly when its first name fits the 30-character column. */
  lemma AcceptedRegistrationInserted(data: Form, existing: seq<User>, id: int)
    requires ValidateRegistration(data, existing).Success?
    ensures Create(ValidateRegistration(data, existing).value, id).Some? <==> |data["first_name"]| <= 30
  {
    var errors := RegistrationErrors(data, existing);
    assert "username" !in errors && "last_name" !in errors;
  }

  /** A 31-character first name passes the serializer and fails the insert. */
  lemma LongFirstNameFailsInsert()
    ensures var data := map["username" := "alice", "password" := "secret", "first_name" := seq(31, _ => 'a')];
      && ValidateRegistration(data, []).Success?
      && Create(ValidateRegistration(data, []).value, 1).None?
  {
    var data := map["username" := "alice", "password" := "secret", "first_name" := seq(31, _ => 'a')];
    assert !TakenIgnoringCaseIn([], "alice");
    assert data["first_name"] != "";
    assert RegistrationErrors(data, []) == map[];
  }

  /** A registration is accepted exactly when no field is refused; the accepted data are the
      submitted fields, and the name clashes with no existing name, ignoring case. */
  lemma RegistrationAccepted(data: Form, existing: seq<User>)
    ensures ValidateRegistration(data, existing).Success? <==> RegistrationErrors(data, existing) == map[]
    ensures ValidateRegistration(data, existing).Success? ==>
      && "username" in data && "password" in data && "first_name" in data
      && data["password"] != "" && data["first_name"] != ""
      && 4 <= |data["username"]| <= 100
      && !TakenIgnoringCaseIn(existing, data["username"])
  {
    var errors := RegistrationErrors(data, existing);
    if |errors| == 0 {
      assert "username" !in errors;
      assert "password" !in errors && "first_name" !in errors;
      assert errors == map[];
    } else {
      assert errors != map[];
    }
  }

  /** A name equal to an existing one up to case is refused, with `validate_username`'s error
      when it is not an exact duplicate. */
  lemma CaseVariantIsRefused(data: Form, existing: seq<User>, i: int)
    requires 0 <= i < |existing| && "username" in data
    requires EqualsIgnoringCase(existing[i].username, data["username"])
    requires 4 <= |data["username"]| <= 100
    ensures ValidateRegistration(data, existing).Failure?
    ensures var e := RegistrationErrors(data, existing);
      "username" in e && (e["username"] == NotUnique || e["username"] == TakenIgnoringCase)
  {
    assert TakenIgnoringCaseIn(existing, data["username"]);
    assert "username" in RegistrationErrors(data, existing);
  }

  /** `first_name` is required. */
  lemma FirstNameIsRequired(data: Form, existing: seq<User>)
    requires "first_name" !in data
    ensures ValidateRegistration(data, existing).Failure?
    ensures RegistrationErrors(data, existing)["first_name"] == Required
  {
    assert "first_name" in RegistrationErrors(data, existing);
  }

  /** No two users share a name, ignoring case. */
  predicate UniqueIgnoringCase(users: seq<User>)
  {
    forall i, j :: 0 <= i < j < |users| ==> !EqualsIgnoringCase(users[i].username, users[j].username)
  }

  /** Case-insensitive uniqueness is stronger than the column's exact uniqueness. */
  lemma IgnoringCaseImpliesExact(users: seq<User>)
    requires UniqueIgnoringCase(users)
    ensures UniqueUsernames(users)
  {
    forall i, j | 0 <= i < j < |users| ensures users[i].username != users[j].username {
      assert !EqualsIgnoringCase(users[i].username, users[j].username);
    }
  }

  /** Registering through the serializer keeps the user table unique ignoring case. */
  lemma RegistrationKeepsNamesUnique(data: Form, existing: seq<User>, id: int)
    requires UniqueIgnoringCase(existing)
    requires ValidateRegistration(data, existing).Success?
    ensures var u := Create(ValidateRegistration(data, existing).value, id);
      u.Some? ==> UniqueIgnoringCase(existing + [u.value])
  {
    RegistrationAccepted(data, existing);
    var u := Create(ValidateRegistration(data, existing).value, id);
    if u.None? { return; }
    var users := existing + [u.value];
    forall i, j | 0 <= i < j < |users|
      ensures !EqualsIgnoringCase(users[i].username, users[j].username)
    {
      if j == |existing| {
        assert users[i] == existing[i];
        assert !EqualsIgnoringCase(existing[i].username, data["username"]);
      }
    }
  }

  /** The registration serializer declares `password` and `first_name` itself, so the model's
      six-character password minimum and thirty-character first-name limit are not checked. */
  lemma ModelLimitsNotChecked()
    ensures var data := map["username" := "alice", "password" := "abc", "first_name" := "A"];
      && ValidateRegistration(data, []).Success?
      && Create(ValidateRegistration(data, []).value, 1).Some?
      && !UserFieldsValid(Create(ValidateRegistration(data, []).value, 1).value)
  {
    var data := map["username" := "alice", "password" := "abc", "first_name" := "A"];
    assert !TakenIgnoringCaseIn([], "alice");
    assert RegistrationErrors(data, []) == map[];
  }

  const MissingCredentials: string := "Must include \"username\" and \"password\"."
  const BadCredentials: string := "Unable to log in with provided credentials."
  const DisabledAccount: string := "User account is disabled."

  /** What `validate` returns: the submitted data with the authenticated user added. */
  datatype LoginData = LoginData(fields: Form, user: User)

  /** `LoginSerializer.validate`; `authenticate` is Django's, given as a parameter. */
  function ValidateLogin(data: Form, authenticate: (string, string) -> Option<User>): Result<LoginData, string>
  {
    var username := Field(data, "username");
    var password := Field(data, "password");
    if username.None? || username.value == "" || password.None? || password.value == "" then
      Failure(MissingCredentials)
    else
      var user := authenticate(username.value, password.value);
      if user.None? then Failure(BadCredentials)
      else if !user.value.isActive then Failure(DisabledAccount)
      else Success(LoginData(data, user.value))
  }

  /** The errors come in order: missing credentials, then failed authentication, then a
      disabled account; a success carries the submitted data and the active user
      `authenticate` returned. */
  lemma LoginCheckOrder(data: Form, authenticate: (string, string) -> Option<User>)
    ensures var present := "username" in data && data["username"] != "" && "password" in data && data["password"] != "";
      var r := ValidateLogin(data, authenticate);
      && (r == Failure(MissingCredentials) <==> !present)
      && (r == Failure(BadCredentials) <==> present && authenticate(data["username"], data["password"]).None?)
      && (r == Failure(DisabledAccount) <==>
            present && authenticate(data["username"], data["password"]).Some? &&
            !authenticate(data["username"], data["password"]).value.isActive)
      && (r.Success? ==>
            && r.value.fields == data && r.value.user.isActive
            && Some(r.value.user) == authenticate(data["username"], data["password"]))
  {
  }

  /** Why `is_valid()` on `LoginSerializer` refuses: errors of the declared fields, or the error
      `validate` raises. */
  datatype LoginRefusal = FieldErrors(errors: map<string, FieldError>) | NonFieldError(message: string)

  /** The declared `username` and `password` fields are plain `CharField`s: each must be sent and
      non-blank. Both are checked. */
  function LoginFieldErrors(data: Form): (errors: map<string, FieldError>)
    ensures errors.Keys <= {"username", "password"}
    ensures "username" in errors <==> RequiredTextError(Field(data, "username")).Some?
    ensures "password" in errors <==> RequiredTextError(Field(data, "password")).Some?
  {
    var checks := map[
      "username" := RequiredTextError(Field(data, "username")),
      "password" := RequiredTextError(Field(data, "password"))];
    map f | f in checks && checks[f].Some? :: checks[f].value
  }

  /** The validated data `validate` receives: the declared fields only. */
  function Credentials(data: Form): Form
  {
    map f | f in data && (f == "username" || f == "password") :: data[f]
  }

  /** `is_valid()` on `LoginSerializer`: the field checks, then `validate` on the credentials. */
  function LoginIsValid(data: Form, authenticate: (string, string) -> Option<User>): Result<LoginData, LoginRefusal>
  {
    var errors := LoginFieldErrors(data);
    if |errors| > 0 then Failure(FieldErrors(errors))
    else
      match ValidateLogin(Credentials(data), authenticate)
      case Success(d) => Success(d)
      case Failure(message) => Failure(NonFieldError(message))
  }

  /** A missing or blank credential is refused by its field before `validate` runs, so the
      "Must include" error of `validate` is never raised through `is_valid()`; with both
      credentials present the answer is `validate`'s, and a success carries only them. */
  lemma MissingCredentialsUnreachable(data: Form, authenticate: (string, string) -> Option<User>)
    ensures var present := "username" in data && data["username"] != "" && "password" in data && data["password"] != "";
      var r := LoginIsValid(data, authenticate);
      && r != Failure(NonFieldError(MissingCredentials))
      && (r.Failure? && r.error.FieldErrors? <==> !present)
      && (present && r.Failure? ==>
            r.error == NonFieldError(ValidateLogin(Credentials(data), authenticate).error))
      && (r.Success? ==>
            && r.value.fields == map["username" := data["username"], "password" := data["password"]]
            && r.value.user.isActive
            && Some(r.value.user) == authenticate(data["username"], data["password"]))
  {
    var present := "username" in data && data["username"] != "" && "password" in data && data["password"] != "";
    var errors := LoginFieldErrors(data);
    if present {
      assert "username" !in errors && "password" !in errors;
      assert errors == map[];
      var c := Credentials(data);
      assert c == map["username" := data["username"], "password" := data["password"]];
      LoginCheckOrder(c, authenticate);
    } else {
      assert "username" in errors || "password" in errors;
      assert |errors| > 0;
    }
  }

  /** What Django's default `ModelBackend` guarantees: it answers no user for an inactive
      account. */
  ghost predicate RefusesInactive(authenticate: (string, string) -> Option<User>)
  {
    forall name, password :: authenticate(name, password).Some? ==> authenticate(name, password).value.isActive
  }

  /** With the default backend "User account is disabled." is never raised, neither by
      `validate` nor through `is_valid()`: an inactive user fails as bad credentials. */
  lemma DisabledAccountUnreachable(data: Form, authenticate: (string, string) -> Option<User>)
    requires RefusesInactive(authenticate)
    ensures ValidateLogin(data, authenticate) != Failure(DisabledAccount)
    ensures LoginIsValid(data, authenticate) != Failure(NonFieldError(DisabledAccount))
  {
    LoginCheckOrder(data, authenticate);
    LoginCheckOrder(Credentials(data), authenticate);
  }
}
