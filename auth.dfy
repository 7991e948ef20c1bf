/**
 * The authentication hook (src/hooks/useAuth.ts): the mock user registry,
 * the login/registration form, registration with its three ordered checks,
 * login by first match, and the submit gate of the form (src/auth/Auth.tsx).
 * The token request made on login is an input of the model.
 */
module Auth {
  import opened Wrappers
  import opened Records
  import opened Storage
  import Numerals

  datatype FormData = FormData(username: string, password: string, repeatPassword: string, email: string)

  /** The `name` attribute of the form's four inputs. */
  datatype FormField = Username | Password | RepeatPassword | Email

  const EmptyForm := FormData("", "", "", "")

  /** The registry used when nothing is stored under "users". */
  const Seed: seq<User> := [User(1, "Raka", "password", "test@example.com")]

  const PasswordMismatch := "Passwords do not match!"
  const UsernameExists := "Username has already exist!"
  const EmailExists := "Email has already exist!"
  const WrongCredentials := "Wrong username or password"

  // ---------------------------------------------------------------------------
  // The form
  // ---------------------------------------------------------------------------

  function FieldOf(form: FormData, field: FormField): string {
    match field
    case Username => form.username
    case Password => form.password
    case RepeatPassword => form.repeatPassword
    case Email => form.email
  }

  /** `handleChange`: the input named `field` takes `value`; the other fields keep theirs. */
  function WithField(form: FormData, field: FormField, value: string): (r: FormData)
    ensures FieldOf(r, field) == value
    ensures forall f :: f != field ==> FieldOf(r, f) == FieldOf(form, f)
  {
    match field
    case Username => form.(username := value)
    case Password => form.(password := value)
    case RepeatPassword => form.(repeatPassword := value)
    case Email => form.(email := value)
  }

  /** `passwordsMatch`: an empty repeat counts as matching. */
  predicate PasswordsMatch(form: FormData) {
    |form.repeatPassword| == 0 || form.password == form.repeatPassword
  }

  /** `isSubmitDisabled` of the form in src/auth/Auth.tsx. */
  predicate SubmitDisabled(isLoading: bool, isLogin: bool, form: FormData) {
    isLoading || (!isLogin && (!PasswordsMatch(form) || form.email == ""))
  }

  // ---------------------------------------------------------------------------
  // The registry
  // ---------------------------------------------------------------------------

  /** `users.some((u) => u.username === name)`. */
  function UsernameTaken(users: seq<User>, name: string): (r: bool)
    ensures r <==> exists i :: 0 <= i < |users| && users[i].username == name
    decreases |users|
  {
    if users == [] then false
    else users[0].username == name || UsernameTaken(users[1..], name)
  }

  /** `users.some((u) => u.email === email)`. */
  function EmailTaken(users: seq<User>, email: string): (r: bool)
    ensures r <==> exists i :: 0 <= i < |users| && users[i].email == email
    decreases |users|
  {
    if users == [] then false
    else users[0].email == email || EmailTaken(users[1..], email)
  }

  /**
   * The error `register` reports, or `None` when it accepts the form. The
   * checks run in order: the two passwords, then the username, then the email.
   */
  function RegisterCheck(users: seq<User>, form: FormData): (r: Option<string>)
    ensures r == Some(PasswordMismatch) <==> form.password != form.repeatPassword
    ensures r == Some(UsernameExists) <==>
      form.password == form.repeatPassword
      && exists i :: 0 <= i < |users| && users[i].username == form.username
    ensures r == Some(EmailExists) <==>
      && form.password == form.repeatPassword
      && (forall i :: 0 <= i < |users| ==> users[i].username != form.username)
      && exists i :: 0 <= i < |users| && users[i].email == form.email
    ensures r == None <==>
      && form.password == form.repeatPassword
      && (forall i :: 0 <= i < |users| ==> users[i].username != form.username)
      && (forall i :: 0 <= i < |users| ==> users[i].email != form.email)
  {
    if form.password != form.repeatPassword then Some(PasswordMismatch)
    else if UsernameTaken(users, form.username) then Some(UsernameExists)
    else if EmailTaken(users, form.email) then Some(EmailExists)
    else None
  }

  /** The user a successful registration appends: numbered one past the registry's length. */
  function NewUser(users: seq<User>, form: FormData): User {
    User(|users| + 1, form.username, form.password, form.email)
  }

  /** The registry after one submission of the registration form. */
  function Registered(users: seq<User>, form: FormData): (r: seq<User>)
    ensures RegisterCheck(users, form).Some? ==> r == users
    ensures RegisterCheck(users, form).None? ==>
      |r| == |users| + 1 && r[..|users|] == users
      && r[|users|] == User(|users| + 1, form.username, form.password, form.email)
  {
    if RegisterCheck(users, form).None? then users + [NewUser(users, form)] else users
  }

  /** Usernames and emails are pairwise distinct and every user's id is its position plus one. */
  ghost predicate WellFormed(users: seq<User>) {
    && (forall i :: 0 <= i < |users| ==> users[i].id == i + 1)
    && (forall i, j :: 0 <= i < j < |users| ==> users[i].username != users[j].username)
    && (forall i, j :: 0 <= i < j < |users| ==> users[i].email != users[j].email)
  }

  lemma SeedWellFormed()
    ensures WellFormed(Seed)
  {
  }

  /** One registration keeps the registry well formed, whatever the form holds. */
  lemma RegisteredWellFormed(users: seq<User>, form: FormData)
    requires WellFormed(users)
    ensures WellFormed(Registered(users, form))
  {
    var r := Registered(users, form);
    if RegisterCheck(users, form).None? {
      forall i, j | 0 <= i < j < |r|
        ensures r[i].username != r[j].username && r[i].email != r[j].email
      {
        if j == |users| {
          assert r[i] == users[i];
        }
      }
    }
  }

  /** The registry after a series of registration submissions. */
  function RegisterAll(users: seq<User>, forms: seq<FormData>): seq<User>
    decreases |forms|
  {
    if forms == [] then users else RegisterAll(Registered(users, forms[0]), forms[1..])
  }

  /** Starting from the seed, every series of registrations leaves a well-formed registry. */
  lemma {:induction false} RegistryStaysWellFormed(users: seq<User>, forms: seq<FormData>)
    requires users == Seed || WellFormed(users)
    ensures WellFormed(RegisterAll(users, forms))
    decreases |forms|
  {
    if users == Seed {
      SeedWellFormed();
    }
    if forms != [] {
      RegisteredWellFormed(users, forms[0]);
      RegistryStaysWellFormed(Registered(users, forms[0]), forms[1..]);
    }
  }

  /**
   * `passwordsMatch` and the strict comparison made by `register` agree
   * except on an empty repeat, which the former accepts.
   */
  lemma PasswordsMatchVersusRegister(users: seq<User>, form: FormData)
    ensures PasswordsMatch(form) <==>
      form.repeatPassword == "" || RegisterCheck(users, form) != Some(PasswordMismatch)
  {
  }

  /**
   * With a password and an email but an empty repeat, the registration form's
   * gate (`isSubmitDisabled`) is open, while `register`'s strict comparison
   * rejects the form. In the page the repeat input is also `required`, so the
   * browser itself refuses to submit such a form; the gate alone does not.
   */
  lemma EmptyRepeatPassesGate(users: seq<User>, form: FormData)
    requires form.repeatPassword == "" && form.password != "" && form.email != ""
    ensures !SubmitDisabled(false, false, form)
    ensures RegisterCheck(users, form) == Some(PasswordMismatch)
  {
  }

  // ---------------------------------------------------------------------------
  // Login
  // ---------------------------------------------------------------------------

  predicate Matches(user: User, form: FormData) {
    user.username == form.username && user.password == form.password
  }

  /** `users.find(...)`: the position of the first user with the form's username and password. */
  function FindUser(users: seq<User>, form: FormData): (r: Option<nat>)
    ensures r.Some? ==>
      && r.value < |users| && Matches(users[r.value], form)
      && forall j :: 0 <= j < r.value ==> !Matches(users[j], form)
    ensures r.None? <==> forall i :: 0 <= i < |users| ==> !Matches(users[i], form)
    decreases |users|
  {
    if users == [] then None
    else if Matches(users[0], form) then Some(0)
    else match FindUser(users[1..], form)
      case None => None
      case Some(k) => Some(k + 1)
  }

  /** How the token request made after a credential match ends. */
  datatype TokenResponse =
    | Response(status: nat, token: string)  // an HTTP response and the token its body holds
    | Failed(message: string)               // the request or the body's parsing threw

  predicate IsOk(response: TokenResponse) {
    response.Response? && 200 <= response.status <= 299
  }

  function HttpError(status: nat): string {
    "HTTP error! status: " + Numerals.Show(status)
  }

  /** What a login attempt leaves behind: the error shown and the items written to storage. */
  datatype LoginEffect = LoginEffect(error: string, writes: map<string, Value>)

  function LoginOutcome(users: seq<User>, form: FormData, response: TokenResponse): (r: LoginEffect)
    ensures r.writes != map[] <==>
      (exists i :: 0 <= i < |users| && Matches(users[i], form)) && IsOk(response)
    ensures r.writes != map[] ==> r.error == "" && exists i ::
      && 0 <= i < |users| && Matches(users[i], form)
      && (forall j :: 0 <= j < i ==> !Matches(users[j], form))
      && r.writes == map["api_token" := Text(response.token),
                         "user" := Identity(users[i].id, users[i].username, users[i].email)]
    ensures (forall i :: 0 <= i < |users| ==> !Matches(users[i], form)) ==> r.error == WrongCredentials
    ensures (exists i :: 0 <= i < |users| && Matches(users[i], form)) && !IsOk(response) ==>
      r.error == if response.Failed? then response.message else HttpError(response.status)
  {
    match FindUser(users, form)
    case None => LoginEffect(WrongCredentials, map[])
    case Some(i) =>
      if IsOk(response) then
        var u := users[i];
        var writes := map["api_token" := Text(response.token), "user" := Identity(u.id, u.username, u.email)];
        assert "api_token" in writes;
        LoginEffect("", writes)
      else if response.Failed? then LoginEffect(response.message, map[])
      else LoginEffect(HttpError(response.status), map[])
  }

  /** The registry read on mount: the stored one when there is one, else the seed. */
  function StoredUsers(items: map<string, Value>): (users: seq<User>)
    ensures !Present(items, "users") ==> users == Seed
    ensures Present(items, "users") && items["users"].Registry? ==> users == items["users"].users
  {
    if Present(items, "users") && items["users"].Registry? then items["users"].users else Seed
  }

  // ---------------------------------------------------------------------------
  // The hook's state
  // ---------------------------------------------------------------------------

  class AuthHook {
    var error: string
    var isLoading: bool
    var isLogin: bool
    var formData: FormData
    var users: seq<User>
    const storage: LocalStorage

    /**
     * Mounting the hook: the registry is read from storage, then the effects
     * run in declaration order. The stored user's name and email are copied
     * into the form, and the reset on `isLogin` empties the form again right
     * after. Finally the registry is written back under "users".
     */
    constructor (storage: LocalStorage)
      modifies storage
      ensures this.storage == storage
      ensures users == StoredUsers(old(storage.items))
      ensures formData == EmptyForm && error == "" && !isLoading && isLogin
      ensures storage.items == old(storage.items)["users" := Registry(users)]
    {
      error := "";
      isLoading := false;
      isLogin := true;
      formData := EmptyForm;
      users := StoredUsers(storage.items);
      this.storage := storage;
      new;
      if Present(storage.items, "user") && storage.items["user"].Identity? {
        var stored := storage.items["user"];
        formData := formData.(username := stored.username, email := stored.email);
      }
      formData := EmptyForm;
      storage.SetItem("users", Registry(users));
    }

    method HandleChange(field: FormField, value: string)
      modifies this`formData
      ensures formData == WithField(old(formData), field, value)
    {
      formData := WithField(formData, field, value);
    }

    /** `setIsLogin`: switching between login and registration empties the form. */
    method SetIsLogin(value: bool)
      modifies this`isLogin, this`formData
      ensures isLogin == value
      ensures formData == if value != old(isLogin) then EmptyForm else old(formData)
    {
      if value != isLogin {
        isLogin := value;
        formData := EmptyForm;
      }
    }

    method Register()
      modifies this, storage
      ensures var check := RegisterCheck(old(users), old(formData));
        && users == Registered(old(users), old(formData))
        && !isLoading
        && error == (if check.Some? then check.value else "")
        && (check.Some? ==>
              formData == old(formData) && isLogin == old(isLogin) && storage.items == old(storage.items))
        && (check.None? ==>
              formData == EmptyForm && isLogin && storage.items == old(storage.items)["users" := Registry(users)])
    {
      error := "";
      isLoading := true;

      if formData.password != formData.repeatPassword {
        isLoading := false;
        error := PasswordMismatch;
        return;
      }

      if UsernameTaken(users, formData.username) {
        isLoading := false;
        error := UsernameExists;
        return;
      }

      if EmailTaken(users, formData.email) {
        isLoading := false;
        error := EmailExists;
        return;
      }

      users := users + [NewUser(users, formData)];
      storage.SetItem("users", Registry(users));
      formData := EmptyForm;
      isLoading := false;
      SetIsLogin(true);
    }

    /** A login attempt; `response` is how the token request ends when the credentials match. */
    method Login(response: TokenResponse)
      modifies this`error, this`isLoading, storage
      ensures var outcome := LoginOutcome(users, formData, response);
        && error == outcome.error
        && !isLoading
        && storage.items == old(storage.items) + outcome.writes
    {
      error := "";
      isLoading := true;

      var found := FindUser(users, formData);
      if found.None? {
        isLoading := false;
        error := WrongCredentials;
        return;
      }

      var user := users[found.value];
      match response {
        case Response(status, token) =>
          if 200 <= status <= 299 {
            storage.SetItem("api_token", Text(token));
            storage.SetItem("user", Identity(user.id, user.username, user.email));
          } else {
            error := HttpError(status);
          }
        case Failed(message) =>
          error := message;
      }
      isLoading := false;
    }
  }
}
