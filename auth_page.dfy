/** The sign-in / sign-up page (src/pages/AuthPage.js): the form record, the endpoint a submission
    goes to, the user record kept after signing in, and the password-reset request with its
    University of Toronto address check. */
module AuthPage {
  import opened JsValues
  import opened JsStrings

  // ---------------------------------------------------------------------------------
  // Endpoint

  /** `import.meta.env.VITE_API_URL || 'http://localhost:5000'`. */
  function ApiBase(configured: Option<string>): (r: string)
    ensures Truthy(configured) ==> r == configured.value
    ensures !Truthy(configured) ==> r == "http://localhost:5000"
  {
    FirstTruthy([configured], "http://localhost:5000")
  }

  /** Sign-up submissions go to the registration endpoint, every other tab to the login one. */
  function Endpoint(tab: string, base: string): string {
    base + (if tab == "signup" then "/api/register" else "/api/login")
  }

  /** The endpoint names registration exactly on the sign-up tab, whatever the base. */
  lemma EndpointChoice(tab: string, base: string)
    ensures EndsWith(Endpoint(tab, base), "/api/register") <==> tab == "signup"
    ensures EndsWith(Endpoint(tab, base), "/api/login") <==> tab != "signup"
    ensures StartsWith(Endpoint(tab, base), base)
  {
    var e := Endpoint(tab, base);
    assert e[..|base|] == base;
    if tab == "signup" {
      assert e[|e| - 1] == 'r';
      assert "/api/login"[9] == 'n';
    } else {
      assert e[|e| - 1] == 'n';
      assert "/api/register"[12] == 'r';
    }
  }

  // ---------------------------------------------------------------------------------
  // Email checks

  const Suffix := "@mail.utoronto.ca"

  /** The reset button's check: `resetEmail.endsWith('@mail.utoronto.ca')`. */
  predicate ResetAllowed(email: string) {
    EndsWith(email, Suffix)
  }

  /** The characters `.` in a regular expression does not match. */
  predicate IsLineTerminator(c: char) {
    var u := c as int;
    u == 0x0A || u == 0x0D || u == 0x2028 || u == 0x2029
  }

  predicate NoLineTerminators(s: string) {
    forall i :: 0 <= i < |s| ==> !IsLineTerminator(s[i])
  }

  /** The sign-in field's `pattern`, `.+@mail\.utoronto\.ca`, which must match the whole value. */
  ghost predicate PatternMatches(v: string) {
    exists p :: |p| >= 1 && NoLineTerminators(p) && v == p + Suffix
  }

  /** The pattern decided by looking at the value: something before the suffix, with no line break. */
  predicate PatternCheck(v: string) {
    |v| > |Suffix| && EndsWith(v, Suffix) && NoLineTerminators(v[..|v| - |Suffix|])
  }

  /** The check decides the pattern exactly. */
  lemma PatternCheckExact(v: string)
    ensures PatternCheck(v) <==> PatternMatches(v)
  {
    if PatternCheck(v) {
      var p := v[..|v| - |Suffix|];
      assert v == p + Suffix;
    }
    if PatternMatches(v) {
      var p :| |p| >= 1 && NoLineTerminators(p) && v == p + Suffix;
      assert v[..|v| - |Suffix|] == p;
      assert v[|v| - |Suffix|..] == Suffix;
    }
  }

  /** An address the sign-in pattern accepts also passes the reset check, but not the other way round:
      the bare suffix passes the reset check and fails the pattern. */
  lemma ResetCheckIsWeaker(v: string)
    ensures PatternMatches(v) ==> ResetAllowed(v)
    ensures ResetAllowed(Suffix) && !PatternMatches(Suffix)
  {
    PatternCheckExact(v);
    PatternCheckExact(Suffix);
  }

  // ---------------------------------------------------------------------------------
  // The record stored after signing in

  /** The form record: field name to text. */
  type AuthForm = map<string, string>

  const InitialForm: AuthForm := map["name" := "", "email" := "", "password" := "", "confirmPassword" := "",
                                     "program" := "", "year" := ""]

  function Field(form: AuthForm, key: string): string {
    if key in form then form[key] else ""
  }

  /** savedUser: each field from the server's user when truthy, else from the form, else a default. */
  function SavedUser(server: UserRecord, form: AuthForm): (r: UserRecord)
    ensures r.email == Some(if Truthy(server.email) then server.email.value else Field(form, "email"))
    ensures r.name == Some(if Truthy(server.name) then server.name.value
                           else if Field(form, "name") != "" then Field(form, "name") else "Unnamed User")
    ensures r.avatar == Some(if Truthy(server.avatar) then server.avatar.value else "/default-avatar.png")
    ensures r.program == Some(if Truthy(server.program) then server.program.value else Field(form, "program"))
    ensures r.year == Some(if Truthy(server.year) then server.year.value else Field(form, "year"))
  {
    var name := [server.name, Some(Field(form, "name"))];
    var program := [server.program, Some(Field(form, "program"))];
    var year := [server.year, Some(Field(form, "year"))];
    assert name[0] == server.name && name[1] == Some(Field(form, "name"));
    assert program[0] == server.program && program[1] == Some(Field(form, "program"));
    assert year[0] == server.year && year[1] == Some(Field(form, "year"));
    UserRecord(
      Some(FirstTruthy(name, "Unnamed User")),
      Some(FirstTruthy([server.email], Field(form, "email"))),
      Some(FirstTruthy([server.avatar], "/default-avatar.png")),
      Some(FirstTruthy(program, "")),
      Some(FirstTruthy(year, "")))
  }

  /** The stored user always has a name and an avatar to show. */
  lemma SavedUserDisplayable(server: UserRecord, form: AuthForm)
    ensures SavedUser(server, form).name.value != ""
    ensures SavedUser(server, form).avatar.value != ""
  {
  }

  /** `localStorage.setItem('token', data.token)`: storage keeps text, so a reply without a token
      stores the text "undefined". */
  function StoredToken(token: Option<string>): string {
    if token.Some? then token.value else "undefined"
  }

  /** `isLoggedIn` in src/utils/auth.js: the token entry exists and is not empty. */
  predicate LoggedIn(storedToken: Option<string>) {
    Truthy(storedToken)
  }

  /** After a successful sign-in the user counts as logged in unless the server sent an empty token;
      a missing token still logs in, through the text "undefined". */
  lemma StoredTokenLogsIn(token: Option<string>)
    ensures LoggedIn(Some(StoredToken(token))) <==> token != Some("")
    ensures StoredToken(None) == "undefined" && LoggedIn(Some(StoredToken(None)))
  {
  }

  // ---------------------------------------------------------------------------------
  // The component state

  /** What the server answered: whether the status was 2xx, and the token and user it sent. */
  datatype Reply = Reply(ok: bool, token: Option<string>, user: Option<UserRecord>)

  datatype AuthState = AuthState(
    tab: string,
    form: AuthForm,
    showResetModal: bool,
    resetEmail: string,
    storedToken: Option<string>,
    storedUser: Option<UserRecord>)

  class AuthScreen {
    var tab: string
    var form: AuthForm
    var showResetModal: bool
    var resetEmail: string
    /** The `token` and `user` entries of browser storage. */
    var storedToken: Option<string>
    var storedUser: Option<UserRecord>

    function State(): AuthState
      reads this
    {
      AuthState(tab, form, showResetModal, resetEmail, storedToken, storedUser)
    }

    constructor(token: Option<string>, user: Option<UserRecord>)
      ensures State() == AuthState("signin", InitialForm, false, "", token, user)
    {
      tab, form, showResetModal, resetEmail := "signin", InitialForm, false, "";
      storedToken, storedUser := token, user;
    }

    method SelectTab(t: string)
      modifies this
      ensures State() == old(State()).(tab := t)
    {
      tab := t;
    }

    /** handleChange: only the named field changes. */
    method HandleChange(name: string, value: string)
      modifies this
      ensures State() == old(State()).(form := old(form)[name := value])
    {
      form := form[name := value];
    }

    /** handleSubmit after the reply: `reply` is none when the request threw. A 2xx reply to a
        sign-up switches to the sign-in tab; one to a sign-in stores the token and the user record. */
    method Submit(reply: Option<Reply>)
      modifies this
      ensures reply.None? || !reply.value.ok ==> State() == old(State())
      ensures reply.Some? && reply.value.ok && old(tab) == "signup" ==> State() == old(State()).(tab := "signin")
      ensures reply.Some? && reply.value.ok && old(tab) != "signup" ==>
                State() == old(State()).(storedToken := Some(StoredToken(reply.value.token)),
                                         storedUser := Some(SavedUser(if reply.value.user.Some? then reply.value.user.value else NoUser, old(form))))
      ensures reply.Some? && reply.value.ok && old(tab) != "signup" ==>
                (LoggedIn(storedToken) <==> reply.value.token != Some(""))
    {
      if reply.None? || !reply.value.ok {
        return;
      }
      if tab == "signup" {
        tab := "signin";
      } else {
        storedToken := Some(StoredToken(reply.value.token));
        var server := if reply.value.user.Some? then reply.value.user.value else NoUser;
        storedUser := Some(SavedUser(server, form));
      }
    }

    method OpenResetModal()
      modifies this
      ensures State() == old(State()).(showResetModal := true)
    {
      showResetModal := true;
    }

    /** Closing the dialog keeps the address typed so far. */
    method CloseResetModal()
      modifies this
      ensures State() == old(State()).(showResetModal := false)
    {
      showResetModal := false;
    }

    method SetResetEmail(email: string)
      modifies this
      ensures State() == old(State()).(resetEmail := email)
    {
      resetEmail := email;
    }

    /** The reset button: no request unless the address ends in the university suffix; a 2xx
        reply closes the dialog and clears the address. */
    method RequestReset(ok: bool) returns (sent: bool)
      modifies this
      ensures sent == ResetAllowed(old(resetEmail))
      ensures !(sent && ok) ==> State() == old(State())
      ensures sent && ok ==> State() == old(State()).(showResetModal := false, resetEmail := "")
    {
      if !EndsWith(resetEmail, Suffix) {
        return false;
      }
      sent := true;
      if ok {
        showResetModal := false;
        resetEmail := "";
      }
    }
  }
}
